/** ActiveAgent::GenerationProvider::AnthropicProvider: the Messages API. */
module AnthropicProvider {
  import opened Wrappers
  import opened Values
  import opened Errors
  import opened Wire
  import Access
  import Messages
  import Actions
  import Responses

  /** One element of `response.tool_use` (read with Symbol keys). */
  datatype ToolUse = ToolUse(id: Value, name: Value, input: Value)

  /** A reply of the Messages API as the provider reads it. */
  datatype MessagesReply = MessagesReply(content: seq<Value>, stopReason: Value, toolUse: Option<seq<ToolUse>>)

  /**
   * What the client's `messages` call yields: the reply and, in order, the
   * `dig(:delta, :text)` of each chunk it passes to the stream proc when
   * one is attached.
   */
  datatype Delivery = Delivery(reply: MessagesReply, chunks: seq<Option<string>>)

  type AnthropicResponse = Responses.Response<ProviderPrompt, Reply, MessagesReply>

  /** The proc installed as `parameters[:stream]` (it takes the chunk). */
  const StreamProc: Value := VProc(1, 1)

  const DefaultModel: string := "claude-3-5-sonnet-20240620"

  /** The model name: `config["model"] || "claude-3-5-sonnet-20240620"`. */
  function ModelName(config: map<string, Value>): (m: Value)
    ensures Truthy(Get(config, "model")) ==> m == config["model"]
    ensures !Truthy(Get(config, "model")) ==> m == VStr(DefaultModel)
  {
    Or(Get(config, "model"), VStr(DefaultModel))
  }

  /** `convert_role`: the Anthropic role for a Message role, compared as `to_s`. */
  function ConvertRole(role: Value): (r: string)
    ensures r in {"system", "user", "assistant"}
    ensures ToS(role) == VStr("system") ==> r == "system"
    ensures ToS(role) == VStr("user") ==> r == "user"
    ensures ToS(role) == VStr("assistant") ==> r == "assistant"
    ensures ToS(role) == VStr("tool") || ToS(role) == VStr("function") ==> r == "assistant"
    ensures !(ToS(role).VStr? && ToS(role).s in {"system", "user", "assistant", "tool", "function"}) ==> r == "user"
  {
    match ToS(role)
    case VStr("system") => "system"
    case VStr("user") => "user"
    case VStr("assistant") => "assistant"
    case VStr("tool") => "assistant"
    case VStr("function") => "assistant"
    case _ => "user"
  }

  /** The content block of one message: an image from a URL, or text. */
  function ContentBlock(m: WireMessage): (b: map<string, Value>)
    ensures m.contentType == VStr("image_url") ==>
      b == map["type" := VStr("image"), "source" := VHash(map["type" := VStr("url"), "url" := m.content])]
    ensures m.contentType != VStr("image_url") ==> b == map["type" := VStr("text"), "text" := m.content]
  {
    if m.contentType == VStr("image_url") then
      map["type" := VStr("image"), "source" := VHash(map["type" := VStr("url"), "url" := m.content])]
    else
      map["type" := VStr("text"), "text" := m.content]
  }

  /** `provider_messages`: per message, its converted role and exactly one content block, in order. */
  function ProviderMessages(ms: seq<WireMessage>): (r: seq<map<string, Value>>)
    ensures |r| == |ms|
    ensures forall i :: 0 <= i < |ms| ==> r[i].Keys == {"role", "content"}
    ensures forall i :: 0 <= i < |ms| ==> r[i]["role"] == VStr(ConvertRole(ms[i].role))
    ensures forall i :: 0 <= i < |ms| ==> r[i]["content"] == VList([VHash(ContentBlock(ms[i]))])
  {
    seq(|ms|, i requires 0 <= i < |ms| =>
      map["role" := VStr(ConvertRole(ms[i].role)), "content" := VList([VHash(ContentBlock(ms[i]))])])
  }

  /** One tool of `format_tools`: name (its own, else its function's), description, input_schema. */
  function FormatTool(tool: Value): (r: Result<map<string, Value>, Error>)
    ensures tool.VHash? && Truthy(Get(tool.entries, "name")) ==>
      r == Success(map["name" := tool.entries["name"], "description" := Get(tool.entries, "description"),
                       "input_schema" := Get(tool.entries, "parameters")])
    ensures tool.VHash? && !Truthy(Get(tool.entries, "name")) && Get(tool.entries, "function").VHash? ==>
      r == Success(map["name" := Get(Get(tool.entries, "function").entries, "name"),
                       "description" := Get(tool.entries, "description"),
                       "input_schema" := Get(tool.entries, "parameters")])
    ensures r.Success? ==> r.value.Keys == {"name", "description", "input_schema"}
  {
    var own :- Access.IndexSymbol(tool, "name");
    var name :- if Truthy(own) then Success(own) else
      var f :- Access.IndexSymbol(tool, "function");
      Access.IndexSymbol(f, "name");
    var description :- Access.IndexSymbol(tool, "description");
    var schema :- Access.IndexSymbol(tool, "parameters");
    Success(map["name" := name, "description" := description, "input_schema" := schema])
  }

  /**
   * `format_tools(tools)` for present tools: an Array is mapped tool by
   * tool; anything else either has no `map` or yields elements that are
   * not Hashes.
   */
  function FormatTools(tools: Value): (r: Result<seq<map<string, Value>>, Error>)
    ensures tools.VList? ==> r == MapResult(FormatTool, tools.items)
    ensures tools.VHash? ==> r == Failure(TypeMismatch("[]", tools))
    ensures !tools.VList? && !tools.VHash? ==> r == Failure(NoMethod("map", tools))
  {
    match tools
    case VList(xs) => MapResult(FormatTool, xs)
    case VHash(_) => Failure(TypeMismatch("[]", tools))
    case _ => Failure(NoMethod("map", tools))
  }

  /**
   * `prompt_parameters`: model, messages, temperature and max_tokens 4096
   * always; tools only when the actions are present.
   */
  function PromptParameters(p: ProviderPrompt, config: map<string, Value>): (r: Result<map<string, Value>, Error>)
    ensures Blank(p.actions) ==> r.Success?
    ensures Present(p.actions) ==> (r.Success? <==> FormatTools(p.actions).Success?)
    ensures r.Success? ==> r.value.Keys == {"model", "messages", "temperature", "max_tokens"} + (if Present(p.actions) then {"tools"} else {})
    ensures r.Success? && Truthy(Get(p.options, "model")) ==> r.value["model"] == p.options["model"]
    ensures r.Success? && !Truthy(Get(p.options, "model")) ==> r.value["model"] == ModelName(config)
    ensures r.Success? ==> r.value["temperature"] == Temperature(config) && r.value["max_tokens"] == VInt(4096)
    ensures r.Success? ==> r.value["messages"].VList? && |r.value["messages"].items| == |p.messages|
    ensures r.Success? ==> forall i :: 0 <= i < |p.messages| ==>
      r.value["messages"].items[i] == VHash(ProviderMessages(p.messages)[i])
    ensures r.Success? && Present(p.actions) ==> r.value["tools"].VList? && |r.value["tools"].items| == |FormatTools(p.actions).value|
    ensures r.Success? && Present(p.actions) ==> forall i :: 0 <= i < |FormatTools(p.actions).value| ==>
      r.value["tools"].items[i] == VHash(FormatTools(p.actions).value[i])
    ensures r.Failure? ==> Present(p.actions) && r.error == FormatTools(p.actions).error
  {
    var ms := ProviderMessages(p.messages);
    var params := map["model" := Or(Get(p.options, "model"), ModelName(config)),
                      "messages" := VList(seq(|ms|, i requires 0 <= i < |ms| => VHash(ms[i]))),
                      "temperature" := Temperature(config),
                      "max_tokens" := VInt(4096)];
    if Present(p.actions) then
      var tools :- FormatTools(p.actions);
      Success(params["tools" := VList(seq(|tools|, i requires 0 <= i < |tools| => VHash(tools[i])))])
    else
      Success(params)
  }

  /** `handle_actions(tool_uses)`: nil when absent or empty, otherwise one Action per tool use, in order. */
  function HandleActions(toolUses: Option<seq<ToolUse>>): (r: Option<seq<Actions.Action>>)
    ensures r.None? <==> toolUses.None? || toolUses.value == []
    ensures r.Some? ==> |r.value| == |toolUses.value|
    ensures r.Some? ==> forall i :: 0 <= i < |r.value| ==>
      r.value[i].id == toolUses.value[i].id && r.value[i].name == toolUses.value[i].name &&
      r.value[i].params == toolUses.value[i].input && r.value[i].agentName == VNil
  {
    if toolUses.None? || toolUses.value == [] then None
    else
      var uses := toolUses.value;
      Some(seq(|uses|, i requires 0 <= i < |uses| =>
        Actions.New(map["id" := uses[i].id, "name" := uses[i].name, "params" := uses[i].input])))
  }

  /** `requested_actions:` as passed to Message.new: nil or the list of Actions. */
  function RequestedActions(toolUses: Option<seq<ToolUse>>): Value {
    match HandleActions(toolUses)
    case None => VNil
    case Some(actions) => ActionsValue(actions)
  }

  /** `response.content.first[:text]`; an empty content has no first block. */
  function FirstText(content: seq<Value>): (r: Result<Value, Error>)
    ensures content == [] ==> r == Failure(NoMethod("[]", VNil))
    ensures content != [] ==> r == Access.IndexSymbol(content[0], "text")
  {
    if content == [] then Failure(NoMethod("[]", VNil)) else Access.IndexSymbol(content[0], "text")
  }

  /** `chat_response`'s Message as written: it passes `action_requested:`, which Message does not declare. */
  function ChatMessageAsWritten(reply: MessagesReply): Result<Messages.Message, Error> {
    var content :- FirstText(reply.content);
    Messages.New(map["content" := content, "role" := VStr("assistant"),
                     "action_requested" := VBool(reply.stopReason == VStr("tool_use")),
                     "requested_actions" := RequestedActions(reply.toolUse)])
  }

  /** No reply is ever turned into a Message by the code as written. */
  lemma ChatMessageAsWrittenNeverSucceeds(reply: MessagesReply)
    ensures ChatMessageAsWritten(reply).Failure?
    ensures FirstText(reply.content).Success? ==> ChatMessageAsWritten(reply) == Failure(UnknownAttribute({"action_requested"}))
  {
    if FirstText(reply.content).Success? {
      var attrs := map["content" := FirstText(reply.content).value, "role" := VStr("assistant"),
                       "action_requested" := VBool(reply.stopReason == VStr("tool_use")),
                       "requested_actions" := RequestedActions(reply.toolUse)];
      assert attrs.Keys - Messages.Attributes == {"action_requested"};
    }
  }

  /**
   * `chat_response`'s Message as intended: an assistant Message with the
   * first block's text and the requested actions, `action_requested`
   * holding exactly when the stop reason is "tool_use".
   */
  function ChatReply(reply: MessagesReply): (r: Result<Reply, Error>)
    ensures r.Success? <==> FirstText(reply.content).Success?
    ensures r.Failure? ==> r.error == FirstText(reply.content).error
    ensures r.Success? ==> r.value.Complete? && r.value.message.role == VStr("assistant")
    ensures r.Success? ==> r.value.message.content == CastString(FirstText(reply.content).value)
    ensures r.Success? ==> (r.value.actionRequested <==> reply.stopReason == VStr("tool_use"))
    ensures r.Success? ==> r.value.message.requestedActions == RequestedActions(reply.toolUse)
  {
    var content :- FirstText(reply.content);
    var message := Messages.New(map["content" := content, "role" := VStr("assistant"),
                                    "requested_actions" := RequestedActions(reply.toolUse)]).value;
    Success(Complete(message, reply.stopReason == VStr("tool_use")))
  }

  /** The delta text of a chunk, "" when it has none. */
  function Delta(chunk: Option<string>): string {
    if chunk.Some? then chunk.value else ""
  }

  /** Every delta text of `chunks`, in order. */
  function Deltas(chunks: seq<Option<string>>): string {
    if chunks == [] then "" else Delta(chunks[0]) + Deltas(chunks[1..])
  }

  /** The content the sink observes at each call, starting from `start`. */
  function Snapshots(start: string, chunks: seq<Option<string>>): seq<string>
    decreases |chunks|
  {
    if chunks == [] then []
    else if chunks[0].None? then Snapshots(start, chunks[1..])
    else [start + chunks[0].value] + Snapshots(start + chunks[0].value, chunks[1..])
  }

  lemma {:induction false} DeltasAppend(chunks: seq<Option<string>>, chunk: Option<string>)
    ensures Deltas(chunks + [chunk]) == Deltas(chunks) + Delta(chunk)
  {
    if chunks == [] {
      assert chunks + [chunk] == [chunk];
    } else {
      assert (chunks + [chunk])[1..] == chunks[1..] + [chunk];
      DeltasAppend(chunks[1..], chunk);
    }
  }

  lemma {:induction false} SnapshotsAppend(start: string, chunks: seq<Option<string>>, chunk: Option<string>)
    ensures Snapshots(start, chunks + [chunk]) ==
      Snapshots(start, chunks) + (if chunk.Some? then [start + Deltas(chunks) + chunk.value] else [])
    decreases |chunks|
  {
    if chunks == [] {
      assert chunks + [chunk] == [chunk];
      assert start + Deltas(chunks) == start;
    } else {
      assert (chunks + [chunk])[1..] == chunks[1..] + [chunk];
      var next := start + Delta(chunks[0]);
      SnapshotsAppend(next, chunks[1..], chunk);
      assert next + Deltas(chunks[1..]) == start + Deltas(chunks);
      if chunks[0].None? {
        assert next == start;
      }
    }
  }

  /**
   * Every content the sink is shown extends the start and is a prefix of
   * the final content, and the last one is the final content itself.
   */
  lemma {:induction false} SnapshotsGrow(start: string, chunks: seq<Option<string>>)
    ensures forall i :: 0 <= i < |Snapshots(start, chunks)| ==>
      start <= Snapshots(start, chunks)[i] <= start + Deltas(chunks)
    ensures Snapshots(start, chunks) != [] ==> Snapshots(start, chunks)[|Snapshots(start, chunks)| - 1] == start + Deltas(chunks)
    decreases |chunks|
  {
    if chunks != [] {
      var next := start + Delta(chunks[0]);
      SnapshotsGrow(next, chunks[1..]);
      var rest := Snapshots(next, chunks[1..]);
      assert start + Deltas(chunks) == next + Deltas(chunks[1..]);
      assert start <= next;
      if chunks[0].None? {
        assert next == start;
        assert Snapshots(start, chunks) == rest;
      } else {
        assert Snapshots(start, chunks) == [next] + rest;
        assert next <= next + Deltas(chunks[1..]);
        if rest == [] {
          NothingShownNothingAdded(next, chunks[1..]);
        }
        forall i | 0 <= i < |rest|
          ensures start <= rest[i]
        {
          PrefixTrans(start, next, rest[i]);
        }
      }
    }
  }

  /** What the sink is shown only grows: each content is a prefix of every later one. */
  lemma {:induction false} SnapshotsOrdered(start: string, chunks: seq<Option<string>>)
    ensures forall i, j :: 0 <= i <= j < |Snapshots(start, chunks)| ==>
      Snapshots(start, chunks)[i] <= Snapshots(start, chunks)[j]
    decreases |chunks|
  {
    if chunks != [] {
      var next := start + Delta(chunks[0]);
      SnapshotsOrdered(next, chunks[1..]);
      if chunks[0].Some? {
        var rest := Snapshots(next, chunks[1..]);
        SnapshotsGrow(next, chunks[1..]);
        assert Snapshots(start, chunks) == [next] + rest;
        ConsKeepsOrder(next, rest);
      } else {
        assert next == start;
        assert Snapshots(start, chunks) == Snapshots(next, chunks[1..]);
      }
    }
  }

  /** A prefix of every element of an ordered sequence keeps it ordered when put in front. */
  lemma ConsKeepsOrder(x: string, rest: seq<string>)
    requires forall i :: 0 <= i < |rest| ==> x <= rest[i]
    requires forall i, j :: 0 <= i <= j < |rest| ==> rest[i] <= rest[j]
    ensures forall i, j :: 0 <= i <= j < |[x] + rest| ==> ([x] + rest)[i] <= ([x] + rest)[j]
  {
    var all := [x] + rest;
    forall i, j | 0 <= i <= j < |all|
      ensures all[i] <= all[j]
    {
      if i == 0 {
        if j > 0 {
          assert all[j] == rest[j - 1];
        }
      } else {
        assert all[i] == rest[i - 1] && all[j] == rest[j - 1];
      }
    }
  }

  /** Chunks that show the sink nothing carry no delta text. */
  lemma {:induction false} NothingShownNothingAdded(start: string, chunks: seq<Option<string>>)
    requires Snapshots(start, chunks) == []
    ensures Deltas(chunks) == ""
    decreases |chunks|
  {
    if chunks != [] {
      NothingShownNothingAdded(start, chunks[1..]);
    }
  }

  lemma PrefixTrans(a: string, b: string, c: string)
    requires a <= b && b <= c
    ensures a <= c
  {
    assert forall i :: 0 <= i < |a| ==> a[i] == b[i] == c[i];
  }

  /** The Message a stream leaves behind: the empty assistant Message grown by every delta text. */
  method StreamedMessage(sink: Value, chunks: seq<Option<string>>) returns (m: Messages.Message)
    ensures m == Messages.AssistantMessage(VStr(Deltas(chunks)))
  {
    var stream := new StreamAccumulator(sink);
    stream.Feed(chunks);
    m := stream.Message();
  }

  /**
   * The state the stream proc closes over: the assistant Message being
   * written (its content) and what the agent's stream sink has been shown.
   */
  class StreamAccumulator {
    var content: string
    var shown: seq<string>
    const sinkCallable: bool

    /** A stream starts from an empty assistant Message; the sink is called only when it responds to `call`. */
    constructor (sink: Value)
      ensures content == "" && shown == [] && sinkCallable == sink.VProc?
    {
      content := "";
      shown := [];
      sinkCallable := sink.VProc?;
    }

    /** The Message the prepared response holds (the same object the proc writes to). */
    function Message(): (m: Messages.Message)
      reads this
      ensures m == Messages.AssistantMessage(VStr(content)) && m.content == VStr(content)
    {
      Messages.AssistantMessage(VStr(content))
    }

    /** One chunk: its delta text, if any, is appended and then shown to a callable sink. */
    method Chunk(text: Option<string>)
      modifies this
      ensures text.None? ==> content == old(content) && shown == old(shown)
      ensures text.Some? ==> content == old(content) + text.value
      ensures text.Some? ==> shown == old(shown) + (if sinkCallable then [content] else [])
    {
      if text.Some? {
        content := content + text.value;
        if sinkCallable {
          shown := shown + [content];
        }
      }
    }

    /** A sequence of chunks, in order. */
    method Feed(chunks: seq<Option<string>>)
      modifies this
      ensures content == old(content) + Deltas(chunks)
      ensures shown == old(shown) + (if sinkCallable then Snapshots(old(content), chunks) else [])
    {
      var i := 0;
      while i < |chunks|
        invariant 0 <= i <= |chunks|
        invariant content == old(content) + Deltas(chunks[..i])
        invariant shown == old(shown) + (if sinkCallable then Snapshots(old(content), chunks[..i]) else [])
      {
        DeltasAppend(chunks[..i], chunks[i]);
        SnapshotsAppend(old(content), chunks[..i], chunks[i]);
        assert chunks[..i + 1] == chunks[..i] + [chunks[i]];
        Chunk(chunks[i]);
        i := i + 1;
      }
      assert chunks[..i] == chunks;
    }
  }

  class Provider {
    const config: map<string, Value>
    const apiKey: Value
    const modelName: Value
    var prompt: Option<ProviderPrompt>
    var response: Option<AnthropicResponse>

    /** `AnthropicProvider.new(config)`: the api key, the model name, no prompt yet. */
    constructor (config: map<string, Value>)
      ensures this.config == config && apiKey == Get(config, "api_key") && modelName == ModelName(config)
      ensures prompt == None && response == None
    {
      this.config := config;
      apiKey := Get(config, "api_key");
      modelName := ModelName(config);
      prompt := None;
      response := None;
    }

    /** The parameters `chat_prompt` sends: `prompt_parameters`, plus the stream proc when streaming. */
    function ChatParameters(p: ProviderPrompt): (r: Result<map<string, Value>, Error>)
      ensures r.Success? <==> PromptParameters(p, config).Success?
      ensures r.Success? ==> ("stream" in r.value <==> StreamRequested(p, config))
      ensures r.Success? ==> r.value.Keys == PromptParameters(p, config).value.Keys + (if StreamRequested(p, config) then {"stream"} else {})
      ensures r.Success? && StreamRequested(p, config) ==> r.value["stream"] == StreamProc
      ensures r.Success? ==> forall k :: k in PromptParameters(p, config).value ==>
        k in r.value && r.value[k] == PromptParameters(p, config).value[k]
    {
      var parameters :- PromptParameters(p, config);
      if StreamRequested(p, config) then Success(parameters["stream" := StreamProc]) else Success(parameters)
    }

    /**
     * `generate(prompt)`: records the prompt and sends the parameters with
     * `messages`. When streaming, the chunks build up the prepared
     * assistant Message; with `options[:stream]` that streaming response is
     * the result, otherwise the reply is parsed. Every exception is
     * re-raised as GenerationProviderError with the same cause.
     */
    method Generate(p: ProviderPrompt, messages: map<string, Value> -> Result<Delivery, Error>) returns (r: Result<AnthropicResponse, Error>)
      modifies this
      ensures prompt == Some(p)
      ensures r.Failure? ==> r.error.ProviderError?
      ensures ChatParameters(p).Failure? ==> r == Failure(ProviderError(ChatParameters(p).error)) && response == old(response)
      ensures ChatParameters(p).Success? && messages(ChatParameters(p).value).Failure? ==>
        r == Failure(ProviderError(messages(ChatParameters(p).value).error))
      ensures ChatParameters(p).Success? && messages(ChatParameters(p).value).Success? && AgentStream(p) ==>
        var delivery := messages(ChatParameters(p).value).value;
        r == Success(Responses.Response(p, Partial(Messages.AssistantMessage(VStr(Deltas(delivery.chunks)))), None))
      ensures ChatParameters(p).Success? && messages(ChatParameters(p).value).Success? && !AgentStream(p) ==>
        var delivery := messages(ChatParameters(p).value).value;
        var reply := ChatReply(delivery.reply);
        r == (if reply.Success? then Success(Responses.Response(p, reply.value, Some(delivery.reply)))
              else Failure(ProviderError(reply.error)))
      ensures r.Success? ==> response == Some(r.value)
      ensures ChatParameters(p).Success? && !StreamRequested(p, config) && r.Failure? ==> response == old(response)
      ensures ChatParameters(p).Success? && StreamRequested(p, config) && messages(ChatParameters(p).value).Failure? ==>
        response == Some(Responses.Response(p, Partial(StreamStart), None))
      ensures ChatParameters(p).Success? && StreamRequested(p, config) && messages(ChatParameters(p).value).Success? && r.Failure? ==>
        var delivery := messages(ChatParameters(p).value).value;
        response == Some(Responses.Response(p, Partial(Messages.AssistantMessage(VStr(Deltas(delivery.chunks)))), None))
    {
      prompt := Some(p);
      var parameters := ChatParameters(p);
      if parameters.Failure? {
        return Failure(ProviderError(parameters.error));
      }
      if StreamRequested(p, config) {
        // provider_stream prepares the response whose Message the proc writes to
        response := Some(Responses.Response(p, Partial(StreamStart), None));
      }
      var delivery := messages(parameters.value);
      if delivery.Failure? {
        return Failure(ProviderError(delivery.error));
      }
      if StreamRequested(p, config) {
        var grown := StreamedMessage(Get(p.options, "stream"), delivery.value.chunks);
        response := Some(Responses.Response(p, Partial(grown), None));
      }
      if AgentStream(p) {
        return Success(response.value);
      }
      var reply := ChatReply(delivery.value.reply);
      if reply.Failure? {
        return Failure(ProviderError(reply.error));
      }
      var resp := Responses.Response(p, reply.value, Some(delivery.value.reply));
      response := Some(resp);
      r := Success(resp);
    }
  }
}
