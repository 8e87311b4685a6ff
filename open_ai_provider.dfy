/** ActiveAgent::GenerationProvider::OpenAIProvider: chat completions over the OpenAI API. */
module OpenAIProvider {
  import opened Wrappers
  import opened Values
  import opened Errors
  import opened Wire
  import Messages
  import Actions
  import Responses

  /** `tool_call["function"]`: the called function's name and its JSON-encoded arguments. */
  datatype FunctionCall = FunctionCall(name: Value, arguments: Value)

  /** One element of `tool_calls`; `call` is None when `tool_call["function"]` is nil. */
  datatype ToolCall = ToolCall(id: Value, call: Option<FunctionCall>)

  /** `choices[0]["message"]` of a chat completion. */
  datatype ChoiceMessage = ChoiceMessage(content: Value, role: Value, finishReason: Value, toolCalls: Option<seq<ToolCall>>)

  /** A chat completion as the provider reads it: `dig("choices", 0, "message")`, None when that is nil. */
  datatype ChatCompletion = ChatCompletion(message: Option<ChoiceMessage>)

  /** The proc installed as `parameters[:stream]` (it takes the chunk and its size). */
  const StreamProc: Value := VProc(0, 2)

  type OpenAIResponse = Responses.Response<ProviderPrompt, Reply, ChatCompletion>

  /** The model name: `config["model"] || "gpt-4o-mini"`. */
  function ModelName(config: map<string, Value>): (m: Value)
    ensures Truthy(Get(config, "model")) ==> m == config["model"]
    ensures !Truthy(Get(config, "model")) ==> m == VStr("gpt-4o-mini")
  {
    Or(Get(config, "model"), VStr("gpt-4o-mini"))
  }

  /**
   * One entry of `provider_messages`: role, content, type and charset when
   * not nil, tool_call_id when the action id is present, and for an image
   * `image_url: {url: content}`.
   */
  function ProviderMessage(m: WireMessage): (h: map<string, Value>)
    ensures "role" in h <==> m.role != VNil
    ensures "content" in h <==> m.content != VNil
    ensures "tool_call_id" in h <==> Present(m.actionId)
    ensures "type" in h <==> m.contentType != VNil
    ensures "charset" in h <==> m.charset != VNil
    ensures "image_url" in h <==> m.contentType == VStr("image_url")
    ensures h.Keys <= {"role", "tool_call_id", "content", "type", "charset", "image_url"}
    ensures "role" in h ==> h["role"] == m.role
    ensures "content" in h ==> h["content"] == m.content
    ensures "tool_call_id" in h ==> h["tool_call_id"] == m.actionId
    ensures "type" in h ==> h["type"] == m.contentType
    ensures "charset" in h ==> h["charset"] == m.charset
    ensures "image_url" in h ==> h["image_url"] == VHash(map["url" := m.content])
  {
    var base := Compact(map["role" := m.role, "tool_call_id" := Presence(m.actionId), "content" := m.content,
                            "type" := m.contentType, "charset" := m.charset]);
    if m.contentType == VStr("image_url") then base["image_url" := VHash(map["url" := m.content])] else base
  }

  /** `provider_messages`: one entry per message, in order. */
  function ProviderMessages(ms: seq<WireMessage>): (r: seq<map<string, Value>>)
    ensures |r| == |ms|
    ensures forall i :: 0 <= i < |ms| ==> r[i] == ProviderMessage(ms[i])
  {
    seq(|ms|, i requires 0 <= i < |ms| => ProviderMessage(ms[i]))
  }

  /**
   * `prompt_parameters`: exactly model (`options[:model]`, else the model
   * name), messages, temperature and tools (the actions when present,
   * otherwise nil).
   */
  function PromptParameters(p: ProviderPrompt, config: map<string, Value>): (r: map<string, Value>)
    ensures r.Keys == {"model", "messages", "temperature", "tools"}
    ensures Truthy(Get(p.options, "model")) ==> r["model"] == p.options["model"]
    ensures !Truthy(Get(p.options, "model")) ==> r["model"] == ModelName(config)
    ensures r["temperature"] == Temperature(config)
    ensures Present(p.actions) ==> r["tools"] == p.actions
    ensures Blank(p.actions) ==> r["tools"] == VNil
    ensures r["messages"].VList? && |r["messages"].items| == |p.messages|
    ensures forall i :: 0 <= i < |p.messages| ==> r["messages"].items[i] == VHash(ProviderMessage(p.messages[i]))
  {
    var ms := ProviderMessages(p.messages);
    map["model" := Or(Get(p.options, "model"), ModelName(config)),
        "messages" := VList(seq(|ms|, i requires 0 <= i < |ms| => VHash(ms[i]))),
        "temperature" := Temperature(config),
        "tools" := Presence(p.actions)]
  }

  /** The parameters `chat_prompt` sends: `prompt_parameters`, plus the stream proc when streaming. */
  function ChatParameters(p: ProviderPrompt, config: map<string, Value>): map<string, Value> {
    var parameters := PromptParameters(p, config);
    if StreamRequested(p, config) then parameters["stream" := StreamProc] else parameters
  }

  /** The stream parameter is attached iff `options[:stream]` or `config["stream"]` is set; nothing else changes. */
  lemma ChatParametersStream(p: ProviderPrompt, config: map<string, Value>)
    ensures "stream" in ChatParameters(p, config) <==> StreamRequested(p, config)
    ensures StreamRequested(p, config) ==> ChatParameters(p, config)["stream"] == StreamProc
    ensures forall k :: k in PromptParameters(p, config) ==>
      k in ChatParameters(p, config) && ChatParameters(p, config)[k] == PromptParameters(p, config)[k]
    ensures ChatParameters(p, config).Keys == PromptParameters(p, config).Keys + (if StreamRequested(p, config) then {"stream"} else {})
  {
  }

  /** A tool call `handle_actions` drops: no function, or a blank function name. */
  predicate Skipped(c: ToolCall) {
    c.call.None? || Blank(c.call.value.name)
  }

  /** The tool calls that survive, in their order. */
  function Survivors(calls: seq<ToolCall>): (r: seq<ToolCall>)
    ensures forall c :: c in r <==> c in calls && !Skipped(c)
    ensures forall i :: 0 <= i < |r| ==> !Skipped(r[i])
    ensures |r| <= |calls|
  {
    if calls == [] then []
    else if Skipped(calls[0]) then Survivors(calls[1..])
    else [calls[0]] + Survivors(calls[1..])
  }

  /** `map ... compact` keeps order: the survivors of a concatenation are the survivors of each part, in turn. */
  lemma {:induction false} SurvivorsAppend(a: seq<ToolCall>, b: seq<ToolCall>)
    ensures Survivors(a + b) == Survivors(a) + Survivors(b)
  {
    if a == [] {
      assert a + b == b;
    } else {
      assert (a + b)[0] == a[0];
      assert (a + b)[1..] == a[1..] + b;
      SurvivorsAppend(a[1..], b);
    }
  }

  /** A single call survives, as itself, exactly when it is not skipped. */
  lemma SurvivorsSingle(c: ToolCall)
    ensures Survivors([c]) == if Skipped(c) then [] else [c]
  {
  }

  /** The params of an Action: nil for blank arguments, otherwise the decoded JSON. */
  function Arguments(f: FunctionCall, parse: string -> Result<Value, Error>): (r: Result<Value, Error>)
    ensures Blank(f.arguments) ==> r == Success(VNil)
    ensures !Blank(f.arguments) && f.arguments.VStr? ==> r == parse(f.arguments.s)
  {
    if Blank(f.arguments) then Success(VNil)
    else if f.arguments.VStr? then parse(f.arguments.s)
    else Failure(TypeMismatch("JSON.parse", f.arguments))
  }

  /** The Action for a surviving tool call: its id, its function's name, the decoded arguments. */
  function ActionFor(id: Value, f: FunctionCall, parse: string -> Result<Value, Error>): (r: Result<Actions.Action, Error>)
    ensures r.Success? <==> Arguments(f, parse).Success?
    ensures r.Success? ==> r.value.id == id && r.value.name == f.name && r.value.params == Arguments(f, parse).value
  {
    var args :- Arguments(f, parse);
    Success(Actions.New(map["id" := id, "name" := f.name, "params" := args]))
  }

  /** The `map ... end.compact` of `handle_actions` over a non-empty list: skipped calls leave no entry. */
  function HandleCalls(calls: seq<ToolCall>, parse: string -> Result<Value, Error>): (r: Result<seq<Actions.Action>, Error>)
    ensures r.Success? <==> forall i :: 0 <= i < |Survivors(calls)| ==>
      ActionFor(Survivors(calls)[i].id, Survivors(calls)[i].call.value, parse).Success?
    ensures r.Success? ==> |r.value| == |Survivors(calls)|
    ensures r.Success? ==> forall i :: 0 <= i < |r.value| ==>
      r.value[i] == ActionFor(Survivors(calls)[i].id, Survivors(calls)[i].call.value, parse).value
    ensures r.Success? ==> forall i :: 0 <= i < |r.value| ==> Present(r.value[i].name)
    decreases |calls|
  {
    if calls == [] then Success([])
    else if Skipped(calls[0]) then
      assert Survivors(calls) == Survivors(calls[1..]);
      HandleCalls(calls[1..], parse)
    else
      var c := calls[0];
      assert Survivors(calls) == [c] + Survivors(calls[1..]);
      assert Survivors(calls)[0] == c;
      assert forall i :: 1 <= i < |Survivors(calls)| ==> Survivors(calls)[i] == Survivors(calls[1..])[i - 1];
      match ActionFor(c.id, c.call.value, parse)
      case Failure(e) => Failure(e)
      case Success(a) =>
        match HandleCalls(calls[1..], parse)
        case Failure(e) => Failure(e)
        case Success(rest) => Success([a] + rest)
  }

  /** `handle_actions(tool_calls)`: [] for nil or an empty list, otherwise the surviving calls' Actions. */
  function HandleActions(toolCalls: Option<seq<ToolCall>>, parse: string -> Result<Value, Error>): (r: Result<seq<Actions.Action>, Error>)
    ensures toolCalls.None? || toolCalls.value == [] ==> r == Success([])
    ensures toolCalls.Some? ==> r == HandleCalls(toolCalls.value, parse)
  {
    if toolCalls.None? || toolCalls.value == [] then Success([]) else HandleCalls(toolCalls.value, parse)
  }

  /** `role.intern`: a String becomes the Symbol; nothing else has `intern`. */
  function Intern(v: Value): (r: Result<Value, Error>)
    ensures v.VStr? ==> r == Success(VSym(v.s))
    ensures !v.VStr? ==> r == Failure(NoMethod("intern", v))
  {
    if v.VStr? then Success(VSym(v.s)) else Failure(NoMethod("intern", v))
  }

  /** `message_json`, which `message_json["content"]` requires to be a Hash. */
  function Json(json: Option<ChoiceMessage>): Result<ChoiceMessage, Error> {
    if json.None? then Failure(NoMethod("[]", VNil)) else Success(json.value)
  }

  /**
   * `handle_message` as written: it passes `action_requested:` to
   * `Message.new`, an attribute Message does not declare, so ActiveModel
   * raises UnknownAttributeError once the other arguments are computed.
   */
  function HandleMessageAsWritten(json: Option<ChoiceMessage>, parse: string -> Result<Value, Error>): Result<Messages.Message, Error> {
    var m :- Json(json);
    var role :- Intern(m.role);
    var actions :- HandleActions(m.toolCalls, parse);
    Messages.New(map["content" := m.content, "role" := role,
                     "action_requested" := VBool(m.finishReason == VStr("tool_calls")),
                     "requested_actions" := ActionsValue(actions)])
  }

  /** No chat completion is ever turned into a Message by the code as written. */
  lemma HandleMessageAsWrittenNeverSucceeds(json: Option<ChoiceMessage>, parse: string -> Result<Value, Error>)
    ensures HandleMessageAsWritten(json, parse).Failure?
    ensures json.Some? && json.value.role.VStr? && HandleActions(json.value.toolCalls, parse).Success? ==>
      HandleMessageAsWritten(json, parse) == Failure(UnknownAttribute({"action_requested"}))
  {
    if json.Some? && json.value.role.VStr? && HandleActions(json.value.toolCalls, parse).Success? {
      var m := json.value;
      var actions := HandleActions(m.toolCalls, parse).value;
      var attrs := map["content" := m.content, "role" := VSym(m.role.s),
                       "action_requested" := VBool(m.finishReason == VStr("tool_calls")),
                       "requested_actions" := ActionsValue(actions)];
      assert attrs.Keys - Messages.Attributes == {"action_requested"};
    }
  }

  /**
   * `handle_message` as intended: the Message built from content, the
   * interned role and the requested actions, with `action_requested`
   * carried beside it. It fails when there is no message, when the role is
   * not a String, when an argument does not decode, or when the role is not
   * a valid Message role.
   */
  function HandleMessage(json: Option<ChoiceMessage>, parse: string -> Result<Value, Error>): (r: Result<Reply, Error>)
    ensures r.Success? <==> json.Some? && json.value.role.VStr? && HandleActions(json.value.toolCalls, parse).Success? &&
                            json.value.role.s in Messages.ValidRoles
    ensures (json.Some? && json.value.role.VStr? && HandleActions(json.value.toolCalls, parse).Success? &&
             json.value.role.s !in Messages.ValidRoles) ==> r == Failure(InvalidRole(json.value.role))
    ensures r.Success? ==> r.value.Complete?
    ensures r.Success? ==> (r.value.actionRequested <==> json.value.finishReason == VStr("tool_calls"))
    ensures r.Success? ==> r.value.message.role == json.value.role
    ensures r.Success? ==> r.value.message.content == CastString(json.value.content)
    ensures r.Success? ==> r.value.message.requestedActions == ActionsValue(HandleActions(json.value.toolCalls, parse).value)
  {
    var m :- Json(json);
    var role :- Intern(m.role);
    var actions :- HandleActions(m.toolCalls, parse);
    var message :- Messages.New(map["content" := m.content, "role" := role, "requested_actions" := ActionsValue(actions)]);
    Success(Complete(message, m.finishReason == VStr("tool_calls")))
  }

  class Provider {
    const config: map<string, Value>
    const apiKey: Value
    const modelName: Value
    var prompt: Option<ProviderPrompt>
    var response: Option<OpenAIResponse>

    /** `OpenAIProvider.new(config)`: the api key, the model name (default "gpt-4o-mini"), no prompt yet. */
    constructor (config: map<string, Value>)
      ensures this.config == config && apiKey == Get(config, "api_key") && modelName == ModelName(config)
      ensures prompt == None && response == None
    {
      this.config := config;
      apiKey := Get(config, "api_key");
      modelName := ModelName(config);
      prompt := None;
      response := None;
    }

    /**
     * `generate(prompt)`: records the prompt, sends the chat parameters
     * with `chat`, and builds the response. With `options[:stream]` the
     * response is the streaming one prepared before the call (an empty
     * assistant Message); otherwise the reply is parsed. Every exception is
     * re-raised as GenerationProviderError with the same cause.
     */
    method Generate(p: ProviderPrompt, chat: map<string, Value> -> Result<ChatCompletion, Error>,
                    parse: string -> Result<Value, Error>) returns (r: Result<OpenAIResponse, Error>)
      modifies this
      ensures prompt == Some(p)
      ensures r.Failure? ==> r.error.ProviderError?
      ensures chat(ChatParameters(p, config)).Failure? ==> r == Failure(ProviderError(chat(ChatParameters(p, config)).error))
      ensures chat(ChatParameters(p, config)).Success? && AgentStream(p) ==>
        r == Success(Responses.Response(p, Partial(StreamStart), None))
      ensures chat(ChatParameters(p, config)).Success? && !AgentStream(p) ==>
        var completion := chat(ChatParameters(p, config)).value;
        var reply := HandleMessage(completion.message, parse);
        r == (if reply.Success? then Success(Responses.Response(p, reply.value, Some(completion)))
              else Failure(ProviderError(reply.error)))
      ensures r.Success? ==> response == Some(r.value)
      ensures r.Failure? && StreamRequested(p, config) ==> response == Some(Responses.Response(p, Partial(StreamStart), None))
      ensures r.Failure? && !StreamRequested(p, config) ==> response == old(response)
    {
      prompt := Some(p);
      var parameters := PromptParameters(p, config);
      if StreamRequested(p, config) {
        // provider_stream prepares the response the stream writes into
        response := Some(Responses.Response(p, Partial(StreamStart), None));
        parameters := parameters["stream" := StreamProc];
      }
      var raw := chat(parameters);
      if raw.Failure? {
        return Failure(ProviderError(raw.error));
      }
      if AgentStream(p) {
        return Success(response.value);
      }
      var reply := HandleMessage(raw.value.message, parse);
      if reply.Failure? {
        return Failure(ProviderError(reply.error));
      }
      var resp := Responses.Response(p, reply.value, Some(raw.value));
      response := Some(resp);
      r := Success(resp);
    }
  }
}
