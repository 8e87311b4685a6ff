/**
 * ActiveAgent::Base: class-level generation options and default headers,
 * the header and response plumbing of `prompt`, and the per-action agent
 * instance with its context Prompt.
 */
module AgentBase {
  import opened Wrappers
  import opened Values
  import opened Errors
  import Prompts
  import Messages

  /** `default_params` as the class declares it. */
  const DefaultParams: map<string, Value> := map[
    "mime_version" := VStr("1.0"),
    "charset" := VStr("UTF-8"),
    "content_type" := VStr("text/plain"),
    "parts_order" := VList([VStr("text/plain"), VStr("text/enriched"), VStr("text/html")])]

  /** The Prompt as a receiver in error messages. */
  const PromptObject: Value := VObj("ActiveAgent::ActionPrompt::Prompt", map[])

  /** The class attributes of an agent class (Symbol-keyed hashes). */
  class AgentClass {
    /** `options`: nil until `generate_with` or `stream_with`. */
    var options: Option<map<string, Value>>
    var defaultParams: map<string, Value>
    var generationProvider: Value

    constructor ()
      ensures options == None && defaultParams == DefaultParams && generationProvider == VNil
    {
      options := None;
      defaultParams := DefaultParams;
      generationProvider := VNil;
    }

    /**
     * `generate_with(provider, **options)`: sets the provider and makes the
     * class options exactly the given keyword options. Inside the method
     * `options` names the keyword argument, so `(options || {}).merge(options)`
     * is that argument and earlier class options are dropped.
     */
    method GenerateWith(provider: Value, opts: map<string, Value>)
      modifies this
      ensures generationProvider == provider && options == Some(opts)
      ensures defaultParams == old(defaultParams)
    {
      generationProvider := provider;
      var merged := Merge(opts, opts);
      assert merged == opts;
      options := Some(merged);
    }

    /** `stream_with(&stream)`: merges `stream:` into the class options, keeping their other keys. */
    method StreamWith(stream: Value)
      modifies this
      ensures options.Some? && options.value.Keys == old(options).GetOr(map[]).Keys + {"stream"}
      ensures options.value["stream"] == stream
      ensures forall k :: k in old(options).GetOr(map[]) && k != "stream" ==> options.value[k] == old(options).GetOr(map[])[k]
      ensures defaultParams == old(defaultParams) && generationProvider == old(generationProvider)
    {
      options := Some(Merge(options.GetOr(map[]), map["stream" := stream]));
    }

    /** `default(value = nil)`: merges `value`, which wins, into default_params; returns default_params. */
    method Default(value: Option<map<string, Value>>) returns (r: map<string, Value>)
      modifies this
      ensures value.None? ==> defaultParams == old(defaultParams)
      ensures value.Some? ==> defaultParams.Keys == old(defaultParams).Keys + value.value.Keys
      ensures value.Some? ==> forall k :: k in value.value ==> defaultParams[k] == value.value[k]
      ensures value.Some? ==> forall k :: k in old(defaultParams) && k !in value.value ==> defaultParams[k] == old(defaultParams)[k]
      ensures r == defaultParams
      ensures options == old(options) && generationProvider == old(generationProvider)
    {
      if value.Some? {
        defaultParams := Merge(defaultParams, value.value);
      }
      r := defaultParams;
    }

    /**
     * `new`: an agent whose context is a Prompt with the class option
     * `:instructions`. With no class options, `options[:instructions]`
     * is `nil[:instructions]` and raises NoMethodError.
     */
    method NewAgent() returns (r: Result<Agent, Error>)
      ensures options.None? ==> r == Failure(NoMethod("[]", VNil))
      ensures options.Some? ==> r.Success? && fresh(r.value) && fresh(r.value.context)
      ensures options.Some? ==> !r.value.promptWasCalled && r.value.params == None
      ensures options.Some? ==> r.value.context.instructions == CastString(Get(options.value, "instructions"))
      ensures options.Some? ==> r.value.context.messages == [] && r.value.context.message == Prompts.Msg(Messages.Default)
    {
      if options.None? {
        return Failure(NoMethod("[]", VNil));
      }
      var agent := new Agent(Get(options.value, "instructions"));
      r := Success(agent);
    }
  }

  /** `compute_default(value)`: a Proc is evaluated on the agent (`eval`); any other value is itself. */
  function ComputeDefault(value: Value, eval: Value -> Value): (r: Value)
    ensures value.VProc? ==> r == eval(value)
    ensures !value.VProc? ==> r == value
  {
    if value.VProc? then eval(value) else value
  }

  /**
   * `apply_defaults(headers)`: every header and every default key; the
   * headers win and a default is computed only for a key the headers lack.
   */
  function ApplyDefaults(headers: map<string, Value>, defaults: map<string, Value>, eval: Value -> Value): (r: map<string, Value>)
    ensures r.Keys == headers.Keys + defaults.Keys
    ensures forall k :: k in headers ==> r[k] == headers[k]
    ensures forall k :: k in defaults && k !in headers ==> r[k] == ComputeDefault(defaults[k], eval)
  {
    var computed := map k | k in defaults && k !in headers :: ComputeDefault(defaults[k], eval);
    computed + headers
  }

  /**
   * A Proc default whose key the headers supply is never evaluated: two
   * evaluators that agree on the defaults for the missing keys give the
   * same headers.
   */
  lemma ApplyDefaultsEvaluatesOnlyMissing(headers: map<string, Value>, defaults: map<string, Value>, eval1: Value -> Value, eval2: Value -> Value)
    requires forall k :: k in defaults && k !in headers ==> ComputeDefault(defaults[k], eval1) == ComputeDefault(defaults[k], eval2)
    ensures ApplyDefaults(headers, defaults, eval1) == ApplyDefaults(headers, defaults, eval2)
  {
    var r1 := ApplyDefaults(headers, defaults, eval1);
    var r2 := ApplyDefaults(headers, defaults, eval2);
    assert forall k :: k in r1 ==> r1[k] == r2[k];
  }

  /**
   * `set_content_type(m, user_content_type, class_default)`: the caller's
   * content type when present, else the context's, else the class default.
   */
  function SetContentType(userContentType: Value, contextContentType: Value, classDefault: Value): (r: Value)
    ensures Present(userContentType) ==> r == userContentType
    ensures Blank(userContentType) && Truthy(contextContentType) ==> r == contextContentType
    ensures Blank(userContentType) && !Truthy(contextContentType) ==> r == classDefault
  {
    if Present(userContentType) then userContentType else Or(contextContentType, classDefault)
  }

  /** Where `collect_responses` takes the responses from. */
  datatype ResponseSource = FromBlock | FromText | FromTemplates

  /** The block first, then a truthy `headers[:body]`, then the templates. */
  function ResponseSourceOf(headers: map<string, Value>, blockGiven: bool): (s: ResponseSource)
    ensures blockGiven ==> s == FromBlock
    ensures !blockGiven && Truthy(Get(headers, "body")) ==> s == FromText
    ensures !blockGiven && !Truthy(Get(headers, "body")) ==> s == FromTemplates
  {
    if blockGiven then FromBlock else if Truthy(Get(headers, "body")) then FromText else FromTemplates
  }

  /**
   * `collect_responses_from_text(headers)`: one response whose body is the
   * deleted `:body` header and whose content type is the header's or
   * "text/plain". The headers lose `:body`.
   */
  function CollectResponsesFromText(headers: map<string, Value>): (r: (seq<map<string, Value>>, map<string, Value>))
    ensures |r.0| == 1 && r.0[0].Keys == {"body", "content_type"}
    ensures r.0[0]["body"] == Get(headers, "body")
    ensures r.0[0]["content_type"] == Or(Get(headers, "content_type"), VStr("text/plain"))
    ensures r.1 == headers - {"body"}
  {
    var body := Get(headers, "body");
    var rest := headers - {"body"};
    ([map["body" := body, "content_type" := Or(Get(rest, "content_type"), VStr("text/plain"))]], rest)
  }

  /**
   * `collect_responses(headers, &block)`: the block's responses, else the
   * text response, else the template responses (rendering is outside the
   * model: `fromBlock` and `fromTemplates` are what it produces).
   */
  function CollectResponses(headers: map<string, Value>, fromBlock: Option<seq<map<string, Value>>>,
                            fromTemplates: seq<map<string, Value>>): (r: (seq<map<string, Value>>, map<string, Value>))
    ensures fromBlock.Some? ==> r == (fromBlock.value, headers)
    ensures fromBlock.None? && Truthy(Get(headers, "body")) ==> r == CollectResponsesFromText(headers)
    ensures fromBlock.None? && !Truthy(Get(headers, "body")) ==> r == (fromTemplates, headers)
  {
    match ResponseSourceOf(headers, fromBlock.Some?)
    case FromBlock => (fromBlock.value, headers)
    case FromText => CollectResponsesFromText(headers)
    case FromTemplates => (fromTemplates, headers)
  }

  /** `response[:charset] ||= charset`. */
  function WithCharset(response: map<string, Value>, charset: Value): (r: map<string, Value>)
    ensures Truthy(Get(response, "charset")) ==> r == response
    ensures !Truthy(Get(response, "charset")) ==> r == response["charset" := charset]
  {
    if Truthy(Get(response, "charset")) then response else response["charset" := charset]
  }

  /** The container `create_parts_from_responses` adds parts to. */
  class PartContainer {
    var parts: seq<map<string, Value>>

    constructor ()
      ensures parts == []
    {
      parts := [];
    }

    /** `insert_part(container, response, charset)`. */
    method InsertPart(response: map<string, Value>, charset: Value)
      modifies this
      ensures parts == old(parts) + [WithCharset(response, charset)]
    {
      parts := parts + [WithCharset(response, charset)];
    }

    /**
     * `create_parts_from_responses(context, responses)`: the multipart
     * branch is switched off by `&& false`, so every response is inserted
     * once, in order, with the charset filled in only where it had none.
     */
    method CreatePartsFromResponses(responses: seq<map<string, Value>>, charset: Value)
      modifies this
      ensures |parts| == |old(parts)| + |responses|
      ensures parts[..|old(parts)|] == old(parts)
      ensures forall i :: 0 <= i < |responses| ==> parts[|old(parts)| + i] == WithCharset(responses[i], charset)
    {
      var i := 0;
      while i < |responses|
        invariant 0 <= i <= |responses|
        invariant |parts| == |old(parts)| + i
        invariant parts[..|old(parts)|] == old(parts)
        invariant forall j :: 0 <= j < i ==> parts[|old(parts)| + j] == WithCharset(responses[j], charset)
      {
        InsertPart(responses[i], charset);
        i := i + 1;
      }
    }
  }

  /** Whether `p` holds what `Prompt.new` with no attributes holds. */
  predicate FreshPromptState(p: Prompts.Prompt)
    reads p
  {
    p.actions == VList([]) && p.instructions == VStr("") && p.message == Prompts.Msg(Messages.Default) &&
    p.messages == [] && p.params == VHash(map[])
  }

  /** An agent instance processing one action. */
  class Agent {
    var promptWasCalled: bool
    var context: Prompts.Prompt
    /** `@params`: None until assigned or first read. */
    var params: Option<Value>

    /** `initialize`: prompt not yet called; the context carries the class's instructions. */
    constructor (instructions: Value)
      ensures !promptWasCalled && params == None && fresh(context)
      ensures context.instructions == CastString(instructions)
      ensures context.actions == VList([]) && context.message == Prompts.Msg(Messages.Default)
      ensures context.messages == [] && context.params == VHash(map[])
    {
      promptWasCalled := false;
      params := None;
      var attrs := Prompts.Attrs(None, Some(instructions), None, None, None);
      context := new Prompts.Prompt(attrs);
    }

    /** `params`: `@params ||= {}`, so an unset (or falsy) value becomes, and stays, {}. */
    method Params() returns (r: Value)
      modifies this
      ensures old(params).Some? && Truthy(old(params).value) ==> r == old(params).value
      ensures !(old(params).Some? && Truthy(old(params).value)) ==> r == VHash(map[])
      ensures params == Some(r)
      ensures promptWasCalled == old(promptWasCalled) && context == old(context)
    {
      if params.None? || !Truthy(params.value) {
        params := Some(VHash(map[]));
      }
      r := params.value;
    }

    /** `params=`. */
    method SetParams(v: Value)
      modifies this
      ensures params == Some(v)
      ensures promptWasCalled == old(promptWasCalled) && context == old(context)
    {
      params := Some(v);
    }

    /**
     * The end of `process(method_name, *args)`, after the action method
     * ran: when the action never called `prompt`, the context is replaced
     * by a fresh Prompt.
     */
    method Process()
      modifies this
      ensures old(promptWasCalled) ==> context == old(context)
      ensures !old(promptWasCalled) ==> fresh(context) && FreshPromptState(context)
      ensures promptWasCalled == old(promptWasCalled) && params == old(params)
    {
      if !promptWasCalled {
        context := new Prompts.Prompt(Prompts.NoAttrs);
      }
    }

    /**
     * `prompt(headers, &block)`: once `prompt` was called, blank headers and
     * no block return the context as it is. Otherwise the method goes on to
     * `context.charset = ...`, which raises NoMethodError because Prompt
     * declares no `charset`; so it fails before setting the prompt-was-called
     * flag, and the flag can never become true.
     */
    method Prompt(headers: map<string, Value>, blockGiven: bool) returns (r: Result<Prompts.Prompt, Error>)
      ensures promptWasCalled && headers == map[] && !blockGiven ==> r == Success(context)
      ensures !(promptWasCalled && headers == map[] && !blockGiven) ==> r == Failure(NoMethod("charset=", PromptObject))
    {
      if promptWasCalled && Blank(VHash(headers)) && !blockGiven {
        return Success(context);
      }
      r := Failure(NoMethod("charset=", PromptObject));
    }

    /**
     * `perform_generation`: its first step, `context.options`, raises
     * NoMethodError because Prompt declares no `options`, so the provider
     * is never reached.
     */
    method PerformGeneration() returns (r: Result<(), Error>)
      ensures r == Failure(NoMethod("options", PromptObject))
    {
      r := Failure(NoMethod("options", PromptObject));
    }
  }
}
