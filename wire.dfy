/**
 * What the providers read from a prompt and what they build from a remote
 * reply. The providers use the prompt duck-typed: they read the fields
 * below, several of which (`options`, `action_id`, `content_type`,
 * `charset`) the Prompt and Message classes do not declare, so these
 * records hold exactly what the provider code reads.
 */
module Wire {
  import opened Values
  import Messages
  import Actions

  /** A message as the providers read it. */
  datatype WireMessage = WireMessage(role: Value, content: Value, actionId: Value, contentType: Value, charset: Value)

  /** A prompt as the OpenAI and Anthropic providers read it: `options` (Symbol keys), `messages`, `actions`. */
  datatype ProviderPrompt = ProviderPrompt(options: map<string, Value>, messages: seq<WireMessage>, actions: Value)

  /**
   * The message a provider response carries: the empty assistant Message
   * a stream starts from, or the Message parsed from a complete reply
   * together with its `action_requested` flag.
   */
  datatype Reply =
    | Partial(message: Messages.Message)
    | Complete(message: Messages.Message, actionRequested: bool)

  /** `options[:stream] || config["stream"]`: whether a stream proc is attached. */
  predicate StreamRequested(p: ProviderPrompt, config: map<string, Value>) {
    Truthy(Get(p.options, "stream")) || Truthy(Get(config, "stream"))
  }

  /** `options[:stream]`: whether the pre-built streaming response is returned. */
  predicate AgentStream(p: ProviderPrompt) {
    Truthy(Get(p.options, "stream"))
  }

  /** `@config["temperature"] || 0.7`. */
  function Temperature(config: map<string, Value>): (t: Value)
    ensures Truthy(Get(config, "temperature")) ==> t == config["temperature"]
    ensures !Truthy(Get(config, "temperature")) ==> t == VFloat("0.7")
  {
    Or(Get(config, "temperature"), VFloat("0.7"))
  }

  /** The Message a stream starts from: `Message.new(content: "", role: :assistant)`. */
  const StreamStart: Messages.Message := Messages.AssistantMessage(VStr(""))

  /** Actions stored in a Message's requested_actions. */
  function ActionsValue(actions: seq<Actions.Action>): (v: Value)
    ensures v.VList? && |v.items| == |actions|
    ensures forall i :: 0 <= i < |actions| ==> v.items[i] == Actions.ToValue(actions[i])
  {
    VList(seq(|actions|, i requires 0 <= i < |actions| => Actions.ToValue(actions[i])))
  }
}
