/** ActiveAgent::GenerationProvider::Base: the provider interface and its defaults. */
module ProviderBase {
  import opened Wrappers
  import opened Values
  import opened Errors
  import Wire

  /**
   * The prompt as `prompt_messages` reads it: whether `instructions` and
   * `message` are present and, when they are, their `to_h`; and the `to_h`
   * of each element of `messages`.
   */
  datatype BasePrompt = BasePrompt(
    instructions: Option<map<string, Value>>,
    messages: seq<map<string, Value>>,
    message: Option<map<string, Value>>)

  function Count<T>(o: Option<T>): nat {
    if o.Some? then 1 else 0
  }

  /**
   * `prompt_messages`: the instructions hash first when present, then the
   * messages in order, then the message hash last when present.
   */
  method PromptMessages(p: BasePrompt) returns (messages: seq<map<string, Value>>)
    ensures |messages| == Count(p.instructions) + |p.messages| + Count(p.message)
    ensures p.instructions.Some? ==> messages[0] == p.instructions.value
    ensures forall i :: 0 <= i < |p.messages| ==> messages[Count(p.instructions) + i] == p.messages[i]
    ensures p.message.Some? ==> messages[|messages| - 1] == p.message.value
    ensures p.instructions.None? && p.messages == [] && p.message.None? ==> messages == []
  {
    messages := [];
    if p.instructions.Some? {
      messages := messages + [p.instructions.value];
    }
    if p.messages != [] {
      messages := messages + p.messages;
    }
    if p.message.Some? {
      messages := messages + [p.message.value];
    }
  }

  class Provider {
    const config: map<string, Value>
    var prompt: Option<BasePrompt>

    /** `Base.new(config)`: keeps the config; there is no prompt yet. */
    constructor (config: map<string, Value>)
      ensures this.config == config && prompt == None
    {
      this.config := config;
      prompt := None;
    }

    /** `generate(prompt)`: records the prompt, then raises NotImplementedError. */
    method Generate(p: BasePrompt) returns (r: Result<(), Error>)
      modifies this
      ensures prompt == Some(p)
      ensures r == Failure(NotImplemented)
    {
      prompt := Some(p);
      r := Failure(NotImplemented);
    }

    /**
     * `prompt_parameters`: exactly messages (`prompt_messages`) and
     * temperature (the configured one, else 0.7). Before any `generate`
     * there is no prompt and reading its instructions raises NoMethodError.
     */
    method PromptParameters() returns (r: Result<map<string, Value>, Error>)
      ensures prompt.None? ==> r == Failure(NoMethod("instructions", VNil))
      ensures prompt.Some? ==> r.Success? && r.value.Keys == {"messages", "temperature"}
      ensures prompt.Some? ==> r.value["temperature"] == Wire.Temperature(config)
      ensures prompt.Some? ==> r.value["messages"].VList? &&
                               |r.value["messages"].items| == Count(prompt.value.instructions) + |prompt.value.messages| + Count(prompt.value.message)
      ensures prompt.Some? && prompt.value.instructions.Some? ==>
                r.value["messages"].items[0] == VHash(prompt.value.instructions.value)
      ensures prompt.Some? ==> forall i :: 0 <= i < |prompt.value.messages| ==>
                r.value["messages"].items[Count(prompt.value.instructions) + i] == VHash(prompt.value.messages[i])
      ensures prompt.Some? && prompt.value.message.Some? ==>
                r.value["messages"].items[|r.value["messages"].items| - 1] == VHash(prompt.value.message.value)
    {
      if prompt.None? {
        return Failure(NoMethod("instructions", VNil));
      }
      var ms := PromptMessages(prompt.value);
      var entries := seq(|ms|, i requires 0 <= i < |ms| => VHash(ms[i]));
      r := Success(map["messages" := VList(entries), "temperature" := Wire.Temperature(config)]);
    }
  }
}
