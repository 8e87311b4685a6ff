/** ActiveAgent::Parameterized: `Agent.with(params)` and the wrapper it returns. */
module Parameterized {
  import opened Wrappers
  import opened Values
  import opened Errors

  /** An agent class as the wrapper sees it: its name, public instance methods and class-level methods. */
  datatype AgentClass = AgentClass(name: string, publicInstanceMethods: set<string>, classMethods: set<string>)

  /** ActiveAgent::Parameterized::Agent: the agent class and the params to hand to it. */
  datatype Wrapper = Wrapper(agent: AgentClass, params: Value)

  /** What a Parameterized::Generation is built from: agent class, action, params, args. */
  datatype Call = Call(agent: AgentClass, action: Value, params: Value, args: seq<Value>)

  /** `with(params)`: a wrapper holding the agent class and the params unchanged. */
  function With(agent: AgentClass, params: Value): (w: Wrapper)
    ensures w.agent == agent && w.params == params
  {
    Wrapper(agent, params)
  }

  /**
   * `method_missing(name, *args)`: a public instance method of the agent
   * yields a Parameterized::Generation for it; any other name falls through
   * to `super`, which raises NoMethodError.
   */
  function MethodMissing(w: Wrapper, name: string, args: seq<Value>): (r: Result<Call, Error>)
    ensures r.Success? <==> name in w.agent.publicInstanceMethods
    ensures r.Success? ==> r.value == Call(w.agent, VSym(name), w.params, args)
    ensures r.Failure? ==> r.error == NoMethod(name, VObj("ActiveAgent::Parameterized::Agent", map[]))
  {
    if name in w.agent.publicInstanceMethods then Success(Call(w.agent, VSym(name), w.params, args))
    else Failure(NoMethod(name, VObj("ActiveAgent::Parameterized::Agent", map[])))
  }

  /** `respond_to_missing?(name)`: whatever the agent class itself responds to. */
  function RespondToMissing(w: Wrapper, name: string): (r: bool)
    ensures r <==> name in w.agent.classMethods
  {
    name in w.agent.classMethods
  }
}
