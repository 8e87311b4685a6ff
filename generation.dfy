/**
 * ActiveAgent::Generation and ActiveAgent::Parameterized::Generation: the
 * lazy handle returned by an agent action, which processes the agent at
 * most once and either generates now or enqueues a job.
 */
module Generations {
  import opened Wrappers
  import opened Values
  import opened Errors

  /**
   * One `perform_later` call on the agent class's generation job: the job
   * options, then agent class name, action name as a String, `params:`
   * (only for a parameterized generation) and `args:`.
   */
  datatype Job = Job(options: map<string, Value>, agentClassName: string, action: Value, params: Option<Value>, args: seq<Value>)

  /**
   * The handle. `params` is None for ActiveAgent::Generation and Some for
   * ActiveAgent::Parameterized::Generation, whose two overrides (the
   * params assignment before processing and the `params:` in the job) are
   * the only places it is read. `process` stands for
   * `agent_class.new` (given the params assigned to it, if any) followed
   * by `process(action, *args)`, and `promptOf` for the processed agent's
   * `prompt` (Success(None) for nil); either may raise.
   */
  class Generation<A, P> {
    const agentClassName: string
    const action: Value
    const args: seq<Value>
    const params: Option<Value>
    const process: (Option<Value>, Value, seq<Value>) -> Result<A, Error>
    const promptOf: A -> Result<Option<P>, Error>
    var processedAgent: Option<A>
    var prompt: Option<P>
    /** The jobs this handle has enqueued, in order. */
    var jobs: seq<Job>

    /** `Generation.new(agent_class, action, *args)` (and the parameterized one, which also keeps params). */
    constructor (agentClassName: string, action: Value, args: seq<Value>, params: Option<Value>,
                 process: (Option<Value>, Value, seq<Value>) -> Result<A, Error>, promptOf: A -> Result<Option<P>, Error>)
      ensures this.agentClassName == agentClassName && this.action == action && this.args == args && this.params == params
      ensures this.process == process && this.promptOf == promptOf
      ensures processedAgent == None && prompt == None && jobs == []
      ensures !Processed()
    {
      this.agentClassName := agentClassName;
      this.action := action;
      this.args := args;
      this.params := params;
      this.process := process;
      this.promptOf := promptOf;
      processedAgent := None;
      prompt := None;
      jobs := [];
    }

    /** `processed?`: the agent was processed or a prompt is held. */
    predicate Processed()
      reads this
    {
      processedAgent.Some? || prompt.Some?
    }

    /** What `processed_agent` yields: the memoised agent, or the outcome of processing a fresh one. */
    function AgentToUse(): Result<A, Error>
      reads this
    {
      if processedAgent.Some? then Success(processedAgent.value) else process(params, action, args)
    }

    /** What `__getobj__` yields: the held prompt, or the processed agent's prompt. */
    function PromptToUse(): Result<Option<P>, Error>
      reads this
    {
      if prompt.Some? then Success(prompt) else
        match AgentToUse()
        case Failure(e) => Failure(e)
        case Success(a) => promptOf(a)
    }

    /**
     * `processed_agent`: processes the agent the first time only and
     * memoises it; when processing raises, nothing is memoised and the
     * error propagates.
     */
    method ProcessedAgent() returns (r: Result<A, Error>)
      modifies this
      ensures r == old(AgentToUse())
      ensures old(processedAgent).Some? ==> r == Success(old(processedAgent).value) && processedAgent == old(processedAgent)
      ensures r.Success? ==> processedAgent == Some(r.value)
      ensures r.Failure? ==> processedAgent == None
      ensures prompt == old(prompt) && jobs == old(jobs)
      ensures r.Success? ==> Processed()
    {
      if processedAgent.None? {
        var outcome := process(params, action, args);
        if outcome.Failure? {
          return outcome;
        }
        processedAgent := Some(outcome.value);
      }
      r := Success(processedAgent.value);
    }

    /**
     * `__getobj__` (and `prompt`): `@prompt ||= processed_agent.prompt`, so
     * the held prompt, or else the processed agent's prompt, which is then
     * held. Either step may raise, and then no prompt is held.
     */
    method GetObj() returns (r: Result<Option<P>, Error>)
      modifies this
      ensures r == old(PromptToUse())
      ensures old(prompt).Some? ==> r == Success(old(prompt)) && processedAgent == old(processedAgent) && prompt == old(prompt)
      ensures old(prompt).None? && old(AgentToUse()).Failure? ==> processedAgent == None && prompt == None
      ensures old(prompt).None? && old(AgentToUse()).Success? ==> processedAgent == Some(old(AgentToUse()).value)
      ensures r.Success? ==> prompt == r.value
      ensures r.Failure? ==> prompt == None
      ensures jobs == old(jobs)
      ensures old(Processed()) ==> Processed()
    {
      if prompt.None? {
        var a := ProcessedAgent();
        if a.Failure? {
          return Failure(a.error);
        }
        var q := promptOf(a.value);
        if q.Failure? {
          return Failure(q.error);
        }
        prompt := q.value;
      }
      r := Success(prompt);
    }

    /** `__setobj__(prompt)`: holds the prompt, which makes the handle processed. */
    method SetObj(p: P)
      modifies this
      ensures prompt == Some(p) && processedAgent == old(processedAgent) && jobs == old(jobs)
      ensures Processed()
    {
      prompt := Some(p);
    }

    /**
     * `enqueue_generation`: refuses once the handle is processed (local
     * changes to the prompt would be lost); otherwise enqueues exactly one
     * job. The generation method name is not part of the job.
     */
    method EnqueueGeneration(generationMethod: string, options: map<string, Value>) returns (r: Result<(), Error>)
      modifies this
      ensures old(Processed()) ==> r == Failure(PromptAccessedBeforeEnqueue) && jobs == old(jobs)
      ensures !old(Processed()) ==> r == Success(())
      ensures !old(Processed()) ==> jobs == old(jobs) + [Job(options, agentClassName, ToS(action), params, args)]
      ensures processedAgent == old(processedAgent) && prompt == old(prompt)
    {
      if Processed() {
        return Failure(PromptAccessedBeforeEnqueue);
      }
      jobs := jobs + [Job(options, agentClassName, ToS(action), params, args)];
      r := Success(());
    }

    /** `generate_later(options)`: enqueues a job that runs `generate_now`. */
    method GenerateLater(options: map<string, Value>) returns (r: Result<(), Error>)
      modifies this
      ensures old(Processed()) ==> r == Failure(PromptAccessedBeforeEnqueue) && jobs == old(jobs)
      ensures !old(Processed()) ==> r == Success(())
      ensures !old(Processed()) ==> jobs == old(jobs) + [Job(options, agentClassName, ToS(action), params, args)]
      ensures processedAgent == old(processedAgent) && prompt == old(prompt)
    {
      r := EnqueueGeneration("generate_now", options);
    }

    /** `generate_later!(options)`: enqueues a job that runs `generate_now!`. */
    method GenerateLaterBang(options: map<string, Value>) returns (r: Result<(), Error>)
      modifies this
      ensures old(Processed()) ==> r == Failure(PromptAccessedBeforeEnqueue) && jobs == old(jobs)
      ensures !old(Processed()) ==> r == Success(())
      ensures !old(Processed()) ==> jobs == old(jobs) + [Job(options, agentClassName, ToS(action), params, args)]
      ensures processedAgent == old(processedAgent) && prompt == old(prompt)
    {
      r := EnqueueGeneration("generate_now!", options);
    }

    /**
     * `generate_now`: processes the agent (at most once), then asks its
     * provider to generate the prompt, which is read (and held) after the
     * agent was processed. `generate` stands for `provider.generate`. A
     * raising `processed_agent` or `prompt` propagates.
     */
    method GenerateNow<G>(generate: (A, Option<P>) -> G) returns (r: Result<G, Error>)
      modifies this
      ensures old(AgentToUse()).Failure? ==> r == Failure(old(AgentToUse()).error) && processedAgent == None && prompt == old(prompt)
      ensures old(AgentToUse()).Success? ==> processedAgent == Some(old(AgentToUse()).value)
      ensures old(AgentToUse()).Success? && old(PromptToUse()).Failure? ==> r == Failure(old(PromptToUse()).error) && prompt == None
      ensures old(AgentToUse()).Success? && old(PromptToUse()).Success? ==>
        r == Success(generate(old(AgentToUse()).value, old(PromptToUse()).value)) && prompt == old(PromptToUse()).value
      ensures jobs == old(jobs)
      ensures r.Success? ==> Processed()
    {
      var a := ProcessedAgent();
      if a.Failure? {
        return Failure(a.error);
      }
      var p := GetObj();
      if p.Failure? {
        return Failure(p.error);
      }
      r := Success(generate(a.value, p.value));
    }

    /** `generate_now!`: processes the agent (at most once) and calls `provider.generate!`; a raising `processed_agent` propagates. */
    method GenerateNowBang<G>(generateBang: A -> G) returns (r: Result<G, Error>)
      modifies this
      ensures old(AgentToUse()).Failure? ==> r == Failure(old(AgentToUse()).error) && processedAgent == None
      ensures old(AgentToUse()).Success? ==>
        r == Success(generateBang(old(AgentToUse()).value)) && processedAgent == Some(old(AgentToUse()).value)
      ensures prompt == old(prompt) && jobs == old(jobs)
      ensures r.Success? ==> Processed()
    {
      var a := ProcessedAgent();
      if a.Failure? {
        return Failure(a.error);
      }
      r := Success(generateBang(a.value));
    }
  }
}
