/** ActiveAgent::GenerationMethods: the registry of generation methods and the dispatch onto a prompt. */
module GenerationMethods {
  import opened Wrappers
  import opened Values
  import opened Errors

  /** ActiveAgent::ActionPrompt::TestAgent, the class registered for :test. */
  const TestAgent: Value := VObj("ActiveAgent::ActionPrompt::TestAgent", map[])

  /** What `wrap_generation_behavior` hands to `prompt.generation_method`. */
  datatype Handler =
    | ByClass(klass: Value, settings: map<string, Value>)
    | Direct(requested: Value)

  /**
   * `x || {}` for an operand of `settings.merge(options)`: a falsy value is
   * {}; a Hash is itself. Any other value raises: as the receiver it has no
   * `merge`, and as the argument `Hash#merge` cannot convert it.
   */
  function HashOrEmpty(v: Value, receiver: bool): (r: Result<map<string, Value>, Error>)
    ensures !Truthy(v) ==> r == Success(map[])
    ensures v.VHash? ==> r == Success(v.entries)
    ensures Truthy(v) && !v.VHash? && receiver ==> r == Failure(NoMethod("merge", v))
    ensures Truthy(v) && !v.VHash? && !receiver ==> r == Failure(TypeMismatch("merge", v))
  {
    if !Truthy(v) then Success(map[])
    else if v.VHash? then Success(v.entries)
    else if receiver then Failure(NoMethod("merge", v))
    else Failure(TypeMismatch("merge", v))
  }

  /**
   * The dispatch of `wrap_generation_behavior(prompt, method, options)`:
   * a falsy method falls back to the class's; nil raises; a Symbol must be
   * registered and passes its class and its settings merged with the
   * options (the options win); any other method is passed through.
   */
  function Dispatch(requested: Value, classMethod: Value, methods: map<string, Value>, settings: map<string, Value>,
                    options: Value): (r: Result<Handler, Error>)
    ensures Or(requested, classMethod) == VNil ==> r == Failure(NilGenerationMethod)
    ensures Or(requested, classMethod).VSym? && !Truthy(Get(methods, Or(requested, classMethod).name)) ==>
      r == Failure(InvalidGenerationMethod(Or(requested, classMethod)))
    ensures !(Or(requested, classMethod).VNil? || Or(requested, classMethod).VSym?) ==> r == Success(Direct(Or(requested, classMethod)))
    ensures Or(requested, classMethod).VSym? && Truthy(Get(methods, Or(requested, classMethod).name)) ==>
      (r.Success? <==> HashOrEmpty(Get(settings, Or(requested, classMethod).name), true).Success? &&
                       HashOrEmpty(options, false).Success?)
    ensures Or(requested, classMethod).VSym? && Truthy(Get(methods, Or(requested, classMethod).name)) &&
            HashOrEmpty(Get(settings, Or(requested, classMethod).name), true).Failure? ==>
      r == Failure(HashOrEmpty(Get(settings, Or(requested, classMethod).name), true).error)
    ensures Or(requested, classMethod).VSym? && Truthy(Get(methods, Or(requested, classMethod).name)) &&
            HashOrEmpty(Get(settings, Or(requested, classMethod).name), true).Success? && HashOrEmpty(options, false).Failure? ==>
      r == Failure(HashOrEmpty(options, false).error)
    ensures r.Success? && r.value.ByClass? ==> Or(requested, classMethod).VSym?
    ensures r.Success? && r.value.ByClass? ==>
      r.value.klass == methods[Or(requested, classMethod).name] && Truthy(r.value.klass)
    ensures r.Success? && r.value.ByClass? ==>
      HashOrEmpty(Get(settings, Or(requested, classMethod).name), true).Success? && HashOrEmpty(options, false).Success? &&
      r.value.settings == Merge(HashOrEmpty(Get(settings, Or(requested, classMethod).name), true).value,
                                HashOrEmpty(options, false).value)
  {
    var m := Or(requested, classMethod);
    match m
    case VNil => Failure(NilGenerationMethod)
    case VSym(name) =>
      var klass := Get(methods, name);
      if !Truthy(klass) then Failure(InvalidGenerationMethod(m))
      else
        var base :- HashOrEmpty(Get(settings, name), true);
        var extra :- HashOrEmpty(options, false);
        Success(ByClass(klass, Merge(base, extra)))
    case _ => Success(Direct(m))
  }

  /** The module's class attributes on an agent class. */
  class Registry {
    var generationMethods: map<string, Value>
    /** The `<symbol>_settings` class attributes, by symbol. */
    var settings: map<string, Value>
    var generationMethod: Value
    var performGenerations: Value
    var raiseGenerationErrors: Value

    /** What inclusion sets up: :smtp as the method, only :test registered, both flags true. */
    constructor ()
      ensures generationMethods == map["test" := TestAgent] && settings == map["test" := VHash(map[])]
      ensures generationMethod == VSym("smtp")
      ensures performGenerations == VBool(true) && raiseGenerationErrors == VBool(true)
    {
      generationMethods := map[];
      settings := map[];
      generationMethod := VSym("smtp");
      performGenerations := VBool(true);
      raiseGenerationErrors := VBool(true);
      new;
      AddGenerationMethod("test", TestAgent, VHash(map[]));
    }

    /**
     * `add_generation_method(symbol, klass, default_options)`: registers the
     * class for the symbol (overwriting an earlier one) and makes the
     * options its settings; nothing else changes.
     */
    method AddGenerationMethod(symbol: string, klass: Value, defaultOptions: Value)
      modifies this
      ensures generationMethods == old(generationMethods)[symbol := klass]
      ensures settings == old(settings)[symbol := defaultOptions]
      ensures generationMethod == old(generationMethod)
      ensures performGenerations == old(performGenerations) && raiseGenerationErrors == old(raiseGenerationErrors)
    {
      settings := settings[symbol := defaultOptions];
      generationMethods := generationMethods[symbol := klass];
    }
  }

  /** The fields `wrap_generation_behavior` writes onto a prompt. */
  class PromptTarget {
    var generationHandler: Value
    var handler: Option<Handler>
    var performGenerations: Value
    var raiseGenerationErrors: Value

    constructor ()
      ensures generationHandler == VNil && handler == None
      ensures performGenerations == VNil && raiseGenerationErrors == VNil
    {
      generationHandler := VNil;
      handler := None;
      performGenerations := VNil;
      raiseGenerationErrors := VNil;
    }

    /**
     * `wrap_generation_behavior(prompt, method, options)` on the agent class
     * `agentClass`: the handler is written first; the dispatch result and
     * the two flags only when the dispatch does not raise.
     */
    method WrapGenerationBehavior(agentClass: Value, registry: Registry, requested: Value, options: Value) returns (r: Result<(), Error>)
      modifies this
      ensures generationHandler == agentClass
      ensures var d := Dispatch(requested, registry.generationMethod, registry.generationMethods, registry.settings, options);
        if d.Success? then
          r == Success(()) && handler == Some(d.value) &&
          performGenerations == registry.performGenerations && raiseGenerationErrors == registry.raiseGenerationErrors
        else
          r == Failure(d.error) && handler == old(handler) &&
          performGenerations == old(performGenerations) && raiseGenerationErrors == old(raiseGenerationErrors)
    {
      generationHandler := agentClass;
      var d := Dispatch(requested, registry.generationMethod, registry.generationMethods, registry.settings, options);
      if d.Failure? {
        return Failure(d.error);
      }
      handler := Some(d.value);
      performGenerations := registry.performGenerations;
      raiseGenerationErrors := registry.raiseGenerationErrors;
      r := Success(());
    }
  }

  /** With the defaults, a call without a method dispatches :smtp, which is not registered. */
  lemma DefaultMethodIsUnregistered(options: Value)
    ensures Dispatch(VNil, VSym("smtp"), map["test" := TestAgent], map["test" := VHash(map[])], options) ==
      Failure(InvalidGenerationMethod(VSym("smtp")))
  {
  }

  /** :test dispatches to TestAgent with exactly the options given. */
  lemma TestMethodDispatch(options: map<string, Value>)
    ensures Dispatch(VSym("test"), VSym("smtp"), map["test" := TestAgent], map["test" := VHash(map[])], VHash(options)) ==
      Success(ByClass(TestAgent, options))
  {
    assert Merge(map[], options) == options;
  }
}
