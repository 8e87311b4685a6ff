/** ActiveAgent::GenerationProvider: finding a provider's configuration and choosing its class. */
module ProviderLookup {
  import opened Wrappers
  import opened Values
  import opened Errors
  import Access
  import Configuration

  /** The `<service.underscore>_provider` files that exist. */
  const ProviderFiles: set<string> := {"open_ai", "anthropic", "ollama", "open_router"}

  /** The provider classes those files define. */
  const ProviderClasses: set<string> := {"OpenAIProvider", "AnthropicProvider", "OllamaProvider", "OpenRouterProvider"}

  /** Where a provider's configuration was found. */
  datatype Location = TopLevel | UnderEnv(env: string)

  /** The provider class chosen and the configuration it is built with. */
  datatype ProviderChoice = ProviderChoice(className: string, config: map<string, Value>)

  /** `h[nil]`: a Hash has no nil key here; Strings, Symbols, Arrays and Integers refuse it. */
  function IndexNil(v: Value): Result<Value, Error> {
    match v
    case VHash(_) => Success(VNil)
    case VStr(_) => Failure(TypeMismatch("[]", VNil))
    case VToS(_) => Failure(TypeMismatch("[]", VNil))
    case VSym(_) => Failure(TypeMismatch("[]", VNil))
    case VList(_) => Failure(TypeMismatch("[]", VNil))
    case VInt(_) => Failure(TypeMismatch("[]", VNil))
    case _ => Failure(NoMethod("[]", v))
  }

  /**
   * `ActiveAgent.config[name] || ActiveAgent.config[ENV["RAILS_ENV"]][name]`,
   * raising "Configuration not found" when neither is set.
   */
  function Lookup(config: Value, name: string, railsEnv: Option<string>): (r: Result<(Location, Value), Error>)
    ensures r.Success? ==> Truthy(r.value.1)
    ensures config.VHash? && Truthy(Get(config.entries, name)) ==> r == Success((TopLevel, config.entries[name]))
    ensures r.Success? && r.value.0.UnderEnv? ==> railsEnv == Some(r.value.0.env)
    ensures r.Success? && r.value.0.UnderEnv? && config.VHash? ==>
      !Truthy(Get(config.entries, name)) &&
      (Get(config.entries, r.value.0.env).VHash? ==> r.value.1 == Get(Get(config.entries, r.value.0.env).entries, name))
    ensures config.VHash? && !Truthy(Get(config.entries, name)) && railsEnv.Some? && Get(config.entries, railsEnv.value).VHash? ==>
      var nested := Get(Get(config.entries, railsEnv.value).entries, name);
      r == (if Truthy(nested) then Success((UnderEnv(railsEnv.value), nested)) else Failure(ConfigurationNotFound(name)))
    ensures config.VHash? && !Truthy(Get(config.entries, name)) && railsEnv.None? ==> r == Failure(NoMethod("[]", VNil))
  {
    var top :- Access.IndexString(config, name);
    if Truthy(top) then Success((TopLevel, top))
    else
      match railsEnv
      case None =>
        // `config[nil]` is nil for a Hash, and `nil[name]` raises
        var section :- IndexNil(config);
        Access.IndexString(section, name).PropagateFailure()
      case Some(env) =>
        var section :- Access.IndexString(config, env);
        var nested :- Access.IndexString(section, name);
        if Truthy(nested) then Success((UnderEnv(env), nested)) else Failure(ConfigurationNotFound(name))
  }

  /** The configuration with the hash at `loc` replaced by `merged` (what `merge!` leaves in it). */
  function WriteBack(config: Value, loc: Location, name: string, merged: map<string, Value>): Value {
    match config
    case VHash(top) =>
      (match loc
       case TopLevel => VHash(top[name := VHash(merged)])
       case UnderEnv(e) =>
         var section := Get(top, e);
         if section.VHash? then VHash(top[e := VHash(section.entries[name := VHash(merged)])]) else config)
    case _ => config
  }

  /**
   * `configure_provider(config)`: the service must be a String; its
   * underscored name must have a provider file (otherwise "Missing
   * generation provider") and its camelized name plus "Provider" must
   * name a provider class (otherwise NameError).
   */
  function ConfigureProvider(config: map<string, Value>, underscore: string -> string, camelize: string -> string): (r: Result<ProviderChoice, Error>)
    ensures !Get(config, "service").VStr? ==> r == Failure(NoMethod("underscore", Get(config, "service")))
    ensures r.Success? <==> Get(config, "service").VStr? && underscore(Get(config, "service").s) in ProviderFiles &&
                            camelize(Get(config, "service").s) + "Provider" in ProviderClasses
    ensures Get(config, "service").VStr? && underscore(Get(config, "service").s) !in ProviderFiles ==>
      r == Failure(MissingProvider(Get(config, "service")))
    ensures Get(config, "service").VStr? && underscore(Get(config, "service").s) in ProviderFiles &&
            camelize(Get(config, "service").s) + "Provider" !in ProviderClasses ==>
      r == Failure(NameNotFound(camelize(Get(config, "service").s) + "Provider"))
    ensures r.Success? ==> r.value == ProviderChoice(camelize(Get(config, "service").s) + "Provider", config)
  {
    var service := Get(config, "service");
    if !service.VStr? then Failure(NoMethod("underscore", service))
    else if underscore(service.s) !in ProviderFiles then Failure(MissingProvider(service))
    else
      var className := camelize(service.s) + "Provider";
      if className !in ProviderClasses then Failure(NameNotFound(className)) else Success(ProviderChoice(className, config))
  }

  /**
   * A service "OpenAI" (which ActiveSupport's default inflections underscore
   * to "open_ai" and camelize to itself) selects OpenAIProvider with the
   * whole configuration.
   */
  lemma OpenAIServiceSelected(config: map<string, Value>, underscore: string -> string, camelize: string -> string)
    requires Get(config, "service") == VStr("OpenAI")
    requires underscore("OpenAI") == "open_ai" && camelize("OpenAI") == "OpenAI"
    ensures ConfigureProvider(config, underscore, camelize) == Success(ProviderChoice("OpenAIProvider", config))
  {
    assert camelize("OpenAI") + "Provider" == "OpenAIProvider";
  }

  /**
   * A service "open_ai" has a provider file, but without an "AI" acronym the
   * default inflections camelize it to "OpenAi", and `const_get` of
   * "OpenAiProvider" raises NameError (which is not rescued).
   */
  lemma SnakeCaseOpenAIServiceNotFound(config: map<string, Value>, underscore: string -> string, camelize: string -> string)
    requires Get(config, "service") == VStr("open_ai")
    requires underscore("open_ai") == "open_ai" && camelize("open_ai") == "OpenAi"
    ensures ConfigureProvider(config, underscore, camelize) == Failure(NameNotFound("OpenAiProvider"))
  {
    assert camelize("open_ai") + "Provider" == "OpenAiProvider";
  }

  /**
   * `GenerationProvider.for(name, **options)`: finds the configuration,
   * merges the options into that very hash (options win; the shared
   * configuration is changed even when choosing the class then fails) and
   * chooses the provider class. Option keys are Symbols, written `:key`,
   * so they never replace a String key of the configuration.
   */
  method For(settings: Configuration.Settings, name: string, options: map<string, Value>, railsEnv: Option<string>,
             underscore: string -> string, camelize: string -> string) returns (r: Result<ProviderChoice, Error>)
    modifies settings
    ensures var found := Lookup(old(settings.config), name, railsEnv);
      if found.Failure? then r == Failure(found.error) && settings.config == old(settings.config)
      else if !found.value.1.VHash? then r == Failure(NoMethod("merge!", found.value.1)) && settings.config == old(settings.config)
      else
        var merged := Merge(found.value.1.entries, options);
        settings.config == WriteBack(old(settings.config), found.value.0, name, merged) &&
        r == ConfigureProvider(merged, underscore, camelize)
  {
    var found := Lookup(settings.config, name, railsEnv);
    if found.Failure? {
      return Failure(found.error);
    }
    var (loc, hash) := found.value;
    if !hash.VHash? {
      return Failure(NoMethod("merge!", hash));
    }
    var merged := Merge(hash.entries, options);
    settings.config := WriteBack(settings.config, loc, name, merged);
    r := ConfigureProvider(merged, underscore, camelize);
  }

  /**
   * After the merge, looking the provider up again finds the merged hash
   * at the same place: the configuration registry itself was changed.
   */
  lemma WriteBackIsSeenByLookup(config: Value, name: string, railsEnv: Option<string>, options: map<string, Value>)
    requires Lookup(config, name, railsEnv).Success? && Lookup(config, name, railsEnv).value.1.VHash?
    ensures var (loc, hash) := Lookup(config, name, railsEnv).value;
      var merged := Merge(hash.entries, options);
      Lookup(WriteBack(config, loc, name, merged), name, railsEnv) == Success((loc, VHash(merged)))
  {
    var (loc, hash) := Lookup(config, name, railsEnv).value;
    var merged := Merge(hash.entries, options);
    if loc.UnderEnv? {
      assert loc.env != name;
    }
  }

  /** Symbol-keyed options never change a String-keyed configuration entry. */
  lemma OptionsKeepStringKeys(hash: map<string, Value>, options: map<string, Value>, k: string)
    requires forall o :: o in options ==> |o| > 0 && o[0] == ':'
    requires k in hash && (|k| == 0 || k[0] != ':')
    ensures Merge(hash, options)[k] == hash[k]
  {
  }
}
