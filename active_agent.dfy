/** The ActiveAgent module's configuration: `load_configuration` and the `config` accessor. */
module Configuration {
  import opened Wrappers
  import opened Values
  import opened Errors
  import Access

  /** `ENV["RAILS_ENV"] || ENV["ENV"] || "development"` (an environment variable that is set is a String, so truthy). */
  function EnvName(railsEnv: Option<string>, envEnv: Option<string>): (e: string)
    ensures railsEnv.Some? ==> e == railsEnv.value
    ensures railsEnv.None? && envEnv.Some? ==> e == envEnv.value
    ensures railsEnv.None? && envEnv.None? ==> e == "development"
  {
    if railsEnv.Some? then railsEnv.value else if envEnv.Some? then envEnv.value else "development"
  }

  /** `config_file[env] || config_file`: the environment's section when it is set, else the whole document. */
  function SelectConfig(document: Value, env: string): (r: Result<Value, Error>)
    ensures document.VHash? && Truthy(Get(document.entries, env)) ==> r == Success(document.entries[env])
    ensures document.VHash? && !Truthy(Get(document.entries, env)) ==> r == Success(document)
    ensures r.Success? <==> Access.IndexString(document, env).Success?
  {
    var section :- Access.IndexString(document, env);
    Success(Or(section, document))
  }

  /** The module-level `@config`. */
  class Settings {
    var config: Value

    constructor ()
      ensures config == VNil
    {
      config := VNil;
    }

    /** `config=`: the reader then returns exactly this value. */
    method SetConfig(v: Value)
      modifies this
      ensures config == v
    {
      config := v;
    }

    /**
     * `load_configuration(file)` on the parsed document: the selected
     * section replaces the previous config entirely (nothing is merged).
     */
    method LoadConfiguration(document: Value, railsEnv: Option<string>, envEnv: Option<string>) returns (r: Result<(), Error>)
      modifies this
      ensures var s := SelectConfig(document, EnvName(railsEnv, envEnv));
        if s.Success? then r == Success(()) && config == s.value
        else r == Failure(s.error) && config == old(config)
    {
      var s := SelectConfig(document, EnvName(railsEnv, envEnv));
      if s.Failure? {
        return Failure(s.error);
      }
      config := s.value;
      r := Success(());
    }
  }
}
