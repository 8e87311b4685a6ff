/** ActiveAgent::ActionPrompt::Action: a requested tool invocation. */
module Actions {
  import opened Values

  /** The four attribute accessors: agent_name, id, name, params. */
  datatype Action = Action(agentName: Value, id: Value, name: Value, params: Value)

  /** The only keys `initialize` reads. */
  const ReadKeys: set<string> := {"id", "name", "params"}

  /**
   * `Action.new(attributes)`: each of id, name and params is read with
   * `fetch`, so a supplied value (nil included) is kept and only an absent
   * key takes the default; agent_name is never set.
   */
  function New(attrs: map<string, Value>): (a: Action)
    ensures a.agentName == VNil
    ensures "id" in attrs ==> a.id == attrs["id"]
    ensures "id" !in attrs ==> a.id == VNil
    ensures "name" in attrs ==> a.name == attrs["name"]
    ensures "name" !in attrs ==> a.name == VStr("")
    ensures "params" in attrs ==> a.params == attrs["params"]
    ensures "params" !in attrs ==> a.params == VHash(map[])
  {
    Action(VNil, Fetch(attrs, "id", VNil), Fetch(attrs, "name", VStr("")), Fetch(attrs, "params", VHash(map[])))
  }

  /** Two attribute hashes that agree on id, name and params build the same Action. */
  lemma IgnoresOtherKeys(a1: map<string, Value>, a2: map<string, Value>)
    requires forall k :: k in ReadKeys ==> (k in a1 <==> k in a2)
    requires forall k :: k in ReadKeys && k in a1 && k in a2 ==> a1[k] == a2[k]
    ensures New(a1) == New(a2)
  {
    assert "id" in ReadKeys && "name" in ReadKeys && "params" in ReadKeys;
  }

  /** The Action as a Ruby object, where the core stores it among other values. */
  function ToValue(a: Action): (v: Value)
    ensures Truthy(v) && Present(v)
  {
    VObj("ActiveAgent::ActionPrompt::Action",
         map["agent_name" := a.agentName, "id" := a.id, "name" := a.name, "params" := a.params])
  }
}
