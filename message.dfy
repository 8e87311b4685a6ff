/** ActiveAgent::ActionPrompt::Message: one turn of a conversation. */
module Messages {
  import opened Wrappers
  import opened Values
  import opened Errors

  /** The attributes Message declares; ActiveModel refuses any other key. */
  const Attributes: set<string> := {"content", "requested_actions", "params", "role"}

  /** VALID_ROLES, in the order the error message lists them. */
  const ValidRoles: seq<string> := ["system", "assistant", "user"]

  /**
   * `content` and `role` are `:string` attributes (cast on assignment);
   * `requested_actions` and `params` hold whatever they are given.
   */
  datatype Message = Message(content: Value, requestedActions: Value, params: Value, role: Value)

  /** What `validate_role` accepts: a role (after the cast) in VALID_ROLES. */
  predicate ValidRole(role: Value) {
    role.VStr? && role.s in ValidRoles
  }

  /** Every constructed Message: a valid role and a String or nil content. */
  predicate Valid(m: Message) {
    ValidRole(m.role) && (m.content == VNil || IsString(m.content))
  }

  /** The role attribute after defaulting and the String cast. */
  function RoleOf(attrs: map<string, Value>): Value {
    CastString(Fetch(attrs, "role", VStr("system")))
  }

  /** The Message built from an empty attribute hash. */
  const Default: Message := Message(VStr(""), VList([]), VHash(map[]), VStr("system"))

  /**
   * `Message.new(attrs)`: ActiveModel assigns the attributes over their
   * defaults (raising for an undeclared key), then `validate_role` raises
   * ArgumentError unless the cast role is system, assistant or user.
   */
  function New(attrs: map<string, Value>): (r: Result<Message, Error>)
    ensures r.Success? <==> attrs.Keys <= Attributes && ValidRole(RoleOf(attrs))
    ensures !(attrs.Keys <= Attributes) ==> r == Failure(UnknownAttribute(attrs.Keys - Attributes))
    ensures attrs.Keys <= Attributes && !ValidRole(RoleOf(attrs)) ==> r == Failure(InvalidRole(RoleOf(attrs)))
    ensures r.Success? ==> Valid(r.value) && r.value.role == RoleOf(attrs)
    ensures r.Success? && "content" in attrs ==> r.value.content == CastString(attrs["content"])
    ensures r.Success? && "content" !in attrs ==> r.value.content == VStr("")
    ensures r.Success? && "requested_actions" in attrs ==> r.value.requestedActions == attrs["requested_actions"]
    ensures r.Success? && "requested_actions" !in attrs ==> r.value.requestedActions == VList([])
    ensures r.Success? && "params" in attrs ==> r.value.params == attrs["params"]
    ensures r.Success? && "params" !in attrs ==> r.value.params == VHash(map[])
  {
    if !(attrs.Keys <= Attributes) then
      Failure(UnknownAttribute(attrs.Keys - Attributes))
    else
      var m := Message(CastString(Fetch(attrs, "content", VStr(""))),
                       Fetch(attrs, "requested_actions", VList([])),
                       Fetch(attrs, "params", VHash(map[])),
                       RoleOf(attrs));
      if ValidRole(m.role) then Success(m) else Failure(InvalidRole(m.role))
  }

  /** A fresh Message has content "", role "system", no requested actions and no params. */
  lemma NewWithoutAttributes()
    ensures New(map[]) == Success(Default)
    ensures Default.content == VStr("") && Default.role == VStr("system")
    ensures Default.requestedActions == VList([]) && Default.params == VHash(map[])
  {
  }

  /**
   * A role given as a String or a Symbol is accepted exactly when its name
   * is system, assistant or user; "tool" and "function" are rejected.
   */
  lemma RoleAcceptedIff(name: string, asSymbol: bool)
    ensures var role := if asSymbol then VSym(name) else VStr(name);
      (New(map["role" := role]).Success? <==> name == "system" || name == "assistant" || name == "user")
    ensures var role := if asSymbol then VSym(name) else VStr(name);
      !New(map["role" := role]).Success? ==> New(map["role" := role]) == Failure(InvalidRole(VStr(name)))
  {
    var role := if asSymbol then VSym(name) else VStr(name);
    assert RoleOf(map["role" := role]) == VStr(name);
  }

  /** "tool" and "function" are not among the valid roles. */
  lemma ToolAndFunctionRejected()
    ensures New(map["role" := VStr("tool")]) == Failure(InvalidRole(VStr("tool")))
    ensures New(map["role" := VStr("function")]) == Failure(InvalidRole(VStr("function")))
  {
    RoleAcceptedIff("tool", false);
    RoleAcceptedIff("function", false);
  }

  /** Joins strings with a separator, as `Array#join` does. */
  function Join(parts: seq<string>, sep: string): string {
    if |parts| == 0 then ""
    else if |parts| == 1 then parts[0]
    else parts[0] + sep + Join(parts[1..], sep)
  }

  /** The message of the ArgumentError for a String role. */
  function InvalidRoleText(role: string): string {
    "Invalid role: " + role + ". Valid roles are: " + Join(ValidRoles, ", ")
  }

  lemma InvalidRoleTextSpelledOut(role: string)
    ensures InvalidRoleText(role) == "Invalid role: " + role + ". Valid roles are: system, assistant, user"
  {
    assert Join(ValidRoles[2..], ", ") == "user";
    assert Join(ValidRoles[1..], ", ") == "assistant, user";
  }

  /** `Enumerable#any?` without a block: some element is truthy. */
  function AnyTruthy(xs: seq<Value>): (r: bool)
    ensures r <==> exists i :: 0 <= i < |xs| && Truthy(xs[i])
  {
    if xs == [] then false
    else if Truthy(xs[0]) then true
    else
      assert forall i :: 1 <= i < |xs| ==> xs[i] == xs[1..][i - 1];
      AnyTruthy(xs[1..])
  }

  /**
   * `actions_requested?` is `requested_actions.any?`: for an Array, some
   * element is truthy; for a Hash, it is not empty; anything else has no
   * `any?`.
   */
  function ActionsRequested(m: Message): (r: Result<bool, Error>)
    ensures m.requestedActions.VList? ==>
      r.Success? && (r.value <==> exists i :: 0 <= i < |m.requestedActions.items| && Truthy(m.requestedActions.items[i]))
    ensures m.requestedActions.VHash? ==> r == Success(m.requestedActions.entries != map[])
    ensures !(m.requestedActions.VList? || m.requestedActions.VHash?) ==>
      r == Failure(NoMethod("any?", m.requestedActions))
  {
    match m.requestedActions
    case VList(xs) => Success(AnyTruthy(xs))
    case VHash(h) => Success(h != map[])
    case _ => Failure(NoMethod("any?", m.requestedActions))
  }

  /** With requested actions that are all objects, `actions_requested?` holds iff there is one. */
  lemma ActionsRequestedIffNonEmpty(m: Message)
    requires m.requestedActions.VList?
    requires forall i :: 0 <= i < |m.requestedActions.items| ==> m.requestedActions.items[i].VObj?
    ensures ActionsRequested(m) == Success(m.requestedActions.items != [])
  {
    if m.requestedActions.items != [] {
      assert Truthy(m.requestedActions.items[0]);
    }
  }

  /** `action_call?`: no Message is an action call. */
  function ActionCall(m: Message): (r: bool)
    ensures !r
  {
    false
  }

  /** `to_s`: the content as a String ("" for a nil content). */
  function ToS(m: Message): (r: Value)
    ensures IsString(r)
    ensures IsString(m.content) ==> r == m.content
    ensures m.content == VNil ==> r == VStr("")
  {
    Values.ToS(m.content)
  }

  /** `to_h`: exactly the keys content and role, with the Message's values. */
  function ToH(m: Message): (h: map<string, Value>)
    ensures h.Keys == {"content", "role"}
    ensures h["content"] == m.content && h["role"] == m.role
  {
    map["content" := m.content, "role" := m.role]
  }

  /** `Message.new(content: c, role: :user)`, which always succeeds. */
  function UserMessage(content: Value): (m: Message)
    ensures New(map["content" := content, "role" := VSym("user")]) == Success(m)
  {
    Message(CastString(content), VList([]), VHash(map[]), VStr("user"))
  }

  /** `Message.new(content: c, role: :system)`, which always succeeds. */
  function SystemMessage(content: Value): (m: Message)
    ensures New(map["content" := content, "role" := VSym("system")]) == Success(m)
  {
    Message(CastString(content), VList([]), VHash(map[]), VStr("system"))
  }

  /** `Message.new(content: c, role: :assistant)`, which always succeeds. */
  function AssistantMessage(content: Value): (m: Message)
    ensures New(map["content" := content, "role" := VSym("assistant")]) == Success(m)
  {
    Message(CastString(content), VList([]), VHash(map[]), VStr("assistant"))
  }
}
