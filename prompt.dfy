/** ActiveAgent::ActionPrompt::Prompt: the conversation handed to a provider. */
module Prompts {
  import opened Wrappers
  import opened Values
  import opened Errors
  import Messages

  /** What an untyped attribute that normally holds Messages holds: a Message, or any other value. */
  datatype Slot = Msg(m: Messages.Message) | Other(v: Value)

  /** The attributes given to `Prompt.new`; None means the key is absent. */
  datatype Attrs = Attrs(
    actions: Option<Value>,
    instructions: Option<Value>,
    message: Option<Slot>,
    messages: Option<seq<Slot>>,
    params: Option<Value>)

  const NoAttrs: Attrs := Attrs(None, None, None, None, None)

  predicate SlotTruthy(s: Slot) {
    s.Msg? || Truthy(s.v)
  }

  /** `messages.any?`: some element is truthy. */
  predicate AnyTruthy(ms: seq<Slot>) {
    exists i :: 0 <= i < |ms| && SlotTruthy(ms[i])
  }

  /** `msg.is_a?(Message) ? msg : Message.new(content: msg, role: :user)` */
  function NormalizeSlot(s: Slot): Slot {
    if s.Msg? then s else Msg(Messages.UserMessage(s.v))
  }

  /** What `set_messages if messages.any?` leaves in `messages`. */
  function NormalizeMessages(ms: seq<Slot>): seq<Slot> {
    if AnyTruthy(ms) then seq(|ms|, i requires 0 <= i < |ms| => NormalizeSlot(ms[i])) else ms
  }

  /**
   * Normalisation keeps length and order: Messages stay as they are and
   * every other element x becomes a user Message with content x. A list
   * with no truthy element (only nils and falses) is left untouched.
   */
  lemma NormalizeMessagesShape(ms: seq<Slot>)
    ensures |NormalizeMessages(ms)| == |ms|
    ensures forall i :: 0 <= i < |ms| && ms[i].Msg? ==> NormalizeMessages(ms)[i] == ms[i]
    ensures AnyTruthy(ms) ==> forall i :: 0 <= i < |ms| && ms[i].Other? ==>
      NormalizeMessages(ms)[i] == Msg(Messages.UserMessage(ms[i].v))
    ensures AnyTruthy(ms) ==> forall i :: 0 <= i < |ms| ==> NormalizeMessages(ms)[i].Msg?
    ensures !AnyTruthy(ms) ==> NormalizeMessages(ms) == ms
  {
  }

  /** What `message` holds after `initialize`. */
  function InitialMessage(given: Option<Slot>): Slot {
    match given
    case None => Msg(Messages.Default)
    case Some(Other(v)) => if IsString(v) then Msg(Messages.UserMessage(v)) else Other(v)
    case Some(s) => s
  }

  /**
   * A String message becomes a user Message with that content; a Message,
   * or any other non-String value, is kept; no message gives the default
   * Message (role system, content "").
   */
  lemma InitialMessageCases(given: Option<Slot>)
    ensures given.None? ==> InitialMessage(given) == Msg(Messages.Default)
    ensures given.Some? && given.value.Other? && IsString(given.value.v) ==>
      InitialMessage(given) == Msg(Messages.UserMessage(given.value.v)) &&
      InitialMessage(given).m.content == given.value.v && InitialMessage(given).m.role == VStr("user")
    ensures given.Some? && !(given.value.Other? && IsString(given.value.v)) ==> InitialMessage(given) == given.value
  {
  }

  /** `x.to_h` for a value that is not a Message. */
  function ValueToH(v: Value): Result<map<string, Value>, Error> {
    match v
    case VNil => Success(map[])
    case VHash(h) => Success(h)
    case VList(xs) => PairsToH(xs)
    case _ => Failure(NoMethod("to_h", v))
  }

  /** The key and value of one `[key, value]` pair with a String or Symbol key. */
  function PairOf(x: Value): Option<(string, Value)> {
    if x.VList? && |x.items| == 2 && (x.items[0].VStr? || x.items[0].VSym?) then
      Some((if x.items[0].VStr? then x.items[0].s else x.items[0].name, x.items[1]))
    else None
  }

  /**
   * `Array#to_h` on a list of pairs, later pairs winning; an element that
   * is not a pair is a TypeError (the model also refuses keys that are not
   * Strings or Symbols).
   */
  function PairsToH(xs: seq<Value>): Result<map<string, Value>, Error>
    decreases |xs|
  {
    if xs == [] then Success(map[])
    else
      var init :- PairsToH(xs[..|xs| - 1]);
      var last := xs[|xs| - 1];
      match PairOf(last)
      case None => Failure(TypeMismatch("to_h", last))
      case Some(kv) => Success(init[kv.0 := kv.1])
  }

  /** `slot.to_h`. */
  function SlotToH(s: Slot): Result<map<string, Value>, Error> {
    match s
    case Msg(m) => Success(Messages.ToH(m))
    case Other(v) => ValueToH(v)
  }

  /** `slot.to_s`. */
  function SlotToS(s: Slot): (r: Value)
    ensures IsString(r)
  {
    match s
    case Msg(m) => Messages.ToS(m)
    case Other(v) => Values.ToS(v)
  }

  class Prompt {
    var actions: Value
    var instructions: Value
    var message: Slot
    var messages: seq<Slot>
    var params: Value

    /**
     * `Prompt.new(attributes)`: the attributes over their defaults, then
     * `set_instructions` (when present), `set_message` (when the given
     * message is a String) and `set_messages` (when some element is truthy).
     */
    constructor (attrs: Attrs)
      ensures actions == attrs.actions.GetOr(VList([]))
      ensures instructions == CastString(attrs.instructions.GetOr(VStr("")))
      ensures message == InitialMessage(attrs.message)
      ensures messages == NormalizeMessages(attrs.messages.GetOr([]))
      ensures |messages| == |attrs.messages.GetOr([])|
      ensures params == attrs.params.GetOr(VHash(map[]))
    {
      actions := attrs.actions.GetOr(VList([]));
      instructions := CastString(attrs.instructions.GetOr(VStr("")));
      message := attrs.message.GetOr(Msg(Messages.Default));
      messages := attrs.messages.GetOr([]);
      params := attrs.params.GetOr(VHash(map[]));
      new;
      if Present(instructions) {
        // set_instructions: a system Message, cast back through Message#to_s
        // because `instructions` is a :string attribute
        instructions := Messages.ToS(Messages.SystemMessage(instructions));
      }
      if attrs.message.Some? && attrs.message.value.Other? && IsString(attrs.message.value.v) {
        message := Msg(Messages.UserMessage(attrs.message.value.v));
      }
      if AnyTruthy(messages) {
        var given := messages;
        messages := seq(|given|, i requires 0 <= i < |given| => NormalizeSlot(given[i]));
      }
    }

    /** `to_s`: the message's `to_s`. */
    function ToS(): (r: Value)
      reads this
      ensures IsString(r)
      ensures message.Msg? ==> r == Messages.ToS(message.m)
      ensures message.Other? ==> r == Values.ToS(message.v)
    {
      SlotToS(message)
    }

    /**
     * `to_h`: exactly actions, instructions, message (as its `to_h`) and
     * messages (each through `to_h`, in order). It raises when the message
     * or an element of messages has no `to_h`.
     */
    function ToH(): (r: Result<map<string, Value>, Error>)
      reads this
      ensures r.Success? <==> SlotToH(message).Success? && forall i :: 0 <= i < |messages| ==> SlotToH(messages[i]).Success?
      ensures r.Success? ==> r.value.Keys == {"actions", "instructions", "message", "messages"}
      ensures r.Success? ==> r.value["actions"] == actions && r.value["instructions"] == instructions
      ensures r.Success? ==> r.value["message"] == VHash(SlotToH(message).value)
      ensures r.Success? ==> r.value["messages"].VList? && |r.value["messages"].items| == |messages|
      ensures r.Success? ==> forall i :: 0 <= i < |messages| ==> r.value["messages"].items[i] == VHash(SlotToH(messages[i]).value)
      ensures message.Msg? && (forall i :: 0 <= i < |messages| ==> messages[i].Msg?) ==> r.Success?
    {
      var m :- SlotToH(message);
      var hs :- MapResult(SlotToH, messages);
      var ms := seq(|hs|, i requires 0 <= i < |hs| => VHash(hs[i]));
      Success(map["actions" := actions, "instructions" := instructions, "message" := VHash(m), "messages" := VList(ms)])
    }
  }
}
