/**
 * The Ruby values the core passes around, with the handful of Ruby and
 * ActiveSupport operations on them that the core relies on: truthiness,
 * `blank?`/`present?`, `to_s`, ActiveModel's string cast, `Hash#[]`,
 * `fetch`, `merge`, `reverse_merge`, `except` and `compact`.
 *
 * Hash keys are written as strings; whether a site uses Symbol keys
 * (`options[:model]`) or String keys (`config["model"]`) is said where the
 * key is read.
 */
module Values {

  datatype Value =
    | VNil
    | VBool(b: bool)
    | VInt(i: int)
      /** A Float, kept as its literal (no arithmetic is done on them). */
    | VFloat(literal: string)
    | VStr(s: string)
    | VSym(name: string)
    | VList(items: seq<Value>)
    | VHash(entries: map<string, Value>)
      /** A Proc or lambda; `id` names it, `arity` is `Proc#arity`. */
    | VProc(id: nat, arity: int)
      /** Any other object, by class name and the readers it exposes. */
    | VObj(cls: string, fields: map<string, Value>)
      /**
       * The String `of.to_s` for an Array, Hash, Proc or other object. The
       * model does not spell that rendering out; it always begins with
       * `[`, `{` or `#<`, so it is never blank and never a plain word.
       */
    | VToS(of: Value)

  /** Ruby truthiness: everything except nil and false. */
  predicate Truthy(v: Value) {
    !(v.VNil? || v == VBool(false))
  }

  /** `a || b`. */
  function Or(a: Value, b: Value): Value {
    if Truthy(a) then a else b
  }

  /** The value is a String (a literal one, or the rendering of an object). */
  predicate IsString(v: Value) {
    v.VStr? || v.VToS?
  }

  /** The characters ActiveSupport's `String#blank?` treats as space (ASCII subset). */
  predicate IsSpace(c: char) {
    c == ' ' || c == '\t' || c == '\n' || c == '\r' || c == '\U{000B}' || c == '\U{000C}'
  }

  /** ActiveSupport's `blank?`. */
  predicate Blank(v: Value) {
    match v
    case VNil => true
    case VBool(b) => !b
    case VStr(s) => forall i :: 0 <= i < |s| ==> IsSpace(s[i])
    case VSym(n) => n == ""
    case VList(xs) => xs == []
    case VHash(h) => h == map[]
    case _ => false
  }

  /** ActiveSupport's `present?`. */
  predicate Present(v: Value) {
    !Blank(v)
  }

  /** ActiveSupport's `presence`: the value when present, nil otherwise. */
  function Presence(v: Value): Value {
    if Present(v) then v else VNil
  }

  function DigitChar(d: nat): char
    requires d < 10
  {
    "0123456789"[d]
  }

  /** Decimal digits of a natural number, as `Integer#to_s` writes them. */
  function NatToString(n: nat): string {
    if n < 10 then [DigitChar(n)] else NatToString(n / 10) + [DigitChar(n % 10)]
  }

  function IntToString(i: int): string {
    if i < 0 then "-" + NatToString(-i) else NatToString(i)
  }

  /** Ruby's `to_s`. The result is always a String. */
  function ToS(v: Value): (r: Value)
    ensures IsString(r)
    ensures IsString(v) ==> r == v
  {
    match v
    case VNil => VStr("")
    case VBool(b) => VStr(if b then "true" else "false")
    case VInt(i) => VStr(IntToString(i))
    case VFloat(lit) => VStr(lit)
    case VStr(_) => v
    case VSym(n) => VStr(n)
    case VToS(_) => v
    case _ => VToS(v)
  }

  /**
   * ActiveModel's `:string` attribute cast: nil stays nil, true and false
   * become "t" and "f", everything else becomes its `to_s`.
   */
  function CastString(v: Value): (r: Value)
    ensures r == VNil <==> v == VNil
    ensures r != VNil ==> IsString(r)
    ensures IsString(v) ==> r == v
    ensures v.VSym? ==> r == VStr(v.name)
  {
    match v
    case VNil => VNil
    case VBool(b) => VStr(if b then "t" else "f")
    case _ => ToS(v)
  }

  /** `Hash#[]`: the value at `k`, or nil. */
  function Get(h: map<string, Value>, k: string): Value {
    if k in h then h[k] else VNil
  }

  /** `Hash#fetch(k, d)`: the value at `k` when the key exists (even nil), else `d`. */
  function Fetch(h: map<string, Value>, k: string, d: Value): Value {
    if k in h then h[k] else d
  }

  /** `a.merge(b)`: every key of both, `b` winning. */
  function Merge(a: map<string, Value>, b: map<string, Value>): (r: map<string, Value>)
    ensures r.Keys == a.Keys + b.Keys
    ensures forall k :: k in b ==> r[k] == b[k]
    ensures forall k :: k in a && k !in b ==> r[k] == a[k]
  {
    a + b
  }

  /** `h.compact`: the pairs whose value is not nil. */
  function Compact(h: map<string, Value>): (r: map<string, Value>)
    ensures forall k :: k in r <==> k in h && h[k] != VNil
    ensures forall k :: k in r ==> r[k] == h[k]
  {
    map k | k in h && h[k] != VNil :: h[k]
  }

  /** `s` occurs in `t` (what `String#[]` with a String argument looks for). */
  predicate Contains(t: string, s: string)
    decreases |t|
  {
    s <= t || (|t| > 0 && Contains(t[1..], s))
  }
}
