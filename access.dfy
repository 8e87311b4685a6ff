/**
 * `receiver[key]` on a receiver that need not be a Hash, as the core does
 * when it indexes configuration documents and tool descriptions.
 */
module Access {
  import opened Wrappers
  import opened Values
  import opened Errors

  /**
   * `v[:k]`: a Hash looks the key up; nil, Floats, booleans and objects have
   * no `[]`; Strings, Symbols, Arrays and Integers reject a Symbol index.
   * A Proc (whose `[]` calls it) is treated as having no `[]`.
   */
  function IndexSymbol(v: Value, k: string): Result<Value, Error> {
    match v
    case VHash(h) => Success(Get(h, k))
    case VStr(_) => Failure(TypeMismatch("[]", v))
    case VToS(_) => Failure(TypeMismatch("[]", v))
    case VSym(_) => Failure(TypeMismatch("[]", v))
    case VList(_) => Failure(TypeMismatch("[]", v))
    case VInt(_) => Failure(TypeMismatch("[]", v))
    case _ => Failure(NoMethod("[]", v))
  }

  /**
   * `v["k"]`: a Hash looks the key up; a String or Symbol returns the key
   * when it occurs in it and nil otherwise; Arrays and Integers reject a
   * String index; nil and other objects have no `[]`. An unrendered String
   * (`VToS`) is not searched and is treated like an Array.
   */
  function IndexString(v: Value, k: string): Result<Value, Error> {
    match v
    case VHash(h) => Success(Get(h, k))
    case VStr(s) => Success(if Contains(s, k) then VStr(k) else VNil)
    case VSym(n) => Success(if Contains(n, k) then VStr(k) else VNil)
    case VToS(_) => Failure(TypeMismatch("[]", v))
    case VList(_) => Failure(TypeMismatch("[]", v))
    case VInt(_) => Failure(TypeMismatch("[]", v))
    case _ => Failure(NoMethod("[]", v))
  }

  /** Indexing a Hash never fails and yields `Hash#[]`. */
  lemma HashIndex(h: map<string, Value>, k: string)
    ensures IndexSymbol(VHash(h), k) == Success(Get(h, k))
    ensures IndexString(VHash(h), k) == Success(Get(h, k))
  {
  }
}
