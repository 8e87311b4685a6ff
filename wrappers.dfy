/** Option and Result, used for Ruby's nil and for operations that raise. */
module Wrappers {

  datatype Option<+T> = None | Some(value: T) {

    /** The value, or `default` when there is none. */
    function GetOr(default: T): T {
      match this
      case Some(v) => v
      case None => default
    }
  }

  /** Success with a value, or Failure with the exception the source raises. */
  datatype Result<+T, +E> = Success(value: T) | Failure(error: E) {

    predicate IsFailure() {
      Failure?
    }

    function PropagateFailure<U>(): Result<U, E>
      requires Failure?
    {
      Failure(error)
    }

    function Extract(): T
      requires Success?
    {
      value
    }
  }

  /**
   * `xs.map(&f)` where `f` may raise: the results in order, or the first
   * exception, in which case every earlier element went through.
   */
  function MapResult<A, B, E>(f: A -> Result<B, E>, xs: seq<A>): (r: Result<seq<B>, E>)
    ensures r.Success? <==> forall i :: 0 <= i < |xs| ==> f(xs[i]).Success?
    ensures r.Success? ==> |r.value| == |xs|
    ensures r.Success? ==> forall i :: 0 <= i < |xs| ==> r.value[i] == f(xs[i]).value
    ensures r.Failure? ==> exists i :: 0 <= i < |xs| && f(xs[i]) == Failure(r.error) &&
                                       forall j :: 0 <= j < i ==> f(xs[j]).Success?
  {
    if xs == [] then Success([])
    else
      assert forall j :: 1 <= j < |xs| ==> xs[j] == xs[1..][j - 1];
      match f(xs[0])
      case Failure(e) => Failure(e)
      case Success(y) =>
        match MapResult(f, xs[1..])
        case Failure(e) => Failure(e)
        case Success(ys) => Success([y] + ys)
  }
}
