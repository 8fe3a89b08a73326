/** Option, the three kinds of service error, the failure-compatible result and check
    types every service operation is written with, and a little shared arithmetic. */
module Basics {

  datatype Option<+T> = None | Some(value: T) {
    function GetOr(default: T): T {
      match this
      case Some(v) => v
      case None => default
    }
  }

  /** The three application errors a service raises. */
  datatype Error = NotFound | BadRequest | Conflict

  datatype Result<+T> = Success(value: T) | Failure(error: Error) {
    predicate IsFailure() {
      Failure?
    }

    function PropagateFailure<U>(): Result<U>
      requires Failure?
    {
      Failure(error)
    }

    function Extract(): T
      requires Success?
    {
      value
    }
  }

  /** The outcome of a validation that yields no value. */
  datatype Check = Pass | Fail(error: Error) {
    predicate IsFailure() {
      Fail?
    }

    function PropagateFailure<U>(): Result<U>
      requires Fail?
    {
      Failure(error)
    }
  }

  function Need(condition: bool, error: Error): Check {
    if condition then Pass else Fail(error)
  }

  /** A quantity that cannot be zero. */
  type pos = x: int | x > 0 witness 1

  function Max(a: int, b: int): int {
    if a < b then b else a
  }

  function Abs(x: int): nat {
    if x < 0 then -x else x
  }

  function Sum(s: seq<int>): int {
    if s == [] then 0 else Sum(s[..|s| - 1]) + s[|s| - 1]
  }

  lemma SumAppend(s: seq<int>, x: int)
    ensures Sum(s + [x]) == Sum(s) + x
  {
    assert (s + [x])[..|s|] == s;
  }

  lemma Distributes(a: int, b: int, c: int)
    ensures a * (b + c) == a * b + a * c
  {
  }
}
