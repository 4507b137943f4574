/** Optional values and results, used wherever the program has `Option` or `Result`, and a few facts
    about sequences. */
module Wrappers {

  datatype Option<+T> = None | Some(value: T)

  datatype Result<+T, +E> = Success(value: T) | Failure(error: E) {
    predicate IsFailure() {
      Failure?
    }

    function PropagateFailure<U>(): Result<U, E>
      requires Failure?
    {
      Failure(error)
    }

    function Extract(): T
      requires Success?
    {
      value
    }
  }

  /* Sequences cut and joined. */

  lemma ConcatInit<T>(x: seq<T>, y: seq<T>)
    requires y != []
    ensures (x + y)[..|x + y| - 1] == x + y[..|y| - 1] && (x + y)[|x + y| - 1] == y[|y| - 1]
  {
  }

  lemma ConcatNothing<T>(x: seq<T>)
    ensures x + [] == x
  {
  }

  lemma CutAt<T>(s: seq<T>, i: nat)
    requires i < |s|
    ensures s == (s[..i] + [s[i]]) + s[i + 1..]
  {
  }
}
