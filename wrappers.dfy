/** Option and Result, the two ways a computation of the model reports "no value" or an error.
    Both are failure-compatible, so `:-` propagates an error the way a Kotlin exception unwinds. */
module Wrappers {

  datatype Option<+T> = None | Some(value: T)

  /** The elements an optional value contributes to a list: none or exactly one. */
  function OptionToSeq<T>(o: Option<T>): (s: seq<T>)
  {
    match o
    case None => []
    case Some(v) => [v]
  }

  /** Regrouping a concatenation; stated once so that long loops over lists need not rediscover it. */
  lemma ConcatAssoc<T>(a: seq<T>, b: seq<T>, c: seq<T>)
    ensures a + (b + c) == (a + b) + c
  {
  }

  datatype Result<+T, +E> = Ok(value: T) | Err(error: E) {
    predicate IsFailure() {
      Err?
    }

    function PropagateFailure<U>(): Result<U, E>
      requires Err?
    {
      Err(error)
    }

    function Extract(): T
      requires Ok?
    {
      value
    }
  }
}
