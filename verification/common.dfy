/** Failure-compatible wrappers shared by every module of the model. */
module Common {

  datatype Option<+T> = None | Some(value: T)

  /** A Python call that either returns a value or raises. */
  datatype Result<+T, +E> = Ok(value: T) | Err(error: E) {
    predicate IsFailure() { Err? }

    function PropagateFailure<U>(): Result<U, E>
      requires Err?
    {
      Err(error)
    }

    function Extract(): T
      requires Ok?
    {
      value
    }
  }

  /** Regrouping a concatenation, for the loops that append to a list field. */
  lemma AppendAssoc<T>(a: seq<T>, b: seq<T>, c: seq<T>)
    ensures (a + b) + c == a + (b + c)
  {
  }

  /** Appending the head of `ys` and then its tail is appending `ys`. */
  lemma AppendHeadTail<T>(xs: seq<T>, ys: seq<T>)
    requires |ys| > 0
    ensures (xs + [ys[0]]) + ys[1..] == xs + ys
  {
    assert [ys[0]] + ys[1..] == ys;
    AppendAssoc(xs, [ys[0]], ys[1..]);
  }
}
