/** Option and Result, used for absent values and for the error returns that the
    Python code signals by raising ValueError. */
module Base {

  datatype Option<T> = None | Some(value: T)

  datatype Result<T, E> = Ok(value: T) | Err(error: E)

  /** Appending to a log in two steps is appending once; loops that extend an
      effect log use it to keep their invariant. */
  lemma AppendAssoc<T>(a: seq<T>, b: seq<T>, c: seq<T>)
    ensures a + b + c == a + (b + c)
  {
  }
}
