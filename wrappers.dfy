/** Failure-carrying values shared by the adapters. */
module Wrappers {

  datatype Option<+T> = None | Some(value: T)

  datatype Result<+T, +E> = Ok(value: T) | Err(error: E)
}

/** Helpers on text that the stream rules are stated with. */
module Strings {

  /** The text a consumer sees when it joins every fragment it received, in order. */
  function Concat(fragments: seq<string>): string
  {
    if fragments == [] then ""
    else Concat(fragments[..|fragments| - 1]) + fragments[|fragments| - 1]
  }

  /** Joining is compatible with splitting the list anywhere. */
  lemma {:induction false} ConcatAppend(a: seq<string>, b: seq<string>)
    ensures Concat(a + b) == Concat(a) + Concat(b)
    decreases |b|
  {
    if b == [] {
      assert a + b == a;
    } else {
      var last := b[|b| - 1];
      var front := b[..|b| - 1];
      assert (a + b)[..|a + b| - 1] == a + front;
      assert b[..|b| - 1] == front;
      ConcatAppend(a, front);
      calc {
        Concat(a + b);
        Concat(a + front) + last;
        Concat(a) + Concat(front) + last;
        Concat(a) + (Concat(front) + last);
      }
    }
  }
}
