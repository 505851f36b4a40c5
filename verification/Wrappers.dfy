/**
 * The optional value used throughout: Go's nil pointer, absent map entry, empty raw message or failed
 * decoding; and sequences that are put together piece by piece.
 */
module Wrappers {
  datatype Option<+T> = None | Some(value: T) {
    predicate IsFailure() { None? }

    function PropagateFailure<U>(): Option<U>
      requires None?
    {
      None
    }

    function Extract(): T
      requires Some?
    {
      value
    }
  }

  function Map<T, U>(f: T -> U, xs: seq<T>): seq<U> { seq(|xs|, i requires 0 <= i < |xs| => f(xs[i])) }

  /** What each element gives, one after the other. */
  function FlatMap<T, U>(f: T -> seq<U>, xs: seq<T>): seq<U> {
    if xs == [] then [] else f(xs[0]) + FlatMap(f, xs[1..])
  }

  lemma {:induction false} FlatMapConcat<T, U>(f: T -> seq<U>, a: seq<T>, b: seq<T>)
    ensures FlatMap(f, a + b) == FlatMap(f, a) + FlatMap(f, b)
  {
    if a == [] {
      assert a + b == b;
    } else {
      assert (a + b)[0] == a[0] && (a + b)[1..] == a[1..] + b;
      FlatMapConcat(f, a[1..], b);
    }
  }

  lemma FlatMapOne<T, U>(f: T -> seq<U>, x: T)
    ensures FlatMap(f, [x]) == f(x) && FlatMap(f, []) == []
  {
    assert [x][1..] == [] && f(x) + [] == f(x);
  }
}
