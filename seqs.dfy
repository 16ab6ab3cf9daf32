/** Facts about sequences that the recursive definitions elsewhere peel from the back. */
module Seqs {

  /** Dropping the last element of `a + b` drops the last element of `b`. */
  lemma DropLastAppend<T>(a: seq<T>, b: seq<T>)
    requires b != []
    ensures (a + b)[..|a + b| - 1] == a + b[..|b| - 1]
    ensures (a + b)[|a + b| - 1] == b[|b| - 1]
  {
  }

  /** What `f` gives for each element, concatenated in order. */
  function Gather<T, U>(xs: seq<T>, f: T -> seq<U>): seq<U>
    decreases |xs|
  {
    if xs == [] then [] else Gather(xs[..|xs| - 1], f) + f(xs[|xs| - 1])
  }

  lemma {:induction false} GatherAppend<T, U>(a: seq<T>, b: seq<T>, f: T -> seq<U>)
    ensures Gather(a + b, f) == Gather(a, f) + Gather(b, f)
    decreases |b|
  {
    if b == [] {
      assert a + b == a;
    } else {
      var front, last := b[..|b| - 1], b[|b| - 1];
      DropLastAppend(a, b);
      GatherAppend(a, front, f);
      calc {
        Gather(a + b, f);
        Gather(a + front, f) + f(last);
        Gather(a, f) + Gather(front, f) + f(last);
        Gather(a, f) + (Gather(front, f) + f(last));
        Gather(a, f) + Gather(b, f);
      }
    }
  }
}
