/** Stock facts about mapping, adding up and rearranging sequences. */
module Sequences {

  function FlatMap<A, B>(xs: seq<A>, f: A -> seq<B>): seq<B> {
    if xs == [] then [] else FlatMap(xs[..|xs| - 1], f) + f(xs[|xs| - 1])
  }

  lemma {:induction false} FlatMapConcat<A, B>(xs: seq<A>, ys: seq<A>, f: A -> seq<B>)
    ensures FlatMap(xs + ys, f) == FlatMap(xs, f) + FlatMap(ys, f)
  {
    if ys == [] {
      assert xs + ys == xs;
    } else {
      assert (xs + ys)[..|xs + ys| - 1] == xs + ys[..|ys| - 1];
      FlatMapConcat(xs, ys[..|ys| - 1], f);
    }
  }

  function SumBy<A>(xs: seq<A>, f: A -> real): real {
    if xs == [] then 0.0 else SumBy(xs[..|xs| - 1], f) + f(xs[|xs| - 1])
  }

  lemma MultisetCancel<T>(a: multiset<T>, b: multiset<T>, x: T)
    requires a + multiset{x} == b + multiset{x}
    ensures a == b
  {
    assert a == (a + multiset{x}) - multiset{x};
    assert b == (b + multiset{x}) - multiset{x};
  }

  lemma MultisetAround<T>(before: seq<T>, x: T, after: seq<T>)
    ensures multiset(before + ([x] + after)) == multiset(before + after) + multiset{x}
  {}

  /** A permutation of a sequence holds its last element somewhere, between permutations of the rest. */
  lemma PlaceOfLast<T>(xs: seq<T>, ys: seq<T>) returns (before: seq<T>, after: seq<T>)
    requires multiset(xs) == multiset(ys) && xs != []
    ensures ys == before + ([xs[|xs| - 1]] + after)
    ensures multiset(xs[..|xs| - 1]) == multiset(before + after)
  {
    var front, last := xs[..|xs| - 1], xs[|xs| - 1];
    assert xs == front + ([last] + []) && front + [] == front;
    MultisetAround(front, last, []);
    assert last in multiset(ys);
    var i :| 0 <= i < |ys| && ys[i] == last;
    before, after := ys[..i], ys[i + 1..];
    assert ys == before + ([last] + after);
    MultisetAround(before, last, after);
    MultisetCancel(multiset(front), multiset(before + after), last);
  }
}
