/**
 * The quiz shuffles a copy of a list by sorting it with a comparator that
 * ignores its arguments and answers `Math.random() - 0.5`. Whatever the
 * comparator answers, a sort only rearranges the copy, so the outcome is a
 * permutation of the input. The random draws are a parameter: `random(k)` is
 * the value `Math.random()` returns on the k-th call of the comparator.
 */
module Shuffling {

  /** `a` holds exactly the elements of `b`, each as often. */
  predicate IsPermutation<T(==)>(a: seq<T>, b: seq<T>) {
    multiset(a) == multiset(b)
  }

  /** The comparator `() => Math.random() - 0.5` on its k-th call: a positive
      answer tells the sort to place its first argument after its second. */
  function ComparatorPositive(random: nat -> real, k: nat): (swap: bool)
    ensures swap <==> random(k) > 0.5
  {
    random(k) - 0.5 > 0.0
  }

  /**
   * `[...xs].sort(() => Math.random() - 0.5)`. The engine's own sorting
   * algorithm is not part of this model; an insertion sort on the copied
   * array stands for it: it asks the comparator about each adjacent pair and
   * swaps the pair on a positive answer.
   */
  method Shuffle<T(==)>(xs: seq<T>, random: nat -> real) returns (r: seq<T>)
    ensures IsPermutation(r, xs)
    ensures |r| == |xs|
  {
    var a := new T[|xs|](i requires 0 <= i < |xs| => xs[i]);
    assert a[..] == xs;
    var calls: nat := 0;
    var i := 1;
    while i < a.Length
      invariant multiset(a[..]) == multiset(xs)
    {
      var j := i;
      var after := true;
      while 0 < j && after
        invariant 0 <= j <= i < a.Length
        invariant multiset(a[..]) == multiset(xs)
        decreases j, after
      {
        after := ComparatorPositive(random, calls);
        calls := calls + 1;
        if after {
          a[j - 1], a[j] := a[j], a[j - 1];
          j := j - 1;
        }
      }
      i := i + 1;
    }
    r := a[..];
  }
}
