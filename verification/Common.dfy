/** Small building blocks shared by the server model and the client model. */
module Common {

  datatype Option<+T> = None | Some(value: T)

  const TWO32: int := 0x1_0000_0000
  const TWO64: int := 0x1_0000_0000_0000_0000

  /** The 64-bit integers of the source, wrap-around written out where it is used. */
  type U64 = n: int | 0 <= n < TWO64
  type I64 = n: int | -0x8000_0000_0000_0000 <= n < 0x8000_0000_0000_0000

  /** The first position, `from` or later, whose element satisfies `hit`. */
  function FirstFrom<T>(xs: seq<T>, hit: T -> bool, from: nat): (r: Option<nat>)
    requires from <= |xs|
    ensures r.Some? ==> from <= r.value < |xs| && hit(xs[r.value])
    ensures r.Some? ==> forall k :: from <= k < r.value ==> !hit(xs[k])
    ensures r.None? ==> forall k :: from <= k < |xs| ==> !hit(xs[k])
    decreases |xs| - from
  {
    if from == |xs| then None
    else if hit(xs[from]) then Some(from)
    else FirstFrom(xs, hit, from + 1)
  }

  /** `xs` can be obtained from `ys` by leaving elements out: same order, nothing used twice. */
  predicate Subsequence<T(==)>(xs: seq<T>, ys: seq<T>)
    decreases |ys|
  {
    if xs == [] then true
    else if ys == [] then false
    else if xs[|xs| - 1] == ys[|ys| - 1] then Subsequence(xs[..|xs| - 1], ys[..|ys| - 1])
    else Subsequence(xs, ys[..|ys| - 1])
  }

  /** A subsequence stays one when the longer list grows. */
  lemma {:induction false} SubsequenceGrows<T>(xs: seq<T>, ys: seq<T>, y: T)
    requires Subsequence(xs, ys)
    ensures Subsequence(xs, ys + [y])
    decreases |ys|, 1
  {
    assert (ys + [y])[..|ys|] == ys;
    if xs != [] && xs[|xs| - 1] == y {
      SubsequenceShrinks(xs, ys);
    }
  }

  /** Leaving out the last element of a subsequence gives a subsequence. */
  lemma {:induction false} SubsequenceShrinks<T>(xs: seq<T>, ys: seq<T>)
    requires xs != [] && Subsequence(xs, ys)
    ensures Subsequence(xs[..|xs| - 1], ys)
    decreases |ys|, 0
  {
    var x', y' := xs[..|xs| - 1], ys[..|ys| - 1];
    assert y' + [ys[|ys| - 1]] == ys;
    if xs[|xs| - 1] != ys[|ys| - 1] {
      SubsequenceShrinks(xs, y');
    }
    SubsequenceGrows(x', y', ys[|ys| - 1]);
  }
}
