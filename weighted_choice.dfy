/**
 * Weighted selection as `random.choices(population, weights)[0]` performs it:
 * the weights are accumulated into running totals, a uniform draw in [0, 1)
 * is scaled by the grand total, and `bisect_right` over the running totals
 * (all but the last) picks the index. The scaled draw x, in [0, total), is
 * passed in explicitly.
 */
module WeightedChoice {

  function Sum(w: seq<real>): real {
    if w == [] then 0.0 else Sum(w[..|w| - 1]) + w[|w| - 1]
  }

  predicate NonNegative(w: seq<real>) {
    forall j :: 0 <= j < |w| ==> w[j] >= 0.0
  }

  /**
   * Running totals, as `itertools.accumulate(weights)` produces them: the
   * first weight, then each total the previous one plus the next weight.
   * Total i is the sum of weights 0..i, and over non-negative weights the
   * totals never decrease.
   */
  function Accumulate(w: seq<real>): (c: seq<real>)
    ensures |c| == |w|
    ensures forall i :: 0 <= i < |w| ==> c[i] == Sum(w[..i + 1])
    ensures NonNegative(w) ==> forall i, j :: 0 <= i <= j < |w| ==> c[i] <= c[j]
    decreases |w|
  {
    if w == [] then []
    else if |w| == 1 then
      assert w[..1][..0] == [];
      [w[0]]
    else
      var n := |w| - 1;
      var prev := Accumulate(w[..n]);
      PrefixOfPrefix(w, n);
      assert w[..n + 1] == w;
      prev + [prev[n - 1] + w[n]]
  }

  /**
   * `bisect_right(a, x, lo, hi)` as CPython's binary search runs it: halve
   * [lo, hi) at mid, keeping the left half when x < a[mid] and the right
   * half past mid otherwise. On a sorted range the result is the first
   * index whose entry exceeds x, or hi when there is none.
   */
  function BisectRight(a: seq<real>, x: real, lo: int, hi: int): (i: int)
    requires 0 <= lo <= hi <= |a|
    requires forall j, k :: lo <= j <= k < hi ==> a[j] <= a[k]
    ensures lo <= i <= hi
    ensures forall j :: lo <= j < i ==> a[j] <= x
    ensures forall j :: i <= j < hi ==> x < a[j]
    decreases hi - lo
  {
    if lo == hi then lo
    else
      var mid := (lo + hi) / 2;
      if x < a[mid] then BisectRight(a, x, lo, mid)
      else BisectRight(a, x, mid + 1, hi)
  }

  /** A prefix of the first n weights is a prefix of all of them. */
  lemma PrefixOfPrefix(w: seq<real>, n: int)
    requires 0 <= n <= |w|
    ensures forall k :: 0 <= k <= n ==> w[..n][..k] == w[..k]
  {
  }

  /** Sum of a prefix extended by one element. */
  lemma SumPrefixStep(w: seq<real>, i: int)
    requires 0 <= i < |w|
    ensures Sum(w[..i + 1]) == Sum(w[..i]) + w[i]
  {
    assert w[..i + 1][..i] == w[..i];
  }

  /**
   * The index `random.choices` selects for the scaled draw x (the value of
   * `random() * total`). The selected weight is never zero; ChooseInSlice
   * states which slice of the running totals x falls into.
   */
  function Choose(w: seq<real>, x: real): (i: int)
    requires |w| > 0 && NonNegative(w)
    requires 0.0 <= x < Sum(w)
    ensures 0 <= i < |w|
    ensures w[i] > 0.0
  {
    var cum := Accumulate(w);
    BisectSlice(w, x);
    BisectRight(cum, x, 0, |cum| - 1)
  }

  /** The index bisect finds among the running totals is the slice holding x. */
  lemma BisectSlice(w: seq<real>, x: real)
    requires |w| > 0 && NonNegative(w)
    requires 0.0 <= x < Sum(w)
    ensures var i := BisectRight(Accumulate(w), x, 0, |w| - 1);
      0 <= i < |w| && Sum(w[..i]) <= x < Sum(w[..i + 1]) && w[i] > 0.0
  {
    var cum := Accumulate(w);
    var i := BisectRight(cum, x, 0, |w| - 1);
    assert w[..|w|] == w;
    SumPrefixStep(w, i);
    if i > 0 {
      SumPrefixStep(w, i - 1);
      assert cum[i - 1] <= x;
    }
    if i < |w| - 1 {
      assert x < cum[i];
    } else {
      assert w[..i + 1] == w;
    }
  }

  /** x falls into the chosen index's slice [Sum(w[..i]), Sum(w[..i+1])) of the running totals. */
  lemma ChooseInSlice(w: seq<real>, x: real)
    requires |w| > 0 && NonNegative(w)
    requires 0.0 <= x < Sum(w)
    ensures Sum(w[..Choose(w, x)]) <= x < Sum(w[..Choose(w, x) + 1])
  {
    BisectSlice(w, x);
  }

  /** Running totals never decrease when the weights are non-negative. */
  lemma {:induction false} PrefixSumsMonotone(w: seq<real>, i: int, j: int)
    requires NonNegative(w)
    requires 0 <= i <= j <= |w|
    ensures Sum(w[..i]) <= Sum(w[..j])
    decreases j - i
  {
    if i < j {
      SumPrefixStep(w, j - 1);
      PrefixSumsMonotone(w, i, j - 1);
    }
  }

  /** Two slices of the running totals never overlap. */
  lemma SliceUnique(w: seq<real>, x: real, i: int, k: int)
    requires NonNegative(w)
    requires 0 <= i < |w| && Sum(w[..i]) <= x < Sum(w[..i + 1])
    requires 0 <= k < |w| && Sum(w[..k]) <= x < Sum(w[..k + 1])
    ensures i == k
  {
    if i < k {
      PrefixSumsMonotone(w, i + 1, k);
    } else if k < i {
      PrefixSumsMonotone(w, k + 1, i);
    }
  }

  /**
   * The slice condition determines the index: any index whose slice holds
   * the scaled draw is the one `Choose` returns.
   */
  lemma ChooseUnique(w: seq<real>, x: real, k: int)
    requires |w| > 0 && NonNegative(w)
    requires 0.0 <= x < Sum(w)
    requires 0 <= k < |w| && Sum(w[..k]) <= x < Sum(w[..k + 1])
    ensures Choose(w, x) == k
  {
    ChooseInSlice(w, x);
    SliceUnique(w, x, Choose(w, x), k);
  }
}
