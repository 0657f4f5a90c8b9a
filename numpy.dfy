/** The few numpy reductions that the scripts use. */
module NumPy {

  /**
   * Index of the first element equal to `v`, or `|g|` when there is none.
   * For a non-empty boolean array that holds `v`, this is `argmax(g)` for
   * `v` true and `argmin(g)` for `v` false; on a string it is the position
   * `str.find` reports, or the length.
   */
  function FirstWhere<T(==)>(g: seq<T>, v: T): (k: nat)
    ensures k <= |g|
    ensures forall j :: 0 <= j < k ==> g[j] != v
    ensures k < |g| ==> g[k] == v
  {
    if |g| == 0 then 0 else if g[0] == v then 0 else 1 + FirstWhere(g[1..], v)
  }

  // ---------------------------------------------------------------------------
  // Reductions over real arrays: np.sum, np.min, np.max
  // ---------------------------------------------------------------------------

  /** `np.sum(vs)`. */
  function Sum(vs: seq<real>): real {
    if vs == [] then 0.0 else vs[0] + Sum(vs[1..])
  }

  lemma {:induction false} SumConcat(a: seq<real>, b: seq<real>)
    ensures Sum(a + b) == Sum(a) + Sum(b)
  {
    if a != [] {
      assert (a + b)[1..] == a[1..] + b;
      SumConcat(a[1..], b);
    } else {
      assert a + b == b;
    }
  }

  /** `np.min(vs)`. */
  function Minimum(vs: seq<real>): (m: real)
    requires |vs| > 0
    ensures m in vs
    ensures forall k :: 0 <= k < |vs| ==> m <= vs[k]
  {
    if |vs| == 1 then vs[0]
    else
      var rest := Minimum(vs[1..]);
      assert vs[1..][0] == vs[1];
      if vs[0] <= rest then vs[0] else rest
  }

  /** `np.max(vs)`. */
  function Maximum(vs: seq<real>): (m: real)
    requires |vs| > 0
    ensures m in vs
    ensures forall k :: 0 <= k < |vs| ==> vs[k] <= m
  {
    if |vs| == 1 then vs[0]
    else
      var rest := Maximum(vs[1..]);
      if vs[0] >= rest then vs[0] else rest
  }

  /** The sum of a sequence is at least its length times a lower bound of its elements. */
  lemma {:induction false} SumAtLeast(vs: seq<real>, lo: real)
    requires forall k :: 0 <= k < |vs| ==> lo <= vs[k]
    ensures |vs| as real * lo <= Sum(vs)
  {
    if vs != [] {
      SumAtLeast(vs[1..], lo);
      assert |vs| as real * lo == |vs[1..]| as real * lo + lo;
    }
  }

  /** The sum of a sequence is at most its length times an upper bound of its elements. */
  lemma {:induction false} SumAtMost(vs: seq<real>, hi: real)
    requires forall k :: 0 <= k < |vs| ==> vs[k] <= hi
    ensures Sum(vs) <= |vs| as real * hi
  {
    if vs != [] {
      SumAtMost(vs[1..], hi);
      assert |vs| as real * hi == |vs[1..]| as real * hi + hi;
    }
  }

  /** The mean of values that all lie between `lo` and `hi` lies between them too. */
  lemma MeanBounds(vs: seq<real>, lo: real, hi: real)
    requires |vs| > 0
    requires forall k :: 0 <= k < |vs| ==> lo <= vs[k] <= hi
    ensures lo <= Sum(vs) / |vs| as real <= hi
  {
    SumAtLeast(vs, lo);
    SumAtMost(vs, hi);
    MeanBetween(Sum(vs), |vs| as real, lo, hi);
  }

  /** Dividing a total bounded by `n * lo` and `n * hi` by `n` gives a value between `lo` and `hi`. */
  lemma MeanBetween(total: real, n: real, lo: real, hi: real)
    requires n > 0.0 && n * lo <= total <= n * hi
    ensures lo <= total / n <= hi
  {
    var m := total / n;
    assert m * n == total;
  }

  /** `np.mean(vs)`. */
  function Mean(vs: seq<real>): real
    requires |vs| > 0
  {
    Sum(vs) / |vs| as real
  }

  /** The mean times the number of values gives back their sum. */
  lemma MeanTimesCount(vs: seq<real>)
    requires |vs| > 0
    ensures Mean(vs) * |vs| as real == Sum(vs)
  {
    var n := |vs| as real;
    assert (Sum(vs) / n) * n == Sum(vs);
  }

  /** `np.mean(vs)` lies between `np.min(vs)` and `np.max(vs)`. */
  lemma MeanOf(vs: seq<real>)
    requires |vs| > 0
    ensures Minimum(vs) <= Mean(vs) <= Maximum(vs)
  {
    MeanBounds(vs, Minimum(vs), Maximum(vs));
  }
}
