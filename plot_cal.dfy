/**
 * `print_stats` of `plot_cal.py`: counts the non-finite current samples and
 * finds the runs of consecutive non-finite samples, after forcing the first
 * and the last sample to count as finite.
 */
module PlotCal {
  import opened Wrappers
  import opened NumPy

  /** A 32-bit float sample: a finite value, or NaN or an infinity. */
  datatype F32 = Finite(value: real) | NonFinite

  /** `np.isfinite` on the current column. */
  function Finiteness(data: seq<F32>): (fin: seq<bool>)
    ensures |fin| == |data|
    ensures forall i :: 0 <= i < |data| ==> fin[i] == data[i].Finite?
  {
    seq(|data|, i requires 0 <= i < |data| => data[i].Finite?)
  }

  /** The number of finite samples: `np.count_nonzero(is_finite)`. */
  function CountFinite(data: seq<F32>): (n: nat)
    ensures n <= |data|
    ensures n == |data| <==> forall i :: 0 <= i < |data| ==> data[i].Finite?
    decreases |data|
  {
    if data == [] then 0 else CountFinite(data[..|data| - 1]) + (if data[|data| - 1].Finite? then 1 else 0)
  }

  /** The number of NaN and infinite samples. */
  function CountNonFinite(data: seq<F32>): (n: nat)
    ensures n <= |data|
    ensures n == 0 <==> forall i :: 0 <= i < |data| ==> data[i].Finite?
    decreases |data|
  {
    if data == [] then 0 else CountNonFinite(data[..|data| - 1]) + (if data[|data| - 1].Finite? then 0 else 1)
  }

  /** Every sample is either finite or not: the two counts add up to the total. */
  lemma {:induction false} CountsAddUp(data: seq<F32>)
    ensures CountFinite(data) + CountNonFinite(data) == |data|
    decreases |data|
  {
    if data != [] {
      CountsAddUp(data[..|data| - 1]);
    }
  }

  /** `is_finite` after the first and the last entry are forced to true. */
  function Forced(fin: seq<bool>): (f: seq<bool>)
    requires |fin| > 0
    ensures |f| == |fin| && f[0] && f[|f| - 1]
    ensures forall i :: 0 < i < |fin| - 1 ==> f[i] == fin[i]
  {
    fin[0 := true][|fin| - 1 := true]
  }

  /** Finiteness does not change between `m` and `m + 1`. */
  predicate Steady(b: seq<bool>, m: int)
    requires 0 <= m < |b| - 1
  {
    b[m] == b[m + 1]
  }

  /** The indices from `i` on after which finiteness changes, ascending: `np.nonzero(np.diff(b))`. */
  function Changes(b: seq<bool>, i: nat): (r: seq<int>)
    ensures forall k :: 0 <= k < |r| ==> i <= r[k] < |b| - 1
    decreases |b| - i
  {
    if i >= |b| - 1 then []
    else if b[i] != b[i + 1] then [i] + Changes(b, i + 1)
    else Changes(b, i + 1)
  }

  /** Each index `Changes(b, i)` lists is one after which `b` changes. */
  lemma {:induction false} ChangesSound(b: seq<bool>, i: nat)
    ensures forall k :: 0 <= k < |Changes(b, i)| ==> b[Changes(b, i)[k]] != b[Changes(b, i)[k] + 1]
    decreases |b| - i
  {
    if i < |b| - 1 {
      ChangesSound(b, i + 1);
      var r, r' := Changes(b, i), Changes(b, i + 1);
      if b[i] != b[i + 1] {
        assert r == [i] + r';
        forall k | 0 < k < |r|
          ensures b[r[k]] != b[r[k] + 1]
        {
          assert r[k] == r'[k - 1];
        }
      }
    }
  }

  /** `Changes(b, i)` is strictly ascending. */
  lemma {:induction false} ChangesAscending(b: seq<bool>, i: nat)
    ensures forall k, l :: 0 <= k < l < |Changes(b, i)| ==> Changes(b, i)[k] < Changes(b, i)[l]
    decreases |b| - i
  {
    if i < |b| - 1 {
      ChangesAscending(b, i + 1);
      var r, r' := Changes(b, i), Changes(b, i + 1);
      if b[i] != b[i + 1] {
        assert r == [i] + r';
        forall k, l | 0 <= k < l < |r|
          ensures r[k] < r[l]
        {
          assert r[l] == r'[l - 1];
          if k > 0 {
            assert r[k] == r'[k - 1];
          }
        }
      }
    }
  }

  /** Every index `j >= i` after which `b` changes is listed in `Changes(b, i)`. */
  lemma {:induction false} ChangesComplete(b: seq<bool>, i: nat)
    ensures forall j :: i <= j < |b| - 1 && b[j] != b[j + 1] ==> j in Changes(b, i)
    decreases |b| - i
  {
    if i < |b| - 1 {
      ChangesComplete(b, i + 1);
    }
  }

  /**
   * The changes alternate: the even ones leave the value `b[i]`, the odd ones
   * return to it; so there is an even number of them exactly when `b` ends
   * with the value it starts with.
   */
  lemma {:induction false} ChangesAlternate(b: seq<bool>, i: nat)
    requires i < |b|
    ensures var r := Changes(b, i);
      forall k :: 0 <= k < |r| ==> b[r[k]] == (if k % 2 == 0 then b[i] else !b[i])
    ensures |Changes(b, i)| % 2 == 0 <==> b[i] == b[|b| - 1]
    decreases |b| - i
  {
    if i < |b| - 1 {
      ChangesAlternate(b, i + 1);
      var r, r' := Changes(b, i), Changes(b, i + 1);
      if b[i] != b[i + 1] {
        assert r == [i] + r';
        forall k | 0 <= k < |r|
          ensures b[r[k]] == (if k % 2 == 0 then b[i] else !b[i])
        {
          if k > 0 {
            assert r[k] == r'[k - 1];
            assert b[r'[k - 1]] == (if (k - 1) % 2 == 0 then b[i + 1] else !b[i + 1]);
            Parity(k - 1);
          }
        }
      }
    }
  }

  lemma Parity(k: int)
    ensures (k % 2 == 0) == ((k + 1) % 2 != 0)
    ensures (2 * k) % 2 == 0
  {
    var q, m := k / 2, k % 2;
    assert k == 2 * q + m && 0 <= m < 2;
    if m == 0 {
      assert k + 1 == 2 * q + 1;
    } else {
      assert k + 1 == 2 * (q + 1);
    }
  }

  /** Between two consecutive changes finiteness is steady. */
  lemma SteadyBetween(b: seq<bool>, j: int)
    requires 0 <= j < |Changes(b, 0)| - 1
    ensures var r := Changes(b, 0);
      forall m :: r[j] < m < r[j + 1] ==> Steady(b, m)
  {
    var r := Changes(b, 0);
    ChangesAscending(b, 0);
    ChangesComplete(b, 0);
    forall m | r[j] < m < r[j + 1]
      ensures Steady(b, m)
    {
      forall t | 0 <= t < |r|
        ensures r[t] != m
      {
        if t < j {
          assert r[t] < r[j];
        } else if t > j + 1 {
          assert r[j + 1] < r[t];
        }
      }
    }
  }

  /** A steady stretch has one value throughout. */
  lemma {:induction false} ConstantRun(b: seq<bool>, lo: int, hi: int)
    requires 0 <= lo < hi < |b|
    requires forall m :: lo < m < hi ==> Steady(b, m)
    ensures forall m :: lo < m <= hi ==> b[m] == b[lo + 1]
    decreases hi - lo
  {
    if hi > lo + 1 {
      ConstantRun(b, lo, hi - 1);
      assert Steady(b, hi - 1);
    }
  }

  /** `nan_edges`: where the forced finiteness of the samples changes. */
  function NanEdges(data: seq<F32>): seq<int>
    requires |data| > 0
  {
    Changes(Forced(Finiteness(data)), 0)
  }

  /** The edges are positions before the last sample, in strictly ascending order. */
  lemma NanEdgesAscending(data: seq<F32>)
    requires |data| > 0
    ensures var e := NanEdges(data);
      && (forall k :: 0 <= k < |e| ==> 0 <= e[k] < |data| - 1)
      && (forall k, l :: 0 <= k < l < |e| ==> e[k] < e[l])
  {
    ChangesAscending(Forced(Finiteness(data)), 0);
  }

  /** `nan_edges[1::2] - nan_edges[0::2]` over the `len(nan_edges) // 2` runs. */
  function RunLengths(edges: seq<int>): (lengths: seq<int>)
    ensures |lengths| == |edges| / 2
    ensures forall k :: 0 <= k < |lengths| ==> lengths[k] == edges[2 * k + 1] - edges[2 * k]
  {
    seq(|edges| / 2, k requires 0 <= k < |edges| / 2 => edges[2 * k + 1] - edges[2 * k])
  }

  /**
   * The edges pair up, and run `k` is a maximal stretch of `RunLengths[k] >= 1`
   * consecutive non-finite samples that does not touch either end of the data:
   * a finite sample at `nan_edges[2k]`, non-finite ones after it up to and
   * including `nan_edges[2k+1]`, and a finite one after that.
   */
  lemma NanRuns(data: seq<F32>)
    requires |data| > 0
    ensures |NanEdges(data)| % 2 == 0
    ensures var e, lengths := NanEdges(data), RunLengths(NanEdges(data));
      forall k :: 0 <= k < |lengths| ==>
        && lengths[k] >= 1
        && 0 <= e[2 * k] && e[2 * k + 1] + 1 < |data|
        && (e[2 * k] == 0 || data[e[2 * k]].Finite?)
        && (forall m :: e[2 * k] < m <= e[2 * k + 1] ==> data[m] == NonFinite)
        && (e[2 * k + 1] + 1 == |data| - 1 || data[e[2 * k + 1] + 1].Finite?)
  {
    ChangesAlternate(Forced(Finiteness(data)), 0);
    var e := NanEdges(data);
    forall k | 0 <= k < |RunLengths(e)|
      ensures RunLengths(e)[k] >= 1
      ensures 0 <= e[2 * k] && e[2 * k + 1] + 1 < |data|
      ensures e[2 * k] == 0 || data[e[2 * k]].Finite?
      ensures forall m :: e[2 * k] < m <= e[2 * k + 1] ==> data[m] == NonFinite
      ensures e[2 * k + 1] + 1 == |data| - 1 || data[e[2 * k + 1] + 1].Finite?
    {
      NanRun(data, k);
    }
  }

  lemma ForcedInterior(data: seq<F32>, m: int)
    requires 0 < m < |data| - 1
    ensures Forced(Finiteness(data))[m] == data[m].Finite?
  {
  }

  /**
   * In a sequence that starts true, run `k` of false entries lies between
   * change `2k` and change `2k+1`: true at the first, false after it up to
   * and including the second, true again after that.
   */
  lemma FalseRun(b: seq<bool>, k: int)
    requires |b| > 0 && b[0] && 0 <= k && 2 * k + 1 < |Changes(b, 0)|
    ensures var lo, hi := Changes(b, 0)[2 * k], Changes(b, 0)[2 * k + 1];
      lo < hi && b[lo] && b[hi + 1] && forall m :: lo < m <= hi ==> !b[m]
  {
    var e := Changes(b, 0);
    var lo, hi := e[2 * k], e[2 * k + 1];
    assert lo < hi by {
      ChangesAscending(b, 0);
    }
    assert b[lo] && !b[hi] by {
      ChangesAlternate(b, 0);
      Parity(2 * k);
    }
    assert b[hi + 1] by {
      ChangesSound(b, 0);
    }
    SteadyBetween(b, 2 * k);
    ConstantRun(b, lo, hi);
  }

  /** Run `k`: between the falling edge `e[2k]` and the rising edge `e[2k+1]` every sample is non-finite. */
  lemma NanRun(data: seq<F32>, k: int)
    requires |data| > 0 && 0 <= k && 2 * k + 1 < |NanEdges(data)|
    ensures var e := NanEdges(data);
      && e[2 * k] < e[2 * k + 1]
      && 0 <= e[2 * k] && e[2 * k + 1] + 1 < |data|
      && (e[2 * k] == 0 || data[e[2 * k]].Finite?)
      && (forall m :: e[2 * k] < m <= e[2 * k + 1] ==> data[m] == NonFinite)
      && (e[2 * k + 1] + 1 == |data| - 1 || data[e[2 * k + 1] + 1].Finite?)
  {
    var b := Forced(Finiteness(data));
    var e := Changes(b, 0);
    var lo, hi := e[2 * k], e[2 * k + 1];
    FalseRun(b, k);
    forall m | lo < m <= hi
      ensures data[m] == NonFinite
    {
      ForcedInterior(data, m);
    }
    if lo > 0 {
      ForcedInterior(data, lo);
    }
    if hi + 1 < |data| - 1 {
      ForcedInterior(data, hi + 1);
    }
  }

  /** The run-length statistics printed when there is at least one run; the standard deviation is not modelled. */
  datatype RunStats = RunStats(mean: real, min: real, max: real)

  function Reals(lengths: seq<int>): (vs: seq<real>)
    ensures |vs| == |lengths| && forall k :: 0 <= k < |vs| ==> vs[k] == lengths[k] as real
  {
    seq(|lengths|, k requires 0 <= k < |lengths| => lengths[k] as real)
  }

  /** The mean, shortest and longest of the run lengths: the mean lies between the extremes, which are lengths of actual runs. */
  function RunStatsOf(lengths: seq<int>): (st: RunStats)
    requires |lengths| > 0
    ensures st.min in Reals(lengths) && st.max in Reals(lengths)
    ensures st.min <= st.mean <= st.max
    ensures forall k :: 0 <= k < |lengths| ==> st.min <= lengths[k] as real <= st.max
  {
    var vs := Reals(lengths);
    MeanOf(vs);
    RunStats(Mean(vs), Minimum(vs), Maximum(vs))
  }

  /**
   * `print_stats`: counts the non-finite samples, then (on non-empty data)
   * forces both ends finite and measures the runs of non-finite samples,
   * whose statistics it reports only when there is at least one run.
   * Empty data raises IndexError at the forcing write.
   */
  method PrintStats(data: seq<F32>) returns (nonfinite: int, total: int, runs: Result<seq<int>>, stats: Option<RunStats>)
    ensures total == |data| && nonfinite == CountNonFinite(data)
    ensures |data| == 0 ==> runs == Err(IndexError)
    ensures |data| > 0 ==> runs == Ok(RunLengths(NanEdges(data)))
    ensures stats.Some? <==> runs.Ok? && |runs.value| > 0
    ensures stats.Some? ==> stats.value == RunStatsOf(runs.value) && stats.value.min >= 1.0
  {
    var isFinite := new bool[|data|](i requires 0 <= i < |data| => data[i].Finite?);
    assert isFinite[..] == Finiteness(data);
    var finite := CountTrue(isFinite);
    CountTrueOfFiniteness(data);
    CountsAddUp(data);
    total := |data|;
    nonfinite := total - finite;
    stats := None;
    if |data| == 0 {
      runs := Err(IndexError);
      return;
    }
    isFinite[0], isFinite[|data| - 1] := true, true;
    assert isFinite[..] == Forced(Finiteness(data));
    var nanEdges := Changes(isFinite[..], 0);
    var lengths := RunLengths(nanEdges);
    runs := Ok(lengths);
    if |lengths| > 0 {
      NanRuns(data);
      stats := Some(RunStatsOf(lengths));
    }
  }

  /** `np.count_nonzero` over the finiteness array. */
  method CountTrue(a: array<bool>) returns (n: int)
    ensures n == CountTrueOf(a[..])
  {
    n := 0;
    for i := 0 to a.Length
      invariant n == CountTrueOf(a[..i])
    {
      assert a[..i + 1][..i] == a[..i];
      if a[i] {
        n := n + 1;
      }
    }
    assert a[..a.Length] == a[..];
  }

  function CountTrueOf(b: seq<bool>): nat
    decreases |b|
  {
    if b == [] then 0 else CountTrueOf(b[..|b| - 1]) + (if b[|b| - 1] then 1 else 0)
  }

  /** Counting true entries of `Finiteness(data)` is counting finite samples. */
  lemma {:induction false} CountTrueOfFiniteness(data: seq<F32>)
    ensures CountTrueOf(Finiteness(data)) == CountFinite(data)
    decreases |data|
  {
    if data != [] {
      var init := data[..|data| - 1];
      assert Finiteness(data)[..|data| - 1] == Finiteness(init);
      CountTrueOfFiniteness(init);
    }
  }
}
