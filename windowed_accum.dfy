/**
 * The window detector of `windowed_accum.py`.
 *
 * Each call is handed the buffered sample range `[start_id, end_id)`.  A
 * window opens at the first sample where IN0 is high and closes at the next
 * sample where IN0 is low; a window of at least `SAMPLE_COUNT_MIN` samples is
 * reported, a shorter one is dropped as a glitch.
 *
 * `stream[id]` is the IN0 bit of sample `id` (the device reports IN0 in the
 * current least-significant bit).  A reported window is the pair of sample
 * ids `(start, end)`; its statistics, the wall-clock timestamp and the
 * printing are not part of this model.
 */
module WindowedAccum {
  import opened Wrappers
  import opened NumPy

  /** Windows shorter than this many samples are dropped. */
  const SAMPLE_COUNT_MIN: int := 10

  /** `_process`: what a closed window `[s, e)` contributes to the report. */
  function Emit(s: int, e: int): (w: seq<(int, int)>)
    ensures |w| <= 1
    ensures |w| == 1 <==> e - s >= SAMPLE_COUNT_MIN
    ensures |w| == 1 ==> w[0] == (s, e)
  {
    if e - s < SAMPLE_COUNT_MIN then [] else [(s, e)]
  }

  // ---------------------------------------------------------------------------
  // The intended behaviour: one sample at a time
  // ---------------------------------------------------------------------------

  /** Detector state: the open window's first id, if any, and the windows reported so far. */
  datatype Det = Det(start: Option<int>, windows: seq<(int, int)>)

  const Init: Det := Det(None, [])

  /**
   * The effect of sample `id` with IN0 = `high`: a window is open afterwards
   * exactly when the sample is high, and a window is reported exactly when a
   * low sample closes one at least `SAMPLE_COUNT_MIN` samples long.
   */
  function Step(d: Det, id: int, high: bool): (r: Det)
    ensures r.start.Some? <==> high
    ensures d.start.None? && high ==> r.start == Some(id)
    ensures d.windows <= r.windows
  {
    match d.start
    case None => if high then Det(Some(id), d.windows) else d
    case Some(s) => if high then d else Det(None, d.windows + Emit(s, id))
  }

  /** A sample that leaves the state as it is: low while idle, high while a window is open. */
  predicate Quiet(d: Det, high: bool) {
    d.start.Some? == high
  }

  /** The state after the samples `[a, b)`, one after the other. */
  function Fold(stream: seq<bool>, a: int, b: int, d: Det): (r: Det)
    requires 0 <= a <= b <= |stream|
    ensures d.windows <= r.windows
    ensures a < b ==> (r.start.Some? <==> stream[b - 1])
    decreases b - a
  {
    if a == b then d else Fold(stream, a + 1, b, Step(d, a, stream[a]))
  }

  /** Processing `[a, c)` in one go is processing `[a, b)` and then `[b, c)`. */
  lemma {:induction false} FoldSplit(stream: seq<bool>, a: int, b: int, c: int, d: Det)
    requires 0 <= a <= b <= c <= |stream|
    ensures Fold(stream, a, c, d) == Fold(stream, b, c, Fold(stream, a, b, d))
    decreases b - a
  {
    if a < b {
      FoldSplit(stream, a + 1, b, c, Step(d, a, stream[a]));
    }
  }

  /** One more sample. */
  lemma FoldNext(stream: seq<bool>, a: int, b: int, d: Det)
    requires 0 <= a <= b < |stream|
    ensures Fold(stream, a, b + 1, d) == Step(Fold(stream, a, b, d), b, stream[b])
  {
    FoldSplit(stream, a, b, b + 1, d);
  }

  /** A run of quiet samples changes nothing. */
  lemma {:induction false} FoldQuiet(stream: seq<bool>, a: int, b: int, d: Det)
    requires 0 <= a <= b <= |stream|
    requires forall j :: a <= j < b ==> Quiet(d, stream[j])
    ensures Fold(stream, a, b, d) == d
    decreases b - a
  {
    if a < b {
      assert Step(d, a, stream[a]) == d;
      FoldQuiet(stream, a + 1, b, d);
    }
  }

  /**
   * Every window the detector reports, from the first sample `from` on, is a
   * run of at least `SAMPLE_COUNT_MIN` high samples that ends at a low sample
   * and starts at `from` or just after a low sample.
   */
  ghost predicate HighRun(stream: seq<bool>, from: int, w: (int, int)) {
    && 0 <= from <= w.0
    && w.0 + SAMPLE_COUNT_MIN <= w.1 < |stream|
    && !stream[w.1]
    && (w.0 == from || !stream[w.0 - 1])
    && forall j :: w.0 <= j < w.1 ==> stream[j]
  }

  ghost predicate RunsSoFar(stream: seq<bool>, from: int, pos: int, d: Det) {
    && (forall k :: 0 <= k < |d.windows| ==> HighRun(stream, from, d.windows[k]))
    && (d.start.Some? ==>
          && 0 <= from <= d.start.value < pos <= |stream|
          && (d.start.value == from || !stream[d.start.value - 1])
          && forall j :: d.start.value <= j < pos ==> stream[j])
  }

  lemma {:induction false} FoldKeepsRuns(stream: seq<bool>, from: int, a: int, b: int, d: Det)
    requires 0 <= from <= a <= b <= |stream|
    requires RunsSoFar(stream, from, a, d)
    requires a > from ==> (d.start.None? ==> !stream[a - 1])
    ensures RunsSoFar(stream, from, b, Fold(stream, a, b, d))
    ensures d.windows <= Fold(stream, a, b, d).windows
    decreases b - a
  {
    if a < b {
      var d' := Step(d, a, stream[a]);
      if d.start.Some? && !stream[a] {
        assert HighRun(stream, from, (d.start.value, a)) || a - d.start.value < SAMPLE_COUNT_MIN;
        assert forall k :: 0 <= k < |d'.windows| ==> HighRun(stream, from, d'.windows[k]);
      }
      FoldKeepsRuns(stream, from, a + 1, b, d');
    }
  }

  /** The windows reported for the samples `[from, to)` are maximal runs of high samples, each long enough. */
  lemma WindowsAreHighRuns(stream: seq<bool>, from: int, to: int)
    requires 0 <= from <= to <= |stream|
    ensures forall k :: 0 <= k < |Fold(stream, from, to, Init).windows| ==>
      HighRun(stream, from, Fold(stream, from, to, Init).windows[k])
  {
    FoldKeepsRuns(stream, from, from, to, Init);
  }

  /**
   * Conversely, every run of at least `SAMPLE_COUNT_MIN` high samples that
   * starts at `from` or after a low sample, and ends at a low sample before
   * `to`, is reported.
   */
  lemma LongRunsAreReported(stream: seq<bool>, from: int, to: int, w: (int, int))
    requires 0 <= from <= to <= |stream|
    requires HighRun(stream, from, w) && w.1 < to
    ensures w in Fold(stream, from, to, Init).windows
  {
    var d0 := Fold(stream, from, w.0, Init);
    assert d0.start.None?;
    FoldSplit(stream, from, w.0, to, Init);
    var d1 := Step(d0, w.0, stream[w.0]);
    assert d1 == Det(Some(w.0), d0.windows);
    FoldSplit(stream, w.0, w.0 + 1, to, d0);
    FoldQuiet(stream, w.0 + 1, w.1, d1);
    FoldSplit(stream, w.0 + 1, w.1, to, d1);
    var d2 := Step(d1, w.1, stream[w.1]);
    assert d2.windows == d0.windows + [w];
    FoldSplit(stream, w.1, w.1 + 1, to, d1);
    assert d2.windows[|d0.windows|] == w;
  }

  /** Windows in strictly increasing order: each ends before the next starts. */
  ghost predicate Ordered(ws: seq<(int, int)>) {
    forall j, k :: 0 <= j < k < |ws| ==> ws[j].1 < ws[k].0
  }

  /** The reports so far are ordered, each ends before `pos`, and an open window starts after all of them. */
  ghost predicate InOrder(d: Det, pos: int) {
    && Ordered(d.windows)
    && (forall k :: 0 <= k < |d.windows| ==> d.windows[k].0 < d.windows[k].1 < pos)
    && (d.start.Some? ==> d.start.value < pos && forall k :: 0 <= k < |d.windows| ==> d.windows[k].1 < d.start.value)
  }

  lemma {:induction false} FoldInOrder(stream: seq<bool>, a: int, b: int, d: Det)
    requires 0 <= a <= b <= |stream|
    requires InOrder(d, a)
    ensures InOrder(Fold(stream, a, b, d), b)
    decreases b - a
  {
    if a < b {
      var d' := Step(d, a, stream[a]);
      if |d'.windows| == |d.windows| + 1 {
        assert d'.windows == d.windows + [(d.start.value, a)];
      }
      assert InOrder(d', a + 1);
      FoldInOrder(stream, a + 1, b, d');
    }
  }

  /**
   * The reports for `[from, to)` are exactly the long high runs that close
   * before `to`, in increasing order, each reported once.
   */
  lemma WindowsAreLongRuns(stream: seq<bool>, from: int, to: int)
    requires 0 <= from <= to <= |stream|
    ensures var ws := Fold(stream, from, to, Init).windows;
      && (forall w :: w in ws <==> HighRun(stream, from, w) && w.1 < to)
      && Ordered(ws)
      && (forall j, k :: 0 <= j < k < |ws| ==> ws[j] != ws[k])
  {
    var ws := Fold(stream, from, to, Init).windows;
    FoldInOrder(stream, from, to, Init);
    WindowsAreHighRuns(stream, from, to);
    forall w
      ensures w in ws <==> HighRun(stream, from, w) && w.1 < to
    {
      if HighRun(stream, from, w) && w.1 < to {
        LongRunsAreReported(stream, from, to, w);
      }
    }
  }

  /**
   * The loop's position: the state `d` is the fold of the samples `[a, x)`, or
   * of `[a, x]` when sample `x` is the one that caused the last transition
   * (the loop resumes at the sample where the state changed).
   */
  ghost predicate Reached(stream: seq<bool>, a: int, x: int, d0: Det, d: Det)
    requires 0 <= a <= x <= |stream|
  {
    || d == Fold(stream, a, x, d0)
    || (x < |stream| && stream[x] == d.start.Some? && d == Fold(stream, a, x + 1, d0))
  }

  /**
   * From position `x`: when the samples `[x, y)` are all quiet for the
   * state, the state is the fold up to `y`.
   */
  lemma Settle(stream: seq<bool>, a: int, x: int, y: int, d0: Det, d: Det)
    requires 0 <= a <= x <= y <= |stream|
    requires Reached(stream, a, x, d0, d)
    requires forall j :: x <= j < y ==> Quiet(d, stream[j])
    requires x == y ==> y < |stream| && !Quiet(d, stream[y])
    ensures d == Fold(stream, a, y, d0)
  {
    if d == Fold(stream, a, x, d0) {
      FoldQuiet(stream, x, y, d);
      FoldSplit(stream, a, x, y, d0);
    } else {
      assert x < y;
      FoldQuiet(stream, x + 1, y, d);
      FoldSplit(stream, a, x + 1, y, d0);
    }
  }

  /** Taking the sample at `x` from the fold up to `x` reaches `x` with that sample as the last transition. */
  lemma Transit(stream: seq<bool>, a: int, x: int, d0: Det, d: Det)
    requires 0 <= a <= x < |stream| && d == Fold(stream, a, x, d0)
    ensures Reached(stream, a, x, d0, Step(d, x, stream[x]))
  {
    FoldNext(stream, a, x, d0);
  }

  // ---------------------------------------------------------------------------
  // The loop as written
  // ---------------------------------------------------------------------------

  /** Detector state between calls: `sample_id_last`, `sample_id_start` and the windows reported. */
  datatype Scan = Scan(last: Option<int>, start: Option<int>, windows: seq<(int, int)>)

  /** Orders the loop's states by how close the next transition is. */
  function Pending(start: Option<int>, gpi: seq<bool>): nat {
    if start.None? then 1 else if |gpi| > 0 && gpi[0] then 0 else 2
  }

  /**
   * The `while` loop of `__call__` as written: `startId` is the loop counter
   * `start_id`, `last` is `sample_id_last`, and `gpi` is the IN0 slice that
   * is supposed to begin at `last`.  Each pass drops `startId - enter`
   * samples from the front of `gpi`.
   */
  function ScanLoop(endId: int, startId: int, last: int, start: Option<int>,
                    gpi: seq<bool>, windows: seq<(int, int)>): (r: Scan)
    requires startId <= last <= endId && |gpi| <= endId - last
    ensures startId < endId ==> r.last == Some(endId)
    decreases (if startId < endId then 1 else 0), 3 * |gpi| + Pending(start, gpi)
  {
    if startId >= endId then Scan(Some(last), start, windows)
    else
      var enter := startId;
      var p := FirstWhere(gpi, true);
      var q := FirstWhere(gpi, false);
      var (start', windows', next) :=
        if start.None? then
          if p < |gpi| then (Some(last + p), windows, last + p) else (None, windows, endId)
        else if q < |gpi| then (None, windows + Emit(start.value, last + q), last + q)
        else (start, windows, endId);
      var consumed := next - enter;
      var gpi' := if consumed <= |gpi| then gpi[consumed..] else [];
      assert next < endId && consumed == 0 ==> Pending(start', gpi') < Pending(start, gpi);
      ScanLoop(endId, next, next, start', gpi', windows')
  }

  /**
   * `__call__` as written.  The IN0 slice is fetched from `sample_id_last`,
   * but the loop counter starts at the buffer's `start_id`, so the first pass
   * drops `sample_id_last - start_id` samples too many from the slice.
   */
  function CallAsWritten(stream: seq<bool>, bufStart: int, bufEnd: int, sc: Scan): (r: Scan)
    requires 0 <= bufStart && bufEnd <= |stream|
    requires sc.last.None? || bufStart <= sc.last.value
    ensures bufStart >= bufEnd || (sc.last.Some? && sc.last.value >= bufEnd) ==> r == sc
    ensures bufStart < bufEnd && !(sc.last.Some? && sc.last.value >= bufEnd) ==> r.last == Some(bufEnd)
  {
    if bufStart >= bufEnd then sc
    else if sc.last.Some? && sc.last.value >= bufEnd then sc
    else
      var last := if sc.last.None? then bufStart else sc.last.value;
      ScanLoop(bufEnd, bufStart, last, sc.start, stream[last..bufEnd], sc.windows)
  }

  /** IN0 high on `[lo, hi)` and low elsewhere. */
  function Pulse(n: nat, lo: int, hi: int): (g: seq<bool>)
    ensures |g| == n
  {
    seq(n, k => lo <= k < hi)
  }

  /**
   * IN0 is high on samples 10 to 24.  A first call sees `[0, 5)`, a second
   * call `[0, 30)`.  The loop as written reports the window `(10, 20)`: it
   * looks for the falling edge in a slice shifted by 5 samples.  One sample
   * at a time, the window is `(10, 25)`.
   */
  lemma MisalignedWindow()
    ensures var g := Pulse(30, 10, 25);
      CallAsWritten(g, 0, 30, CallAsWritten(g, 0, 5, Scan(None, None, []))).windows == [(10, 20)]
    ensures Fold(Pulse(30, 10, 25), 0, 30, Init).windows == [(10, 25)]
  {
    var g := Pulse(30, 10, 25);
    var first := CallAsWritten(g, 0, 5, Scan(None, None, []));
    assert g[0..5] == [false, false, false, false, false];
    assert FirstWhere(g[0..5], true) == 5;
    assert ScanLoop(5, 0, 0, None, g[0..5], []) == ScanLoop(5, 5, 5, None, [], []);
    assert first == Scan(Some(5), None, []);
    var gpi := g[5..30];
    assert FirstWhere(gpi, true) == 5 by {
      assert forall j :: 0 <= j < 5 ==> !gpi[j];
      assert gpi[5];
    }
    var gpi1 := gpi[10..];
    assert FirstWhere(gpi1, false) == 10 by {
      assert forall j :: 0 <= j < 10 ==> gpi1[j];
      assert !gpi1[10];
    }
    var gpi2 := gpi1[10..];
    assert |gpi2| == 5;
    assert FirstWhere(gpi2, true) == 5 by {
      assert forall j :: 0 <= j < 5 ==> !gpi2[j];
    }
    assert ScanLoop(30, 0, 5, None, gpi, []) == ScanLoop(30, 10, 10, Some(10), gpi1, []);
    assert |gpi1| == 15 && !gpi1[10];
    assert [] + Emit(10, 20) == [(10, 20)];
    assert ScanLoop(30, 10, 10, Some(10), gpi1, []) == ScanLoop(30, 20, 20, None, gpi2, [(10, 20)]);
    assert ScanLoop(30, 20, 20, None, gpi2, [(10, 20)]) == ScanLoop(30, 30, 30, None, [], [(10, 20)]);
    PulseWindow();
  }

  /** One sample at a time, the pulse on samples 10 to 24 is the window `(10, 25)`. */
  lemma PulseWindow()
    ensures Fold(Pulse(30, 10, 25), 0, 30, Init).windows == [(10, 25)]
  {
    var g := Pulse(30, 10, 25);
    FoldQuiet(g, 0, 10, Init);
    FoldSplit(g, 0, 10, 30, Init);
    var open := Det(Some(10), []);
    assert Step(Init, 10, g[10]) == open;
    FoldQuiet(g, 11, 25, open);
    FoldSplit(g, 10, 11, 30, Init);
    FoldSplit(g, 11, 25, 30, open);
    var closed := Det(None, [(10, 25)]);
    assert Step(open, 25, g[25]) == closed;
    FoldSplit(g, 25, 26, 30, open);
    FoldQuiet(g, 26, 30, closed);
  }

  // ---------------------------------------------------------------------------
  // The detector, with the loop counter starting where the slice starts
  // ---------------------------------------------------------------------------

  /** The CSV header written when an output file is given. */
  const CSV_HEADER: string := "#utc_timestamp,duration(s),charge(C),energy(J)"

  class WindowDetect {
    var sampleIdLast: Option<int>
    var sampleIdStart: Option<int>
    var windows: seq<(int, int)>     // every window passed to `_process` and reported
    var fileOpen: bool
    var fileLines: seq<string>       // what was written to the output file, other than reports
    ghost var first: int             // the first sample id ever processed

    /**
     * The detector's state is the sample-by-sample fold of everything it has
     * processed so far, over the stream `stream`.
     */
    ghost predicate Consistent(stream: seq<bool>)
      reads this
    {
      match sampleIdLast
      case None => sampleIdStart.None? && windows == []
      case Some(last) =>
        && 0 <= first <= last <= |stream|
        && Det(sampleIdStart, windows) == Fold(stream, first, last, Init)
    }

    /** `__init__`: nothing processed yet; the header goes to the file when one is given. */
    constructor (filename: Option<string>)
      ensures sampleIdLast.None? && sampleIdStart.None? && windows == []
      ensures fileOpen == filename.Some?
      ensures fileLines == if filename.Some? then [CSV_HEADER] else []
      ensures forall stream :: Consistent(stream)
    {
      sampleIdLast := None;
      sampleIdStart := None;
      windows := [];
      fileOpen := filename.Some?;
      fileLines := if filename.Some? then [CSV_HEADER] else [];
      first := 0;
    }

    /** `close`: the file is closed; a second close does nothing more. */
    method Close()
      modifies this
      ensures !fileOpen
      ensures sampleIdLast == old(sampleIdLast) && sampleIdStart == old(sampleIdStart)
      ensures windows == old(windows) && fileLines == old(fileLines)
    {
      if fileOpen {
        fileOpen := false;
      }
    }

    /** `_process`: report the window `[s, e)` unless it is shorter than `SAMPLE_COUNT_MIN`. */
    method Process(s: int, e: int)
      modifies this
      ensures windows == old(windows) + Emit(s, e)
      ensures sampleIdLast == old(sampleIdLast) && sampleIdStart == old(sampleIdStart)
      ensures fileOpen == old(fileOpen) && fileLines == old(fileLines) && first == old(first)
    {
      if e - s < SAMPLE_COUNT_MIN {
        return;
      }
      windows := windows + [(s, e)];
    }

    /**
     * One pass of the `while` loop of `__call__`, from `startId`: find the
     * next transition in `gpi`, the IN0 slice from `startId`, and take it.
     */
    method Pass(stream: seq<bool>, ghost a: int, ghost d0: Det, startId: int, bufEnd: int, gpi: seq<bool>)
        returns (next: int)
      requires 0 <= a <= startId < bufEnd <= |stream| && gpi == stream[startId..bufEnd]
      requires Reached(stream, a, startId, d0, Det(sampleIdStart, windows))
      modifies this
      ensures startId <= next <= bufEnd
      ensures Reached(stream, a, next, d0, Det(sampleIdStart, windows))
      ensures next == startId ==> Pending(sampleIdStart, stream[next..bufEnd]) < Pending(old(sampleIdStart), gpi)
      ensures next == bufEnd ==> Det(sampleIdStart, windows) == Fold(stream, a, bufEnd, d0)
      ensures old(windows) <= windows && sampleIdLast == old(sampleIdLast) && first == old(first)
      ensures fileOpen == old(fileOpen) && fileLines == old(fileLines)
    {
      if sampleIdStart.None? {
        var p := FirstWhere(gpi, true);
        if p < |gpi| {
          Settle(stream, a, startId, startId + p, d0, Det(sampleIdStart, windows));
          Transit(stream, a, startId + p, d0, Det(sampleIdStart, windows));
          sampleIdStart := Some(startId + p);
          next := startId + p;
        } else {
          Settle(stream, a, startId, bufEnd, d0, Det(sampleIdStart, windows));
          next := bufEnd;
        }
      } else {
        var q := FirstWhere(gpi, false);
        if q < |gpi| {
          Settle(stream, a, startId, startId + q, d0, Det(sampleIdStart, windows));
          Transit(stream, a, startId + q, d0, Det(sampleIdStart, windows));
          Process(sampleIdStart.value, startId + q);
          sampleIdStart := None;
          next := startId + q;
        } else {
          Settle(stream, a, startId, bufEnd, d0, Det(sampleIdStart, windows));
          next := bufEnd;
        }
      }
    }

    /**
     * `__call__`, with the loop counter starting at `sample_id_last`, where
     * the IN0 slice starts.  An empty range, or one already processed,
     * changes nothing; otherwise the state becomes the fold of the new
     * samples, so that how the stream is cut into calls does not matter.
     */
    method Call(stream: seq<bool>, bufStart: int, bufEnd: int)
      requires 0 <= bufStart && bufEnd <= |stream|
      requires Consistent(stream)
      modifies this
      ensures Consistent(stream)
      ensures old(windows) <= windows
      ensures fileOpen == old(fileOpen) && fileLines == old(fileLines)
      ensures bufStart >= bufEnd || (old(sampleIdLast).Some? && old(sampleIdLast).value >= bufEnd) ==>
        sampleIdLast == old(sampleIdLast) && sampleIdStart == old(sampleIdStart) && windows == old(windows)
      ensures bufStart < bufEnd && !(old(sampleIdLast).Some? && old(sampleIdLast).value >= bufEnd) ==>
        && sampleIdLast == Some(bufEnd)
        && Det(sampleIdStart, windows) ==
             Fold(stream, old(sampleIdLast).GetOr(bufStart), bufEnd, Det(old(sampleIdStart), old(windows)))
    {
      if bufStart >= bufEnd {
        return;
      }
      if sampleIdLast.None? {
        sampleIdLast := Some(bufStart);
        first := bufStart;
      } else if sampleIdLast.value >= bufEnd {
        return;
      }
      ghost var a := sampleIdLast.value;
      ghost var d0 := Det(sampleIdStart, windows);
      var startId := sampleIdLast.value;
      var gpi := stream[startId..bufEnd];
      while startId < bufEnd
        invariant a <= startId <= bufEnd
        invariant sampleIdLast == Some(startId)
        invariant gpi == stream[startId..bufEnd]
        invariant 0 <= first <= a && d0 == Fold(stream, first, a, Init)
        invariant old(windows) <= windows && fileOpen == old(fileOpen) && fileLines == old(fileLines)
        invariant Reached(stream, a, startId, d0, Det(sampleIdStart, windows))
        invariant startId == bufEnd ==> Det(sampleIdStart, windows) == Fold(stream, a, bufEnd, d0)
        decreases bufEnd - startId, Pending(sampleIdStart, gpi)
      {
        var enter := startId;
        startId := Pass(stream, a, d0, startId, bufEnd, gpi);
        var consumed := startId - enter;
        gpi := gpi[consumed..];
        sampleIdLast := Some(startId);
      }
      FoldSplit(stream, first, a, bufEnd, Init);
    }
  }
}
