/**
 * The triggered-window capture of `trigger.py`.
 *
 * A `Capture` is handed the buffered sample range `[start_id, end_id)` again
 * and again.  While idle it searches that range for the configured start
 * condition on a general-purpose input (GPI); while a window is open it feeds
 * samples to three `Signal` accumulators and integrates charge and energy,
 * until the end condition closes the window and one 17-field record is
 * emitted.
 *
 * Sample ids are the indices of `stream`, the whole history of the device's
 * output; a call only looks at the ids it is given.  Values are exact reals:
 * the source's fixed-point sums (scaled by 1e15, truncated per batch) are not
 * modelled.  Durations are given as sample counts, i.e. as the source's
 * `int(duration * sampling_frequency)`.
 */
module Trigger {
  import opened Wrappers
  import opened NumPy

  // ---------------------------------------------------------------------------
  // Samples, configuration and detectors
  // ---------------------------------------------------------------------------

  /** One output sample; `finite` is `isfinite(current)`, `in0`/`in1` are the two GPI bits. */
  datatype Sample = Sample(current: real, voltage: real, power: real, finite: bool, in0: bool, in1: bool)

  /** `--start_signal` / `--end_signal`. */
  datatype Channel = In0 | In1

  /** `--start` / `--end`: none, low, high, rising, falling, duration. */
  datatype Kind = NoTrigger | Low | High | Rising | Falling | Duration

  /**
   * The command-line options that drive the state machine.  `startDuration`
   * and `captureDuration` are in samples; `count` is the number of windows to
   * capture, 0 for no limit; `fs` is the output sampling frequency.
   */
  datatype Config = Config(
    start: Kind, startSignal: Channel, startDuration: int,
    end: Kind, endSignal: Channel, captureDuration: int,
    count: nat, fs: real)

  /**
   * Configurations for which the processing loop ends.  With both conditions
   * `duration` and both durations zero samples, the source re-opens and closes
   * a window at the same sample forever; a negative duration can do the same.
   */
  predicate ValidConfig(cfg: Config) {
    && cfg.fs > 0.0
    && (cfg.start == Duration ==> cfg.startDuration >= 0)
    && (cfg.end == Duration ==> cfg.captureDuration >= 0)
    && !(cfg.start == Duration && cfg.end == Duration && cfg.startDuration == 0 && cfg.captureDuration == 0)
  }

  /** Every window ends strictly after it starts, unless a zero-sample capture duration is used. */
  predicate StrictEnd(cfg: Config) {
    cfg.end != Duration || cfg.captureDuration >= 1
  }

  /** The GPI bits of `ch` for the sample ids `[s, e)`: the source's `samples_get(s, e, fields=...)`. */
  function Gpi(stream: seq<Sample>, ch: Channel, s: int, e: int): (g: seq<bool>)
    requires 0 <= s <= e <= |stream|
    ensures |g| == e - s
    ensures forall k :: 0 <= k < |g| ==> g[k] == (if ch == In0 then stream[s + k].in0 else stream[s + k].in1)
  {
    seq(e - s, k requires 0 <= k < e - s => if ch == In0 then stream[s + k].in0 else stream[s + k].in1)
  }

  /** `_in_level_low`: the id of the first low sample of the slice starting at id `s`. */
  function InLevelLow(g: seq<bool>, s: int): (r: Option<int>)
    ensures r.Some? <==> exists k :: 0 <= k < |g| && !g[k]
    ensures r.Some? ==> s <= r.value < s + |g| && !g[r.value - s]
    ensures r.Some? ==> forall j :: 0 <= j < r.value - s ==> g[j]
  {
    var k := FirstWhere(g, false);
    if k < |g| then Some(s + k) else None
  }

  /** `_in_level_high`: the id of the first high sample of the slice starting at id `s`. */
  function InLevelHigh(g: seq<bool>, s: int): (r: Option<int>)
    ensures r.Some? <==> exists k :: 0 <= k < |g| && g[k]
    ensures r.Some? ==> s <= r.value < s + |g| && g[r.value - s]
    ensures r.Some? ==> forall j :: 0 <= j < r.value - s ==> !g[j]
  {
    var k := FirstWhere(g, true);
    if k < |g| then Some(s + k) else None
  }

  /** A transition from `!v` at `k` to `v` at `k + 1`: a rising edge for `v`, a falling one for `!v`. */
  predicate EdgeAt(g: seq<bool>, k: int, v: bool) {
    0 <= k < |g| - 1 && g[k] != v && g[k + 1] == v
  }

  /** The first transition to `v` at or after index `i`. */
  function FirstEdgeFrom(g: seq<bool>, v: bool, i: nat): (r: Option<nat>)
    ensures r.Some? ==> i <= r.value && EdgeAt(g, r.value, v)
    ensures r.Some? ==> forall j :: i <= j < r.value ==> !EdgeAt(g, j, v)
    ensures r.None? ==> forall j :: i <= j ==> !EdgeAt(g, j, v)
    decreases |g| - i
  {
    if i + 1 >= |g| then None
    else if EdgeAt(g, i, v) then Some(i)
    else FirstEdgeFrom(g, v, i + 1)
  }

  /** The first transition to `v`, as `argmax(diff(gpi))` (or argmin) finds it. */
  function FirstEdge(g: seq<bool>, v: bool): (r: Option<nat>)
    ensures r.Some? <==> exists k :: EdgeAt(g, k, v)
    ensures r.Some? ==> EdgeAt(g, r.value, v) && forall j :: 0 <= j < r.value ==> !EdgeAt(g, j, v)
  {
    FirstEdgeFrom(g, v, 0)
  }

  /**
   * `_in_edge_rising` (`v` true) and `_in_edge_falling` (`v` false).  At the
   * very start of the stream (`s <= 0`) a first sample already at `v` counts
   * as the edge.  Otherwise the result is the id of the sample BEFORE the
   * first transition inside the slice; the sample before `s` is never looked at.
   */
  function InEdge(g: seq<bool>, s: int, v: bool): (r: Option<int>)
    requires s <= 0 ==> |g| > 0
    ensures s <= 0 && g[0] == v ==> r == Some(s)
    ensures !(s <= 0 && g[0] == v) ==> (r.Some? <==> exists k :: EdgeAt(g, k, v))
    ensures !(s <= 0 && g[0] == v) && r.Some? ==>
      EdgeAt(g, r.value - s, v) && forall j :: 0 <= j < r.value - s ==> !EdgeAt(g, j, v)
    ensures r.Some? ==> s <= r.value < s + |g|
  {
    if s <= 0 && g[0] == v then Some(s)
    else match FirstEdge(g, v)
      case Some(k) => Some(s + k)
      case None => None
  }

  /**
   * An edge that falls exactly between two batches is reported by neither:
   * `[0, m)` is all low, `[m, n)` all high; one call over `[0, n)` finds the
   * rising edge at `m - 1`, two calls over `[0, m)` and `[m, n)` find nothing.
   */
  lemma EdgeAcrossBatchesIsMissed(g: seq<bool>, m: int)
    requires 0 < m < |g|
    requires forall j :: 0 <= j < m ==> !g[j]
    requires forall j :: m <= j < |g| ==> g[j]
    ensures InEdge(g, 0, true) == Some(m - 1)
    ensures InEdge(g[..m], 0, true) == None
    ensures InEdge(g[m..], m, true) == None
  {
    assert EdgeAt(g, m - 1, true);
    assert forall k :: !EdgeAt(g[..m], k, true);
    assert forall k :: !EdgeAt(g[m..], k, true);
  }

  // ---------------------------------------------------------------------------
  // Start and end conditions
  // ---------------------------------------------------------------------------

  /**
   * `_start_*`: where the start condition first holds in `[s, e)`, if
   * anywhere.  `none` fires at once; `duration` fires `startDuration`
   * samples after `prevEnd`, the end of the previous window.
   */
  function StartAt(cfg: Config, stream: seq<Sample>, s: int, e: int, prevEnd: int): (r: Option<int>)
    requires 0 <= s < e <= |stream|
    ensures r.Some? ==> r.value < e
    ensures r.Some? && cfg.start != Duration ==> s <= r.value
    ensures r.Some? && cfg.start == Duration ==> r.value == prevEnd + cfg.startDuration
    ensures cfg.start == Duration ==> (r.Some? <==> e > prevEnd + cfg.startDuration)
    ensures cfg.start == NoTrigger ==> r == Some(s)
  {
    var g := Gpi(stream, cfg.startSignal, s, e);
    match cfg.start
    case NoTrigger => Some(s)
    case Low => InLevelLow(g, s)
    case High => InLevelHigh(g, s)
    case Rising => InEdge(g, s, true)
    case Falling => InEdge(g, s, false)
    case Duration =>
      var d := prevEnd + cfg.startDuration;
      if e > d then Some(d) else None
  }

  /**
   * `_end_*`: where the end condition first holds in `[s, e)`, if anywhere,
   * for a window opened at `opened`.  `none` never fires; `duration` fires
   * `captureDuration` samples after `openId`.
   */
  function EndAt(cfg: Config, stream: seq<Sample>, s: int, e: int, openId: int): (r: Option<int>)
    requires 0 <= s < e <= |stream|
    ensures r.Some? ==> r.value < e
    ensures r.Some? && cfg.end != Duration ==> s <= r.value
    ensures r.Some? && cfg.end == Duration ==> r.value == openId + cfg.captureDuration
    ensures cfg.end == Duration ==> (r.Some? <==> e > openId + cfg.captureDuration)
    ensures cfg.end == NoTrigger ==> r.None?
  {
    var g := Gpi(stream, cfg.endSignal, s, e);
    match cfg.end
    case NoTrigger => None
    case Low => InLevelLow(g, s)
    case High => InLevelHigh(g, s)
    case Rising => InEdge(g, s, true)
    case Falling => InEdge(g, s, false)
    case Duration =>
      var d := openId + cfg.captureDuration;
      if e > d then Some(d) else None
  }

  /** The id `duration` counts from: the end of the previous window, or, before any window, the first id searched. */
  function PrevEnd(timeEnd: Option<Stamp>, s: int): int {
    if timeEnd.Some? then timeEnd.value.id else s
  }

  // ---------------------------------------------------------------------------
  // Signal: running mean, min, max
  // ---------------------------------------------------------------------------

  /** `Signal.result()`: mean, min and max, each `None` before anything was added. */
  datatype Summary = Summary(mean: Option<real>, min: Option<real>, max: Option<real>)

  /** What `Signal.result()` reports after the values `vs` were added (SummaryBounds says what it means). */
  function SummaryOf(vs: seq<real>): (s: Summary)
    ensures s.mean.None? <==> vs == []
  {
    if vs == [] then Summary(None, None, None)
    else Summary(Some(Mean(vs)), Some(Minimum(vs)), Some(Maximum(vs)))
  }

  /**
   * The summary of no values is three `None`.  Otherwise its minimum and
   * maximum are values that bound all the others, and its mean is the
   * average, which lies between them.
   */
  lemma SummaryBounds(vs: seq<real>)
    ensures vs == [] ==> SummaryOf(vs) == Summary(None, None, None)
    ensures vs != [] ==> var s := SummaryOf(vs);
      && s.mean.Some? && s.min.Some? && s.max.Some?
      && s.mean.value == Mean(vs)
      && s.min.value in vs && s.max.value in vs
      && (forall k :: 0 <= k < |vs| ==> s.min.value <= vs[k] <= s.max.value)
      && s.min.value <= s.mean.value <= s.max.value
  {
    if vs != [] {
      MeanOf(vs);
    }
  }

  /** `length`, `total`, `min` and `max` are the count, sum and extremes of `values`. */
  ghost predicate Summarises(values: seq<real>, length: nat, total: real, min: Option<real>, max: Option<real>) {
    && length == |values|
    && total == Sum(values)
    && (min.None? <==> values == [])
    && (max.None? <==> values == [])
    && (min.Some? ==> min.value in values && forall x :: x in values ==> min.value <= x)
    && (max.Some? ==> max.value in values && forall x :: x in values ==> x <= max.value)
  }

  /** The accumulator for one of current, voltage and power over the open window. */
  class Signal {
    var total: real       // the source's `_mean`: the running sum
    var min: Option<real>
    var max: Option<real>
    var length: nat
    ghost var values: seq<real>   // everything added since the last clear

    ghost predicate Valid()
      reads this
    {
      Summarises(values, length, total, min, max)
    }

    constructor ()
      ensures Valid() && values == []
    {
      total, min, max, length := 0.0, None, None, 0;
      values := [];
    }

    /** `clear`: back to the empty accumulator. */
    method Clear()
      modifies this
      ensures Valid() && values == []
    {
      total, min, max, length := 0.0, None, None, 0;
      values := [];
    }

    /** `add`: fold a non-empty batch into the sum, the extremes and the count. */
    method Add(v: seq<real>)
      requires Valid() && |v| > 0
      modifies this
      ensures Valid() && values == old(values) + v
      ensures total == old(total) + Sum(v)
    {
      SumConcat(values, v);
      total := total + Sum(v);
      var vMin := Minimum(v);
      var vMax := Maximum(v);
      if min.None? {
        min, max := Some(vMin), Some(vMax);
      } else {
        min := Some(if min.value <= vMin then min.value else vMin);
        max := Some(if max.value >= vMax then max.value else vMax);
      }
      length := length + |v|;
      values := values + v;
    }

    /**
     * `result`: the mean is `None` until something is added; afterwards it is
     * the average of everything added and lies between the minimum and the maximum.
     */
    function Result(): (r: Summary)
      requires Valid()
      reads this
      ensures r.mean.None? <==> values == []
      ensures r.min.None? <==> values == []
      ensures r == SummaryOf(values)
    {
      if length <= 0 then Summary(None, min, max)
      else
        assert min.value == Minimum(values) && max.value == Maximum(values) by {
          var i :| 0 <= i < |values| && values[i] == min.value;
          var j :| 0 <= j < |values| && values[j] == max.value;
        }
        Summary(Some(total / length as real), min, max)
    }

    /** The mean is the average of everything added, and it lies between the minimum and the maximum. */
    lemma MeanLiesBetween()
      requires Valid()
      ensures Result().mean.Some? ==> Result().mean.value == Mean(values)
      ensures Result().mean.Some? ==>
        Result().min.Some? && Result().max.Some? && Result().min.value <= Result().mean.value <= Result().max.value
    {
      SummaryBounds(values);
    }
  }

  // ---------------------------------------------------------------------------
  // Records
  // ---------------------------------------------------------------------------

  /** A sample id with the wall-clock time (ISO 8601) at which it was reached. */
  datatype Stamp = Stamp(id: int, time: string)

  /** What `stop` reports for one window. */
  datatype WindowRecord = WindowRecord(
    start: Stamp, end: Stamp,
    current: Summary, voltage: Summary, power: Summary,
    charge: real, energy: real)

  /**
   * The record `stop` emits for a window opened at `start` and closed at
   * `end`, whose accumulators were fed the finite samples `seen`: the
   * summaries of their currents, voltages and powers, and the charge and
   * energy that integrate current and power over the sampling period.
   */
  function Window(cfg: Config, start: Stamp, end: Stamp, seen: seq<Sample>): WindowRecord
    requires cfg.fs > 0.0
  {
    WindowRecord(start, end, SummaryOf(Currents(seen)), SummaryOf(Voltages(seen)), SummaryOf(Powers(seen)),
      Sum(Currents(seen)) / cfg.fs, Sum(Powers(seen)) / cfg.fs)
  }

  /**
   * A window as the processing loop closes it: where it opened and closed,
   * and the finite samples fed to its accumulators.  `stop` turns it into
   * the record `Window` computes.
   */
  datatype Span = Span(start: Stamp, end: Stamp, seen: seq<Sample>)

  /** The record `stop` emits for the closed window `w`. */
  function RecordOf(cfg: Config, w: Span): WindowRecord
    requires cfg.fs > 0.0
  {
    Window(cfg, w.start, w.end, w.seen)
  }

  /** A record whose summaries, charge and energy are those of `seen` is the window of `seen`. */
  lemma WindowOfResults(cfg: Config, start: Stamp, end: Stamp, seen: seq<Sample>, r: WindowRecord)
    requires cfg.fs > 0.0 && r.start == start && r.end == end
    requires r.current == SummaryOf(Currents(seen)) && r.voltage == SummaryOf(Voltages(seen))
    requires r.power == SummaryOf(Powers(seen))
    requires r.charge == Sum(Currents(seen)) / cfg.fs && r.energy == Sum(Powers(seen)) / cfg.fs
    ensures r == Window(cfg, start, end, seen)
  {
  }

  /** The CSV columns, one name per field of an emitted line. */
  const COLUMN_NAMES: seq<string> := [
    "start_time(samples)", "start_time(iso)", "end_time(samples)", "end_time(iso)",
    "current_mean(A)", "current_min(A)", "current_max(A)",
    "voltage_mean(V)", "voltage_min(V)", "voltage_max(V)",
    "power_mean(W)", "power_min(W)", "power_max(W)",
    "charge(C)", "charge(Ah)",
    "energy(J)", "energy(Wh)"]

  /** One field of an emitted line: an integer, a string, a number printed with `%g`, or `NAN`. */
  datatype Cell = IntCell(i: int) | TextCell(s: string) | RealCell(x: real) | NanCell

  function OptionCell(v: Option<real>): (c: Cell)
    ensures c == NanCell <==> v.None?
  {
    match v
    case Some(x) => RealCell(x)
    case None => NanCell
  }

  function SummaryCells(s: Summary): (cs: seq<Cell>)
    ensures |cs| == 3
  {
    [OptionCell(s.mean), OptionCell(s.min), OptionCell(s.max)]
  }

  /** The fields of the line `stop` prints and appends to the CSV file. */
  function Cells(r: WindowRecord): (cs: seq<Cell>)
    ensures |cs| == |COLUMN_NAMES|
    ensures cs[0] == IntCell(r.start.id) && cs[2] == IntCell(r.end.id)
    ensures cs[4] == OptionCell(r.current.mean) && cs[7] == OptionCell(r.voltage.mean) && cs[10] == OptionCell(r.power.mean)
  {
    [IntCell(r.start.id), TextCell(r.start.time), IntCell(r.end.id), TextCell(r.end.time)]
    + SummaryCells(r.current) + SummaryCells(r.voltage) + SummaryCells(r.power)
    + [RealCell(r.charge), RealCell(r.charge / 3600.0), RealCell(r.energy), RealCell(r.energy / 3600.0)]
  }

  /**
   * Every line has one field per column; ampere-hours and watt-hours are the
   * coulombs and joules divided by 3600; a missing mean, minimum or maximum
   * is printed as NAN.
   */
  lemma CellsMatchColumns(r: WindowRecord)
    ensures |Cells(r)| == |COLUMN_NAMES| == 17
    ensures Cells(r)[13] == RealCell(r.charge) && Cells(r)[14] == RealCell(r.charge / 3600.0)
    ensures Cells(r)[15] == RealCell(r.energy) && Cells(r)[16] == RealCell(r.energy / 3600.0)
    ensures COLUMN_NAMES[13] == "charge(C)" && COLUMN_NAMES[14] == "charge(Ah)"
    ensures COLUMN_NAMES[15] == "energy(J)" && COLUMN_NAMES[16] == "energy(Wh)"
    ensures Cells(r)[4] == NanCell <==> r.current.mean.None?
    ensures Cells(r)[0] == IntCell(r.start.id) && Cells(r)[2] == IntCell(r.end.id)
  {
  }

  // ---------------------------------------------------------------------------
  // Selected samples
  // ---------------------------------------------------------------------------

  /** The samples of `ss` whose current is finite (`i_all[finite_idx]`); FiniteSelects and FiniteConcat say what it keeps. */
  function Finite(ss: seq<Sample>): (r: seq<Sample>)
    ensures |r| <= |ss|
  {
    if ss == [] then []
    else (if ss[0].finite then [ss[0]] else []) + Finite(ss[1..])
  }

  /** Every sample kept is finite and one of `ss`, and every finite sample of `ss` is kept. */
  lemma {:induction false} FiniteSelects(ss: seq<Sample>)
    ensures forall k :: 0 <= k < |Finite(ss)| ==> Finite(ss)[k].finite && Finite(ss)[k] in ss
    ensures forall k :: 0 <= k < |ss| && ss[k].finite ==> ss[k] in Finite(ss)
  {
    if ss != [] {
      FiniteSelects(ss[1..]);
      assert forall k :: 1 <= k < |ss| ==> ss[k] == ss[1..][k - 1];
    }
  }

  /** Selecting the finite samples of two batches one after the other is selecting those of both, in order. */
  lemma {:induction false} FiniteConcat(a: seq<Sample>, b: seq<Sample>)
    ensures Finite(a + b) == Finite(a) + Finite(b)
  {
    if a == [] {
      assert a + b == b;
    } else {
      assert (a + b)[0] == a[0];
      assert (a + b)[1..] == a[1..] + b;
      FiniteConcat(a[1..], b);
    }
  }

  function Currents(ss: seq<Sample>): (r: seq<real>)
    ensures |r| == |ss|
  {
    seq(|ss|, k requires 0 <= k < |ss| => ss[k].current)
  }

  function Voltages(ss: seq<Sample>): (r: seq<real>)
    ensures |r| == |ss|
  {
    seq(|ss|, k requires 0 <= k < |ss| => ss[k].voltage)
  }

  function Powers(ss: seq<Sample>): (r: seq<real>)
    ensures |r| == |ss|
  {
    seq(|ss|, k requires 0 <= k < |ss| => ss[k].power)
  }

  /** The three columns of two batches are the columns of each, one after the other. */
  lemma ColumnsConcat(a: seq<Sample>, b: seq<Sample>)
    ensures Currents(a + b) == Currents(a) + Currents(b)
    ensures Voltages(a + b) == Voltages(a) + Voltages(b)
    ensures Powers(a + b) == Powers(a) + Powers(b)
  {
  }

  /**
   * The samples that reach the statistics when the end condition holds at
   * `t` in a pass from `id`: the finite ones of `[id, t - 1)`, and none at all
   * unless that range holds at least two samples.
   */
  function FedBeforeTrigger(stream: seq<Sample>, id: int, t: int): seq<Sample>
    requires 0 <= id && t <= |stream|
  {
    if id + 2 < t then Finite(stream[id..t - 1]) else []
  }

  /** Ranges of sample ids `[lo, hi)`, each non-empty, all strictly after `after` and ending by `upTo`. */
  ghost predicate FedWithin(fed: seq<(int, int)>, after: int, upTo: int) {
    forall k :: 0 <= k < |fed| ==> after < fed[k].0 < fed[k].1 <= upTo
  }

  /** No sample id is fed twice: the ranges are in increasing order. */
  ghost predicate Increasing(fed: seq<(int, int)>) {
    forall j, k :: 0 <= j < k < |fed| ==> fed[j].1 <= fed[k].0
  }

  // ---------------------------------------------------------------------------
  // Termination measure of the processing loop
  // ---------------------------------------------------------------------------

  /** The smallest id at which the next trigger of the current state can fire. */
  function NextBound(cfg: Config, triggered: bool, startId: int, endId: int,
                     timeStart: Option<Stamp>, timeEnd: Option<Stamp>): int
  {
    if !triggered then
      if cfg.start == Duration then
        (if timeEnd.Some? then timeEnd.value.id else startId) + cfg.startDuration
      else startId
    else if cfg.end == NoTrigger then endId
    else if cfg.end == Duration && timeStart.Some? then timeStart.value.id + cfg.captureDuration
    else startId
  }

  function Phase(cfg: Config, triggered: bool): nat {
    if cfg.end == Duration && cfg.captureDuration == 0 then (if triggered then 0 else 1)
    else (if triggered then 1 else 0)
  }

  function Progress(cfg: Config, triggered: bool, startId: int, endId: int,
                    timeStart: Option<Stamp>, timeEnd: Option<Stamp>): nat
  {
    var b := NextBound(cfg, triggered, startId, endId, timeStart, timeEnd);
    if b <= endId then 2 * (endId - b) + Phase(cfg, triggered) else 0
  }

  // ---------------------------------------------------------------------------
  /** Opening a window at `t`, at or after the bound `b` of the idle state, lowers the measure. */
  lemma OpeningDecreases(cfg: Config, b: int, t: int, e: int, ts: Stamp, te: Option<Stamp>)
    requires ValidConfig(cfg) && b <= t < e && ts.id == t
    ensures Progress(cfg, true, t + 1, e, Some(ts), te) < 2 * (e - b) + Phase(cfg, false)
  {
  }

  /** Closing a window at `t`, at or after the bound `b` of the open state, lowers the measure. */
  lemma ClosingDecreases(cfg: Config, b: int, t: int, e: int, ts: Option<Stamp>, te: Stamp)
    requires ValidConfig(cfg) && cfg.end != NoTrigger && b <= t < e && te.id == t
    requires cfg.end == Duration ==> b == t
    ensures Progress(cfg, false, t + 1, e, ts, Some(te)) < 2 * (e - b) + Phase(cfg, true)
  {
  }

  // ---------------------------------------------------------------------------
  // The processing loop as a function of the stream
  // ---------------------------------------------------------------------------

  /**
   * The state of the loop: whether a window is open, where it opened, where
   * the last one ended, and the finite samples fed to the accumulators since
   * the last window opened.
   */
  datatype Control = Control(triggered: bool, timeStart: Option<Stamp>, timeEnd: Option<Stamp>, seen: seq<Sample>)

  /** An open window has a start, and every recorded id is a sample id. */
  predicate ControlOk(c: Control) {
    && (c.triggered ==> c.timeStart.Some?)
    && (c.timeStart.Some? ==> c.timeStart.value.id >= 0)
    && (c.timeEnd.Some? ==> c.timeEnd.value.id >= 0)
  }

  /**
   * One pass of the processing loop from `id`: the new state, the id the
   * loop goes on from, and the record of the window closed, if any.  Idle:
   * without a start trigger the capture stays idle up to `bufEnd`; a trigger
   * at `t` opens a window at `t`, with nothing seen yet, and the loop goes
   * on at `t + 1` (a `duration` start first records `id` as the end of a
   * previous window when there is none).  Open: without an end trigger the
   * finite samples of `[id, bufEnd)` are seen and the window stays open; a
   * trigger at `t` adds those of `FedBeforeTrigger`, closes the window at
   * `t` with the record of everything it saw, and the loop goes on at `t + 1`.
   */
  function Advance(cfg: Config, stream: seq<Sample>, c: Control, id: int, bufEnd: int, now: string)
    : (r: (Control, int, Option<Span>))
    requires cfg.fs > 0.0 && 0 <= id < bufEnd <= |stream| && (c.triggered ==> c.timeStart.Some?)
    ensures r.1 <= bufEnd
    ensures r.2.Some? ==> c.triggered && !r.0.triggered && r.2.value.start == c.timeStart.value
                          && r.0.timeEnd == Some(r.2.value.end) && r.2.value.end.id == r.1 - 1
    ensures r.2.None? && c.triggered ==>
      r.0.triggered && r.0.timeStart == c.timeStart && r.0.timeEnd == c.timeEnd && r.1 == bufEnd
    ensures ValidConfig(cfg) && ControlOk(c) ==> ControlOk(r.0) && 0 <= r.1
  {
    if !c.triggered then
      var te := if cfg.start == Duration && c.timeEnd.None? then Some(Stamp(id, now)) else c.timeEnd;
      match StartAt(cfg, stream, id, bufEnd, PrevEnd(c.timeEnd, id))
      case None => (c.(timeEnd := te), bufEnd, None)
      case Some(t) => (Control(true, Some(Stamp(t, now)), te, []), t + 1, None)
    else
      match EndAt(cfg, stream, id, bufEnd, c.timeStart.value.id)
      case None => (c.(seen := c.seen + Finite(stream[id..bufEnd])), bufEnd, None)
      case Some(t) =>
        var seen := c.seen + FedBeforeTrigger(stream, id, t);
        (Control(false, c.timeStart, Some(Stamp(t, now)), seen), t + 1,
         Some(Span(c.timeStart.value, Stamp(t, now), seen)))
  }

  /** The termination measure of the loop, on the control state. */
  function Measure(cfg: Config, c: Control, id: int, bufEnd: int): nat {
    Progress(cfg, c.triggered, id, bufEnd, c.timeStart, c.timeEnd)
  }

  /** A pass keeps the control state well formed, stays inside the batch, and either reaches its end or lowers the measure. */
  lemma AdvanceDecreases(cfg: Config, stream: seq<Sample>, c: Control, id: int, bufEnd: int, now: string)
    requires ValidConfig(cfg) && ControlOk(c) && 0 <= id < bufEnd <= |stream|
    ensures var r := Advance(cfg, stream, c, id, bufEnd, now);
      && ControlOk(r.0) && 0 <= r.1 <= bufEnd
      && (r.1 == bufEnd || Measure(cfg, r.0, r.1, bufEnd) < Measure(cfg, c, id, bufEnd))
  {
    var b := NextBound(cfg, c.triggered, id, bufEnd, c.timeStart, c.timeEnd);
    var r := Advance(cfg, stream, c, id, bufEnd, now);
    if !c.triggered {
      var t := StartAt(cfg, stream, id, bufEnd, PrevEnd(c.timeEnd, id));
      if t.Some? {
        OpeningDecreases(cfg, b, t.value, bufEnd, r.0.timeStart.value, r.0.timeEnd);
      }
    } else {
      var t := EndAt(cfg, stream, id, bufEnd, c.timeStart.value.id);
      if t.Some? {
        ClosingDecreases(cfg, b, t.value, bufEnd, r.0.timeStart, r.0.timeEnd.value);
      }
    }
  }

  /**
   * As written, with `duration` start and end conditions both of zero
   * samples, two passes from a window closed at `s` open and close another
   * window at `s` and come back to the same state at the same id: with no
   * `--count` limit the loop never ends.  `ValidConfig` excludes this
   * configuration, and `AdvanceDecreases` proves the loop ends for every
   * other one.
   */
  lemma ZeroDurationsCycle(cfg: Config, stream: seq<Sample>, s: int, bufEnd: int, now: string)
    requires cfg.start == Duration && cfg.end == Duration && cfg.startDuration == 0 && cfg.captureDuration == 0
    requires cfg.fs > 0.0
    requires 0 <= s && s + 1 < bufEnd <= |stream|
    ensures var c := Control(false, Some(Stamp(s, now)), Some(Stamp(s, now)), []);
      var a := Advance(cfg, stream, c, s + 1, bufEnd, now);
      && a == (Control(true, Some(Stamp(s, now)), Some(Stamp(s, now)), []), s + 1, None)
      && Advance(cfg, stream, a.0, a.1, bufEnd, now) == (c, s + 1, Some(Span(Stamp(s, now), Stamp(s, now), [])))
  {
    assert [] + FedBeforeTrigger(stream, s + 1, s + 1) == [];
  }

  /**
   * The processing loop of `__call__` over `[id, bufEnd)` as a function of
   * the stream: the final control state, the record of every window closed,
   * in order, and whether the loop stopped because `quota` more
   * windows had been emitted (`quota` is ignored when the configured count
   * is zero, that is, unlimited).
   */
  function Run(cfg: Config, stream: seq<Sample>, c: Control, id: int, bufEnd: int, now: string, quota: nat)
    : (r: (Control, seq<Span>, bool))
    requires ValidConfig(cfg) && ControlOk(c) && 0 <= id <= bufEnd <= |stream|
    requires cfg.count != 0 ==> quota > 0
    ensures r.2 ==> cfg.count != 0 && |r.1| == quota
    ensures !r.2 ==> cfg.count == 0 || |r.1| < quota
    ensures r.2 ==> !r.0.triggered
    decreases (if id < bufEnd then 1 else 0), Measure(cfg, c, id, bufEnd), 0
  {
    if id >= bufEnd then (c, [], false)
    else
      AdvanceDecreases(cfg, stream, c, id, bufEnd, now);
      Continue(cfg, stream, Advance(cfg, stream, c, id, bufEnd, now), bufEnd, now, quota)
  }

  /**
   * The rest of the loop after a pass `a`: it stops when the record `a`
   * emitted uses up the quota, and otherwise runs on from where `a` ended.
   */
  function Continue(cfg: Config, stream: seq<Sample>, a: (Control, int, Option<Span>), bufEnd: int,
                    now: string, quota: nat): (r: (Control, seq<Span>, bool))
    requires ValidConfig(cfg) && ControlOk(a.0) && 0 <= a.1 <= bufEnd <= |stream|
    requires cfg.count != 0 ==> quota > 0
    requires a.2.Some? ==> !a.0.triggered
    ensures r.2 ==> cfg.count != 0 && |r.1| == quota
    ensures !r.2 ==> cfg.count == 0 || |r.1| < quota
    ensures r.2 ==> !r.0.triggered
    decreases (if a.1 < bufEnd then 1 else 0), Measure(cfg, a.0, a.1, bufEnd), 1
  {
    var ws := if a.2.Some? then [a.2.value] else [];
    if cfg.count != 0 && |ws| == quota then (a.0, ws, true)
    else
      var rest := Run(cfg, stream, a.0, a.1, bufEnd, now, if cfg.count == 0 then 0 else quota - |ws|);
      (rest.0, ws + rest.1, rest.2)
  }

  /** The records from index `n` on are, in order, those of the windows `ws`. */
  ghost predicate Emits(cfg: Config, records: seq<WindowRecord>, n: int, ws: seq<Span>) {
    && cfg.fs > 0.0 && 0 <= n && |records| == n + |ws|
    && forall k :: 0 <= k < |ws| ==> records[n + k] == RecordOf(cfg, ws[k])
  }

  /** After a pass that leaves quota over, the rest of the run is the run from where the pass ended. */
  lemma RunGoesOn(cfg: Config, stream: seq<Sample>, c: Control, id: int, bufEnd: int, now: string, quota: nat,
                  whole: (Control, seq<Span>, bool), emitted: seq<Span>,
                  c': Control, id': int, quota': nat, ws: seq<Span>)
    requires ValidConfig(cfg) && ControlOk(c) && 0 <= id < bufEnd <= |stream|
    requires cfg.count != 0 ==> quota > 0
    requires var r := Run(cfg, stream, c, id, bufEnd, now, quota); whole == (r.0, emitted + r.1, r.2)
    requires var a := Advance(cfg, stream, c, id, bufEnd, now);
      && c' == a.0 && id' == a.1 && ws == (if a.2.Some? then [a.2.value] else [])
      && !(cfg.count != 0 && |ws| == quota)
      && quota' == (if cfg.count == 0 then 0 else quota - |ws|)
    ensures ControlOk(c') && 0 <= id' <= bufEnd && (cfg.count != 0 ==> quota' > 0)
    ensures var r := Run(cfg, stream, c', id', bufEnd, now, quota'); whole == (r.0, (emitted + ws) + r.1, r.2)
  {
    AdvanceDecreases(cfg, stream, c, id, bufEnd, now);
    RunUnfolds(cfg, stream, c, id, bufEnd, now, quota);
    var a := Advance(cfg, stream, c, id, bufEnd, now);
    ContinueGoesOn(cfg, stream, a, bufEnd, now, quota);
    assert a.0 == c' && a.1 == id';
    var r := Run(cfg, stream, c', id', bufEnd, now, quota');
    assert Run(cfg, stream, c, id, bufEnd, now, quota) == (r.0, ws + r.1, r.2);
    Regroup(emitted, ws, r.1);
  }

  /** A run that has reached the end of the batch emits nothing more. */
  lemma RunEnds(cfg: Config, stream: seq<Sample>, c: Control, bufEnd: int, now: string, quota: nat,
                whole: (Control, seq<Span>, bool), emitted: seq<Span>)
    requires ValidConfig(cfg) && ControlOk(c) && 0 <= bufEnd <= |stream|
    requires cfg.count != 0 ==> quota > 0
    requires var r := Run(cfg, stream, c, bufEnd, bufEnd, now, quota); whole == (r.0, emitted + r.1, r.2)
    ensures whole == (c, emitted, false)
  {
    assert emitted + [] == emitted;
  }

  lemma Regroup<T>(a: seq<T>, b: seq<T>, c: seq<T>)
    ensures a + (b + c) == (a + b) + c
  {
  }

  /** From below `bufEnd`, the run is one pass and what continues from it. */
  lemma RunUnfolds(cfg: Config, stream: seq<Sample>, c: Control, id: int, bufEnd: int, now: string, quota: nat)
    requires ValidConfig(cfg) && ControlOk(c) && 0 <= id < bufEnd <= |stream|
    requires cfg.count != 0 ==> quota > 0
    ensures Run(cfg, stream, c, id, bufEnd, now, quota)
         == Continue(cfg, stream, Advance(cfg, stream, c, id, bufEnd, now), bufEnd, now, quota)
  {
  }

  /** A pass whose record leaves quota over is followed by the run from where it ended. */
  lemma ContinueGoesOn(cfg: Config, stream: seq<Sample>, a: (Control, int, Option<Span>), bufEnd: int,
                       now: string, quota: nat)
    requires ValidConfig(cfg) && ControlOk(a.0) && 0 <= a.1 <= bufEnd <= |stream|
    requires cfg.count != 0 ==> quota > 0
    requires a.2.Some? ==> !a.0.triggered
    ensures var ws := if a.2.Some? then [a.2.value] else [];
      !(cfg.count != 0 && |ws| == quota) ==>
        var r := Run(cfg, stream, a.0, a.1, bufEnd, now, if cfg.count == 0 then 0 else quota - |ws|);
        Continue(cfg, stream, a, bufEnd, now, quota) == (r.0, ws + r.1, r.2)
  {
  }

  /** A pass whose record uses up the quota ends the run. */
  lemma ContinueStops(cfg: Config, stream: seq<Sample>, a: (Control, int, Option<Span>), bufEnd: int,
                      now: string, quota: nat)
    requires ValidConfig(cfg) && ControlOk(a.0) && 0 <= a.1 <= bufEnd <= |stream|
    requires cfg.count != 0 ==> quota > 0
    requires a.2.Some? ==> !a.0.triggered
    ensures var ws := if a.2.Some? then [a.2.value] else [];
      cfg.count != 0 && |ws| == quota ==> Continue(cfg, stream, a, bufEnd, now, quota) == (a.0, ws, true)
  {
  }

  /** A pass that uses up the quota ends the run. */
  lemma RunStops(cfg: Config, stream: seq<Sample>, c: Control, id: int, bufEnd: int, now: string, quota: nat,
                 whole: (Control, seq<Span>, bool), emitted: seq<Span>)
    requires ValidConfig(cfg) && ControlOk(c) && 0 <= id < bufEnd <= |stream|
    requires cfg.count != 0 ==> quota > 0
    requires var r := Run(cfg, stream, c, id, bufEnd, now, quota); whole == (r.0, emitted + r.1, r.2)
    requires var a := Advance(cfg, stream, c, id, bufEnd, now);
      cfg.count != 0 && (if a.2.Some? then 1 else 0) == quota
    ensures var a := Advance(cfg, stream, c, id, bufEnd, now);
      whole == (a.0, emitted + (if a.2.Some? then [a.2.value] else []), true)
  {
    RunUnfolds(cfg, stream, c, id, bufEnd, now, quota);
    ContinueStops(cfg, stream, Advance(cfg, stream, c, id, bufEnd, now), bufEnd, now, quota);
  }

  /** The record emitted by one pass, if any, extends the windows emitted so far. */
  lemma EmitsAppend(cfg: Config, r0: seq<WindowRecord>, records: seq<WindowRecord>, n: int,
                    emitted: seq<Span>, w: Option<Span>)
    requires Emits(cfg, r0, n, emitted)
    requires w.None? ==> records == r0
    requires w.Some? ==> records == r0 + [RecordOf(cfg, w.value)]
    ensures Emits(cfg, records, n, emitted + (if w.Some? then [w.value] else []))
  {
    var all := emitted + (if w.Some? then [w.value] else []);
    forall k | 0 <= k < |all| ensures records[n + k] == RecordOf(cfg, all[k]) {
      if k < |emitted| {
        assert records[n + k] == r0[n + k];
      }
    }
  }

  // ---------------------------------------------------------------------------
  // Capture
  // ---------------------------------------------------------------------------

  /** Every sample fed to the window ends by id `upTo`. */
  ghost predicate FedBelow(fed: seq<(int, int)>, upTo: int) {
    forall k :: 0 <= k < |fed| ==> fed[k].1 <= upTo
  }

  lemma FedAppend(fed: seq<(int, int)>, after: int, s: int, e: int)
    requires FedWithin(fed, after, s) && Increasing(fed) && after < s < e
    ensures FedWithin(fed + [(s, e)], after, e) && Increasing(fed + [(s, e)])
  {
  }

  lemma FedWithinBelow(fed: seq<(int, int)>, after: int, upTo: int, x: int)
    requires FedWithin(fed, after, upTo) && upTo <= x
    ensures FedWithin(fed, after, x) && FedBelow(fed, x)
  {
  }

  lemma FedBelowWithin(fed: seq<(int, int)>, after: int, upTo: int, x: int)
    requires FedWithin(fed, after, upTo) && FedBelow(fed, x)
    ensures FedWithin(fed, after, x)
  {
  }

  /** An open window fed only below `from` has been fed only below its end `t`. */
  lemma FedUpTo(cfg: Config, timeStart: Option<Stamp>, fed: seq<(int, int)>, from: int, t: int)
    requires OpenOk(cfg, timeStart, fed) && FedWithin(fed, timeStart.value.id, from)
    requires cfg.end != Duration ==> from <= t
    requires cfg.end == Duration ==> t == timeStart.value.id + cfg.captureDuration
    ensures FedWithin(fed, timeStart.value.id, t)
  {
    if cfg.end == Duration {
      FedBelowWithin(fed, timeStart.value.id, from, t);
    } else {
      FedWithinBelow(fed, timeStart.value.id, from, t);
    }
  }

  /** One emitted window: it ends no earlier than it starts, and it was fed only ids inside it. */
  ghost predicate RecordOk(cfg: Config, r: WindowRecord, fed: seq<(int, int)>) {
    && r.start.id <= r.end.id
    && (StrictEnd(cfg) ==> r.start.id < r.end.id)
    && FedWithin(fed, r.start.id, r.end.id)
    && Increasing(fed)
  }

  ghost predicate RecordsOk(cfg: Config, records: seq<WindowRecord>, windowsFed: seq<seq<(int, int)>>) {
    && |records| == |windowsFed|
    && forall k :: 0 <= k < |records| ==> RecordOk(cfg, records[k], windowsFed[k])
  }

  lemma RecordsOkAppend(cfg: Config, records: seq<WindowRecord>, windowsFed: seq<seq<(int, int)>>,
                        r: WindowRecord, fed: seq<(int, int)>)
    requires RecordsOk(cfg, records, windowsFed) && RecordOk(cfg, r, fed)
    ensures RecordsOk(cfg, records + [r], windowsFed + [fed])
  {
    var rs, ws := records + [r], windowsFed + [fed];
    forall k | 0 <= k < |rs| ensures RecordOk(cfg, rs[k], ws[k]) {
      if k < |records| {
        assert rs[k] == records[k] && ws[k] == windowsFed[k];
      }
    }
  }

  /** The configuration is usable, one record per window counted, and all ids are sample ids. */
  ghost predicate Books(cfg: Config, count: nat, records: seq<WindowRecord>, windowsFed: seq<seq<(int, int)>>,
                        timeStart: Option<Stamp>, timeEnd: Option<Stamp>, sampleIdLast: Option<int>) {
    && ValidConfig(cfg)
    && |records| == count
    && RecordsOk(cfg, records, windowsFed)
    && (timeStart.Some? ==> timeStart.value.id >= 0)
    && (timeEnd.Some? ==> timeEnd.value.id >= 0)
    && (sampleIdLast.Some? ==> sampleIdLast.value >= 0)
  }

  /** The facts about an open window that do not depend on how far processing has got. */
  ghost predicate OpenOk(cfg: Config, timeStart: Option<Stamp>, fed: seq<(int, int)>) {
    && timeStart.Some?
    && Increasing(fed)
    && (cfg.end == Duration ==> FedBelow(fed, timeStart.value.id + cfg.captureDuration))
  }

  class Capture {
    const cfg: Config
    var count: nat
    var triggered: bool
    var sampleIdLast: Option<int>
    const current: Signal
    const voltage: Signal
    const power: Signal
    // Charge and energy of the open window, in ampere-samples and watt-samples:
    // divided by the sampling frequency they are coulombs and joules.  The
    // source adds `sum * period` per batch instead (as integers in 1e-15 C
    // and 1e-15 J), which in exact arithmetic is the same.
    var charge: real
    var energy: real
    var timeStart: Option<Stamp>
    var timeEnd: Option<Stamp>
    var records: seq<WindowRecord>   // every line emitted by `stop`, in order
    ghost var fed: seq<(int, int)>               // ranges given to `_add` in the open window
    ghost var seen: seq<Sample>                  // their finite samples, in order, since the last `start`
    ghost var windowsFed: seq<seq<(int, int)>>   // the same, for every emitted window

    /**
     * The three accumulators are distinct and valid, they hold the currents,
     * voltages and powers of the samples seen, and charge and energy
     * integrate their sums.
     */
    ghost predicate SignalsOk()
      reads this, current, voltage, power
    {
      && current != voltage && current != power && voltage != power
      && current.Valid() && voltage.Valid() && power.Valid()
      && current.values == Currents(seen) && voltage.values == Voltages(seen) && power.values == Powers(seen)
      && charge == current.total
      && energy == power.total
    }

    /** The invariant that holds between any two steps of the state machine. */
    ghost predicate Inv()
      reads this, current, voltage, power
    {
      && SignalsOk()
      && Books(cfg, count, records, windowsFed, timeStart, timeEnd, sampleIdLast)
      && (triggered ==> OpenOk(cfg, timeStart, fed))
    }

    /** The invariant between two calls: an open window has seen ids up to `sampleIdLast` only. */
    ghost predicate Valid()
      reads this, current, voltage, power
    {
      && Inv()
      && (sampleIdLast.None? ==> !triggered && count == 0)
      && (triggered ==> timeStart.value.id < sampleIdLast.value
                        && FedWithin(fed, timeStart.value.id, sampleIdLast.value))
    }

    /** Every emitted window ends no earlier than it starts, and strictly later unless its capture duration is zero samples. */
    lemma WindowsAreOrdered(k: int)
      requires Inv() && 0 <= k < count
      ensures records[k].start.id <= records[k].end.id
      ensures StrictEnd(cfg) ==> records[k].start.id < records[k].end.id
    {
      assert RecordOk(cfg, records[k], windowsFed[k]);
    }

    /**
     * The samples that go into a window's statistics lie strictly after its
     * start trigger and before its end id, and none is used twice.
     */
    lemma WindowsFedInside(k: int)
      requires Inv() && 0 <= k < count
      ensures forall j :: 0 <= j < |windowsFed[k]| ==>
        records[k].start.id < windowsFed[k][j].0 < windowsFed[k][j].1 <= records[k].end.id
      ensures forall i, j :: 0 <= i < j < |windowsFed[k]| ==> windowsFed[k][i].1 <= windowsFed[k][j].0
    {
      assert RecordOk(cfg, records[k], windowsFed[k]);
    }

    constructor (config: Config)
      requires ValidConfig(config)
      ensures Valid() && cfg == config
      ensures count == 0 && !triggered && sampleIdLast.None? && records == []
      ensures timeStart.None? && timeEnd.None?
    {
      cfg := config;
      count := 0;
      triggered := false;
      sampleIdLast := None;
      current := new Signal();
      voltage := new Signal();
      power := new Signal();
      charge, energy := 0.0, 0.0;
      timeStart, timeEnd := None, None;
      records := [];
      fed, windowsFed, seen := [], [], [];
    }

    /** What the accumulators report, and the charge and energy, are those of the samples seen. */
    lemma ResultsSummarise()
      requires SignalsOk()
      ensures current.Result() == SummaryOf(Currents(seen))
      ensures voltage.Result() == SummaryOf(Voltages(seen))
      ensures power.Result() == SummaryOf(Powers(seen))
      ensures charge == Sum(Currents(seen)) && energy == Sum(Powers(seen))
    {
    }

    /**
     * `stop`: nothing happens unless a window is open.  Otherwise the window
     * ends at `endId` (by default the last id processed), the count goes up by
     * exactly one, one record is emitted and the capture is idle again.
     */
    method Stop(endId: Option<int>, now: string)
      requires Inv()
      requires triggered ==> endId.Some? || sampleIdLast.Some?
      requires triggered ==> (
        var e := if endId.Some? then endId.value else sampleIdLast.value;
        && timeStart.value.id <= e
        && (StrictEnd(cfg) ==> timeStart.value.id < e)
        && FedWithin(fed, timeStart.value.id, e))
      modifies this
      ensures Inv() && !triggered
      ensures !old(triggered) ==> (count == old(count) && records == old(records) && timeEnd == old(timeEnd))
      ensures old(triggered) ==> (
        var e := if endId.Some? then endId.value else old(sampleIdLast).value;
        && count == old(count) + 1
        && timeEnd == Some(Stamp(e, now))
        && records == old(records) + [Window(cfg, old(timeStart).value, Stamp(e, now), seen)])
      ensures timeStart == old(timeStart) && sampleIdLast == old(sampleIdLast)
      ensures charge == old(charge) && energy == old(energy) && fed == old(fed) && seen == old(seen)
    {
      if !triggered {
        return;
      }
      var e := if endId.Some? then endId.value else sampleIdLast.value;
      var record := WindowRecord(timeStart.value, Stamp(e, now),
        current.Result(), voltage.Result(), power.Result(), charge / cfg.fs, energy / cfg.fs);
      ResultsSummarise();
      WindowOfResults(cfg, timeStart.value, Stamp(e, now), seen, record);
      Emit(record, e, now);
    }

    /** The bookkeeping half of `stop`: count the window, append its record and go idle. */
    method Emit(record: WindowRecord, e: int, now: string)
      requires Inv() && triggered
      requires record.start == timeStart.value && record.end == Stamp(e, now)
      requires timeStart.value.id <= e && (StrictEnd(cfg) ==> timeStart.value.id < e)
      requires FedWithin(fed, timeStart.value.id, e)
      modifies this
      ensures Inv() && !triggered
      ensures count == old(count) + 1 && timeEnd == Some(Stamp(e, now)) && records == old(records) + [record]
      ensures timeStart == old(timeStart) && sampleIdLast == old(sampleIdLast)
      ensures charge == old(charge) && energy == old(energy) && fed == old(fed) && seen == old(seen)
    {
      RecordsOkAppend(cfg, records, windowsFed, record, fed);
      timeEnd := Some(Stamp(e, now));
      count := count + 1;
      records := records + [record];
      windowsFed := windowsFed + [fed];
      triggered := false;
    }

    /**
     * `start`: close any open window first (at the last id processed), then
     * reset the three accumulators, charge and energy and open a window at `startId`.
     */
    method Start(startId: int, now: string)
      requires Inv() && startId >= 0
      requires triggered ==> (
        && sampleIdLast.Some?
        && timeStart.value.id < sampleIdLast.value
        && FedWithin(fed, timeStart.value.id, sampleIdLast.value))
      modifies this, current, voltage, power
      ensures Inv()
      ensures triggered && timeStart == Some(Stamp(startId, now))
      ensures current.values == [] && voltage.values == [] && power.values == []
      ensures charge == 0.0 && energy == 0.0 && fed == [] && seen == []
      ensures count == old(count) + (if old(triggered) then 1 else 0)
      ensures !old(triggered) ==> records == old(records) && timeEnd == old(timeEnd)
      ensures old(triggered) ==> (
        && records == old(records) + [Window(cfg, old(timeStart).value, Stamp(old(sampleIdLast).value, now), old(seen))]
        && timeEnd == Some(Stamp(old(sampleIdLast).value, now)))
      ensures sampleIdLast == old(sampleIdLast)
    {
      if triggered {
        Stop(None, now);
      }
      Open(startId, now);
    }

    /** The second half of `start`: reset the accumulators and open a window at `startId`. */
    method Open(startId: int, now: string)
      requires Inv() && !triggered && startId >= 0
      modifies this, current, voltage, power
      ensures Inv()
      ensures triggered && timeStart == Some(Stamp(startId, now))
      ensures current.values == [] && voltage.values == [] && power.values == []
      ensures charge == 0.0 && energy == 0.0 && fed == [] && seen == []
      ensures count == old(count) && records == old(records) && timeEnd == old(timeEnd)
      ensures sampleIdLast == old(sampleIdLast)
    {
      ClearSignals();
      charge, energy, fed, seen := 0.0, 0.0, [], [];
      timeStart, triggered := Some(Stamp(startId, now)), true;
    }

    /** The three `clear` calls of `start`. */
    method ClearSignals()
      requires current != voltage && current != power && voltage != power
      modifies current, voltage, power
      ensures current.Valid() && voltage.Valid() && power.Valid()
      ensures current.values == [] && voltage.values == [] && power.values == []
      ensures current.total == 0.0 && power.total == 0.0
    {
      current.Clear();
      voltage.Clear();
      power.Clear();
    }

    /** The three `add` calls of `_add`. */
    method AddToSignals(i: seq<real>, v: seq<real>, p: seq<real>)
      requires current != voltage && current != power && voltage != power
      requires current.Valid() && voltage.Valid() && power.Valid()
      requires |i| > 0 && |v| > 0 && |p| > 0
      modifies current, voltage, power
      ensures current.Valid() && voltage.Valid() && power.Valid()
      ensures current.values == old(current.values) + i && current.total == old(current.total) + Sum(i)
      ensures voltage.values == old(voltage.values) + v
      ensures power.values == old(power.values) + p && power.total == old(power.total) + Sum(p)
    {
      current.Add(i);
      voltage.Add(v);
      power.Add(p);
    }

    /**
     * `_add`: feed the finite samples of `[s, e)` to the accumulators and
     * integrate charge and energy over the sampling period.  Samples whose
     * current is not finite are skipped.
     */
    method Add(stream: seq<Sample>, s: int, e: int, upTo: int)
      requires Inv() && triggered
      requires 0 <= s < e <= upTo && e <= |stream|
      requires timeStart.value.id < s && FedWithin(fed, timeStart.value.id, s)
      requires cfg.end == Duration ==> upTo <= timeStart.value.id + cfg.captureDuration
      modifies this, current, voltage, power
      ensures Inv() && triggered
      ensures fed == old(fed) + [(s, e)] && FedWithin(fed, timeStart.value.id, upTo)
      ensures seen == old(seen) + Finite(stream[s..e])
      ensures var ok := Finite(stream[s..e]);
        && current.values == old(current.values) + Currents(ok)
        && voltage.values == old(voltage.values) + Voltages(ok)
        && power.values == old(power.values) + Powers(ok)
      ensures triggered && count == old(count) && records == old(records) && windowsFed == old(windowsFed)
      ensures timeStart == old(timeStart) && timeEnd == old(timeEnd) && sampleIdLast == old(sampleIdLast)
    {
      Absorb(Finite(stream[s..e]));
      FedAppend(fed, timeStart.value.id, s, e);
      FedWithinBelow(fed + [(s, e)], timeStart.value.id, e, upTo);
      if cfg.end == Duration {
        FedWithinBelow(fed + [(s, e)], timeStart.value.id, upTo, timeStart.value.id + cfg.captureDuration);
      }
      fed := fed + [(s, e)];
    }

    /** The statistics half of `_add`: feed the finite samples `ok` to the three signals and the integrals. */
    method Absorb(ok: seq<Sample>)
      requires Inv() && triggered
      modifies this, current, voltage, power
      ensures Inv() && triggered
      ensures seen == old(seen) + ok
      ensures current.values == old(current.values) + Currents(ok)
      ensures voltage.values == old(voltage.values) + Voltages(ok)
      ensures power.values == old(power.values) + Powers(ok)
      ensures fed == old(fed) && count == old(count) && records == old(records) && windowsFed == old(windowsFed)
      ensures timeStart == old(timeStart) && timeEnd == old(timeEnd) && sampleIdLast == old(sampleIdLast)
    {
      if |ok| > 0 {
        var i, v, p := Currents(ok), Voltages(ok), Powers(ok);
        AddToSignals(i, v, p);
        charge := charge + Sum(i);
        energy := energy + Sum(p);
      }
      ColumnsConcat(seen, ok);
      seen := seen + ok;
    }

    /** The control state of the loop. */
    ghost function Ctl(): (c: Control)
      reads this`triggered, this`timeStart, this`timeEnd, this`seen
      ensures c.triggered == triggered && c.timeStart == timeStart && c.timeEnd == timeEnd && c.seen == seen
    {
      Control(triggered, timeStart, timeEnd, seen)
    }

    /** How many more windows the configured count allows (0, unlimited, when the count is 0). */
    function Quota(): (q: nat)
      requires cfg.count == 0 || count < cfg.count
      reads this`count
      ensures cfg.count != 0 ==> count + q == cfg.count && q > 0
    {
      if cfg.count == 0 then 0 else cfg.count - count
    }

    /**
     * `_start_*`, with the one state change it makes: a `duration` start
     * before any window first records `s` as the end of the previous window.
     */
    method StartTrigger(stream: seq<Sample>, s: int, e: int, now: string) returns (r: Option<int>)
      requires Inv() && !triggered
      requires 0 <= s < e <= |stream|
      modifies this`timeEnd
      ensures Inv()
      ensures timeEnd == if cfg.start == Duration && old(timeEnd).None? then Some(Stamp(s, now)) else old(timeEnd)
      ensures r == StartAt(cfg, stream, s, e, PrevEnd(old(timeEnd), s))
      ensures r.Some? ==> 0 <= r.value
    {
      if cfg.start == Duration && timeEnd.None? {
        timeEnd := Some(Stamp(s, now));
      }
      r := StartAt(cfg, stream, s, e, PrevEnd(timeEnd, s));
    }

    /**
     * One pass of the processing loop while idle: without a start trigger in
     * `[startId, bufEnd)` the capture stays idle and the pass ends at
     * `bufEnd`; a trigger at `t` opens a window at `t` and the next pass
     * starts at `t + 1`.
     */
    method IdleStep(stream: seq<Sample>, startId: int, bufEnd: int, now: string) returns (next: int)
      requires Inv() && !triggered
      requires 0 <= startId < bufEnd <= |stream|
      modifies this, current, voltage, power
      ensures Inv()
      ensures 0 <= next <= bufEnd
      ensures count == old(count) && records == old(records) && sampleIdLast == old(sampleIdLast)
      ensures var t := StartAt(cfg, stream, startId, bufEnd, PrevEnd(old(timeEnd), startId));
        && (t.None? ==> !triggered && next == bufEnd && timeStart == old(timeStart) && seen == old(seen))
        && (t.Some? ==> triggered && timeStart == Some(Stamp(t.value, now)) && next == t.value + 1
                        && fed == [] && seen == [])
      ensures timeEnd == if cfg.start == Duration && old(timeEnd).None? then Some(Stamp(startId, now)) else old(timeEnd)
      ensures triggered ==> timeStart.value.id < next
      ensures next == bufEnd || Progress(cfg, triggered, next, bufEnd, timeStart, timeEnd)
                              < Progress(cfg, false, startId, bufEnd, old(timeStart), old(timeEnd))
    {
      ghost var b := NextBound(cfg, false, startId, bufEnd, timeStart, timeEnd);
      var t := StartTrigger(stream, startId, bufEnd, now);
      if t.None? {
        next := bufEnd;
      } else {
        assert b <= t.value;
        Start(t.value, now);
        next := t.value + 1;
        OpeningDecreases(cfg, b, t.value, bufEnd, timeStart.value, timeEnd);
      }
    }

    /**
     * One pass of the processing loop while a window is open: without an end
     * trigger in `[startId, bufEnd)` the whole range is fed to the window and
     * the pass ends at `bufEnd`; a trigger at `t` closes the window at `t`
     * (one record, from its start to `t`) and the next pass starts at `t + 1`.
     */
    method OpenStep(stream: seq<Sample>, startId: int, bufEnd: int, now: string) returns (next: int)
      requires Inv() && triggered
      requires 0 <= startId < bufEnd <= |stream|
      requires timeStart.value.id < startId && FedWithin(fed, timeStart.value.id, startId)
      modifies this, current, voltage, power
      ensures Inv()
      ensures 0 <= next <= bufEnd
      ensures count == old(count) + (if triggered then 0 else 1)
      ensures old(records) <= records && sampleIdLast == old(sampleIdLast) && timeStart == old(timeStart)
      ensures match EndAt(cfg, stream, startId, bufEnd, old(timeStart).value.id)
        case None =>
          && triggered && next == bufEnd && records == old(records) && timeEnd == old(timeEnd)
          && fed == old(fed) + [(startId, bufEnd)]
          && seen == old(seen) + Finite(stream[startId..bufEnd])
        case Some(t) =>
          && !triggered && next == t + 1 && timeEnd == Some(Stamp(t, now))
          && seen == old(seen) + FedBeforeTrigger(stream, startId, t)
          && records == old(records) + [Window(cfg, old(timeStart).value, Stamp(t, now), seen)]
      ensures triggered ==> timeStart.value.id < next && FedWithin(fed, timeStart.value.id, next)
      ensures next == bufEnd || Progress(cfg, triggered, next, bufEnd, timeStart, timeEnd)
                              < Progress(cfg, true, startId, bufEnd, old(timeStart), old(timeEnd))
    {
      ghost var b := NextBound(cfg, true, startId, bufEnd, timeStart, timeEnd);
      var t := EndAt(cfg, stream, startId, bufEnd, timeStart.value.id);
      if t.None? {
        Add(stream, startId, bufEnd, bufEnd);
        next := bufEnd;
      } else {
        CloseAt(stream, startId, t.value, now);
        next := t.value + 1;
        ClosingDecreases(cfg, b, t.value, bufEnd, timeStart, timeEnd.value);
      }
    }

    /**
     * The end condition holds at `t`: feed `[startId, t - 1)` if it holds at
     * least two samples (the sample just before `t` is never fed), then close
     * the window at `t`.
     */
    method CloseAt(stream: seq<Sample>, startId: int, t: int, now: string)
      requires Inv() && triggered
      requires 0 <= startId && t <= |stream|
      requires timeStart.value.id < startId && FedWithin(fed, timeStart.value.id, startId)
      requires cfg.end != Duration ==> startId <= t
      requires cfg.end == Duration ==> t == timeStart.value.id + cfg.captureDuration
      modifies this, current, voltage, power
      ensures Inv() && !triggered
      ensures count == old(count) + 1
      ensures seen == old(seen) + FedBeforeTrigger(stream, startId, t)
      ensures records == old(records) + [Window(cfg, old(timeStart).value, Stamp(t, now), seen)]
      ensures timeEnd == Some(Stamp(t, now)) && timeStart == old(timeStart) && sampleIdLast == old(sampleIdLast)
      ensures startId + 2 < t ==> fed == old(fed) + [(startId, t - 1)]
      ensures startId + 2 >= t ==> fed == old(fed)
    {
      FeedBefore(stream, startId, t);
      Stop(Some(t), now);
    }

    /** The feeding half of `CloseAt`: `[startId, t - 1)`, if it holds at least two samples. */
    method FeedBefore(stream: seq<Sample>, startId: int, t: int)
      requires Inv() && triggered
      requires 0 <= startId && t <= |stream|
      requires timeStart.value.id < startId && FedWithin(fed, timeStart.value.id, startId)
      requires cfg.end != Duration ==> startId <= t
      requires cfg.end == Duration ==> t == timeStart.value.id + cfg.captureDuration
      modifies this, current, voltage, power
      ensures Inv() && triggered && FedWithin(fed, timeStart.value.id, t)
      ensures count == old(count) && records == old(records) && windowsFed == old(windowsFed)
      ensures timeStart == old(timeStart) && timeEnd == old(timeEnd) && sampleIdLast == old(sampleIdLast)
      ensures startId + 2 < t ==> fed == old(fed) + [(startId, t - 1)]
      ensures startId + 2 >= t ==> fed == old(fed)
      ensures seen == old(seen) + FedBeforeTrigger(stream, startId, t)
    {
      if startId + 2 < t {
        Add(stream, startId, t - 1, t);
        assert seen == old(seen) + Finite(stream[startId..t - 1]);
      } else {
        FedUpTo(cfg, timeStart, fed, startId, t);
        assert seen + FedBeforeTrigger(stream, startId, t) == seen;
      }
    }

    /**
     * One pass of the processing loop: an idle step or an open step.  The new
     * control state and the next id are those of `Advance`, and a record is
     * emitted exactly when `Advance` closes a window: the record it computes.
     */
    method Step(stream: seq<Sample>, startId: int, bufEnd: int, now: string) returns (next: int)
      requires Inv()
      requires 0 <= startId < bufEnd <= |stream|
      requires triggered ==> timeStart.value.id < startId && FedWithin(fed, timeStart.value.id, startId)
      modifies this, current, voltage, power
      ensures Inv()
      ensures 0 <= next <= bufEnd
      ensures var a := Advance(cfg, stream, old(Ctl()), startId, bufEnd, now);
        && Ctl() == a.0 && next == a.1
        && count == old(count) + (if a.2.Some? then 1 else 0)
        && (a.2.None? ==> records == old(records))
        && (a.2.Some? ==> records == old(records) + [RecordOf(cfg, a.2.value)])
      ensures old(records) <= records && sampleIdLast == old(sampleIdLast)
      ensures triggered ==> timeStart.value.id < next && FedWithin(fed, timeStart.value.id, next)
    {
      if !triggered {
        next := IdleStep(stream, startId, bufEnd, now);
      } else {
        next := OpenStep(stream, startId, bufEnd, now);
      }
    }

    /**
     * What the loop of `__call__` keeps between passes: `id` is where
     * processing has got to, an open window has been fed up to `id`, the
     * configured count is not yet reached, and the windows emitted so far
     * followed by those of the run from `id` on are the windows of the whole run.
     */
    ghost predicate Tracking(stream: seq<Sample>, id: int, bufEnd: int, now: string, n: int,
                             whole: (Control, seq<Span>, bool), emitted: seq<Span>)
      reads this, current, voltage, power
    {
      && Inv()
      && 0 <= id <= bufEnd <= |stream|
      && (triggered ==> timeStart.value.id < id && FedWithin(fed, timeStart.value.id, id))
      && (cfg.count == 0 || count < cfg.count)
      && Emits(cfg, records, n, emitted)
      && var rest := Run(cfg, stream, Ctl(), id, bufEnd, now, Quota());
         whole == (rest.0, emitted + rest.1, rest.2)
    }

    /** The loop invariant of `__call__`: `Tracking`, and nothing has happened before the first id is processed. */
    ghost predicate Looping(stream: seq<Sample>, id: int, bufEnd: int, now: string, n: int,
                            whole: (Control, seq<Span>, bool), emitted: seq<Span>)
      reads this, current, voltage, power
    {
      && Tracking(stream, id, bufEnd, now, n, whole, emitted)
      && (sampleIdLast.None? ==> !triggered && count == 0)
    }

    /** Record `id` as the last id processed. */
    method Reach(stream: seq<Sample>, id: int, bufEnd: int, now: string, ghost n: int,
                 ghost whole: (Control, seq<Span>, bool), ghost emitted: seq<Span>)
      requires Tracking(stream, id, bufEnd, now, n, whole, emitted)
      modifies this`sampleIdLast
      ensures Looping(stream, id, bufEnd, now, n, whole, emitted) && sampleIdLast == Some(id)
      ensures Ctl() == old(Ctl()) && count == old(count) && records == old(records)
    {
      sampleIdLast := Some(id);
    }

    /**
     * A pass of the processing loop, keeping track of how what has been
     * emitted so far and what the run from here emits make up the whole run.
     * Stops once the configured number of windows has been emitted;
     * otherwise records the position reached as the last id processed.
     */
    method TrackedStep(stream: seq<Sample>, id: int, bufEnd: int, now: string, ghost n: int,
                       ghost whole: (Control, seq<Span>, bool), ghost emitted: seq<Span>)
      returns (next: int, stop: bool, ghost emitted': seq<Span>)
      requires Looping(stream, id, bufEnd, now, n, whole, emitted) && id < bufEnd
      modifies this, current, voltage, power
      ensures stop <==> cfg.count != 0 && count == cfg.count
      ensures stop ==> && Inv() && !triggered && whole == (Ctl(), emitted', true)
                       && Emits(cfg, records, n, emitted') && (sampleIdLast.None? ==> count == 0)
      ensures !stop ==> Looping(stream, next, bufEnd, now, n, whole, emitted')
      ensures count >= old(count) && old(records) <= records
      ensures next == bufEnd || Measure(cfg, Ctl(), next, bufEnd) < Measure(cfg, old(Ctl()), id, bufEnd)
    {
      ghost var r0, c, q := records, Ctl(), Quota();
      ghost var a := Advance(cfg, stream, c, id, bufEnd, now);
      ghost var ws := if a.2.Some? then [a.2.value] else [];
      AdvanceDecreases(cfg, stream, c, id, bufEnd, now);
      next := Step(stream, id, bufEnd, now);
      EmitsAppend(cfg, r0, records, n, emitted, a.2);
      emitted' := emitted + ws;
      stop := cfg.count != 0 && count >= cfg.count;
      if stop {
        RunStops(cfg, stream, c, id, bufEnd, now, q, whole, emitted);
      } else {
        RunGoesOn(cfg, stream, c, id, bufEnd, now, q, whole, emitted, Ctl(), next, Quota(), ws);
        Reach(stream, next, bufEnd, now, n, whole, emitted');
      }
    }

    /**
     * `__call__`: process the buffered range `[bufStart, bufEnd)`.  Processing
     * resumes at the last id processed if that is later than `bufStart`; an
     * empty range changes nothing.  Otherwise the windows emitted and the
     * final control state are those of `Run` from there, with the windows the
     * configured count still allows; the call returns true exactly when that
     * count is reached, and otherwise every id up to `bufEnd` has been
     * processed.  The caller stops calling once it gets true.
     */
    method Call(stream: seq<Sample>, bufStart: int, bufEnd: int, now: string) returns (done: bool)
      requires Valid()
      requires 0 <= bufStart && bufEnd <= |stream|
      requires cfg.count == 0 || count < cfg.count
      modifies this, current, voltage, power
      ensures Valid()
      ensures (
        var s0 := if old(sampleIdLast).Some? && bufStart < old(sampleIdLast).value
                  then old(sampleIdLast).value else bufStart;
        && (s0 >= bufEnd ==> !done && count == old(count) && Ctl() == old(Ctl())
                             && sampleIdLast == old(sampleIdLast) && records == old(records)
                             && charge == old(charge) && energy == old(energy) && fed == old(fed)
                             && windowsFed == old(windowsFed))
        && (s0 < bufEnd ==>
              var r := Run(cfg, stream, old(Ctl()), s0, bufEnd, now, old(Quota()));
              && Ctl() == r.0 && done == r.2 && Emits(cfg, records, |old(records)|, r.1))
        && (s0 < bufEnd && !done ==> sampleIdLast == Some(bufEnd)))
      ensures done <==> cfg.count != 0 && count == cfg.count
      ensures done ==> !triggered
      ensures count >= old(count) && old(records) <= records
    {
      var startId := bufStart;
      if sampleIdLast.Some? && startId < sampleIdLast.value {
        startId := sampleIdLast.value;
      }
      if startId >= bufEnd {
        return false;
      }
      done := ProcessRange(stream, startId, bufEnd, now);
    }

    /**
     * The processing loop of `__call__` over the non-empty range
     * `[startId, bufEnd)`: steps until the configured number of windows has
     * been emitted, or else up to `bufEnd`, recording each position reached.
     * What it emits and where it leaves the control state is `Run`.
     */
    method ProcessRange(stream: seq<Sample>, startId: int, bufEnd: int, now: string) returns (done: bool)
      requires Inv()
      requires 0 <= startId < bufEnd <= |stream|
      requires sampleIdLast.None? ==> !triggered && count == 0
      requires triggered ==> timeStart.value.id < startId && FedWithin(fed, timeStart.value.id, startId)
      requires cfg.count == 0 || count < cfg.count
      modifies this, current, voltage, power
      ensures Valid()
      ensures var r := Run(cfg, stream, old(Ctl()), startId, bufEnd, now, old(Quota()));
        Ctl() == r.0 && done == r.2 && Emits(cfg, records, |old(records)|, r.1)
      ensures !done ==> sampleIdLast == Some(bufEnd)
      ensures done <==> cfg.count != 0 && count == cfg.count
      ensures done ==> !triggered
      ensures count >= old(count) && old(records) <= records
    {
      ghost var whole := Run(cfg, stream, Ctl(), startId, bufEnd, now, Quota());
      ghost var emitted: seq<Span> := [];
      assert emitted + whole.1 == whole.1;
      var id := startId;
      while id < bufEnd
        invariant Looping(stream, id, bufEnd, now, |old(records)|, whole, emitted)
        invariant count >= old(count) && old(records) <= records
        decreases (if id < bufEnd then 1 else 0), Measure(cfg, Ctl(), id, bufEnd)
      {
        var stop: bool;
        id, stop, emitted := TrackedStep(stream, id, bufEnd, now, |old(records)|, whole, emitted);
        if stop {
          return true;
        }
      }
      RunEnds(cfg, stream, Ctl(), bufEnd, now, Quota(), whole, emitted);
      Reach(stream, bufEnd, bufEnd, now, |old(records)|, whole, emitted);
      return false;
    }

    /** `close`: emit the open window, if any, ending at the last id processed. */
    method Close(now: string)
      requires Valid()
      modifies this
      ensures Valid() && !triggered
      ensures !old(triggered) ==> records == old(records) && count == old(count) && timeEnd == old(timeEnd)
      ensures old(triggered) ==> (
        && count == old(count) + 1
        && timeEnd == Some(Stamp(old(sampleIdLast).value, now))
        && records == old(records) + [Window(cfg, old(timeStart).value, Stamp(old(sampleIdLast).value, now), old(seen))])
      ensures timeStart == old(timeStart) && sampleIdLast == old(sampleIdLast)
      ensures charge == old(charge) && energy == old(energy) && fed == old(fed) && seen == old(seen)
    {
      Stop(None, now);
    }
  }
}
