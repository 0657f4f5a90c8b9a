/**
 * `capture_jls_v2.py`: the command-line parsers for the capture duration and
 * the device's sampling rate, and the stream-process callback that appends
 * each new range of samples to the JLS writer.
 */
module CaptureJlsV2 {
  import opened Wrappers
  import opened Text
  import opened StreamBuffers

  // ---------------------------------------------------------------------------
  // --duration
  // ---------------------------------------------------------------------------

  /** Seconds per unit for the duration suffixes: seconds, minutes, hours, days. */
  function UnitSeconds(u: char): Option<real> {
    if u == 's' then Some(1.0)
    else if u == 'm' then Some(60.0)
    else if u == 'h' then Some(60.0 * 60.0)
    else if u == 'd' then Some(60.0 * 60.0 * 24.0)
    else None
  }

  function Scaled(r: Result<real>, k: real): Result<Option<real>> {
    match r
    case Ok(x) => Ok(Some(k * x))
    case Err(e) => Err(e)
  }

  /**
   * The `--duration` argument in seconds: no duration for a missing or empty
   * argument; a number followed by one of the suffixes s, m, h, d is scaled
   * to seconds; any other text is parsed whole.
   */
  function DurationValidator(d: Option<string>): (r: Result<Option<real>>)
    ensures r == Ok(None) <==> d == None || d == Some("")
  {
    if d.None? || |d.value| == 0 then Ok(None)
    else
      var s := d.value;
      match UnitSeconds(s[|s| - 1])
      case Some(k) => Scaled(ParseFloat(s[..|s| - 1]), k)
      case None => Scaled(ParseFloat(s), 1.0)
  }

  /** A number followed by a unit is the number scaled by the unit's seconds. */
  lemma DurationWithSuffix(t: string, u: char, k: real)
    requires UnitSeconds(u) == Some(k)
    ensures DurationValidator(Some(t + [u])) == Scaled(ParseFloat(t), k)
  {
    assert (t + [u])[..|t|] == t;
  }

  /** A whole number followed by a unit reads back as that many seconds, minutes, hours or days. */
  lemma DurationWithUnit(n: nat, u: char, k: real)
    requires UnitSeconds(u) == Some(k)
    ensures DurationValidator(Some(NatToString(n) + [u])) == Ok(Some(k * n as real))
  {
    var t := NatToString(n);
    ParseFloatOfNatToString(n);
    DurationWithSuffix(t, u, k);
  }

  /** A whole number without a unit is a number of seconds. */
  lemma DurationWithoutUnit(n: nat)
    ensures DurationValidator(Some(NatToString(n))) == Ok(Some(n as real))
  {
    var t := NatToString(n);
    assert IsDigit(t[|t| - 1]);
    assert UnitSeconds(t[|t| - 1]) == None;
    ParseFloatOfNatToString(n);
  }

  // ---------------------------------------------------------------------------
  // sampling_frequency
  // ---------------------------------------------------------------------------

  /** The `sampling_frequency` parameter: a text such as "2 MHz", or a plain number. */
  datatype RateSetting = RateText(text: string) | RateNumber(n: int)

  /** The multiplier the first letter of the unit selects: mega, kilo, or none. */
  function UnitScale(u: char): int {
    if u == 'M' then 1000000 else if u == 'k' then 1000 else 1
  }

  /**
   * The sampling rate in hertz: a text is two whitespace-separated words, an
   * integer and a unit whose first letter scales it; a number is taken as it is.
   */
  function SamplingRateValidator(s: RateSetting): (r: Result<int>)
    ensures s.RateNumber? ==> r == Ok(s.n)
    ensures s.RateText? && |Words(s.text)| != 2 ==> r.Err?
  {
    match s
    case RateNumber(n) => Ok(n)
    case RateText(text) =>
      var parts := Words(text);
      if |parts| != 2 then Err(ValueError("expected 2 values to unpack"))
      else
        match ParseInt(parts[0])
        case Err(e) => Err(e)
        case Ok(n) => Ok(n * UnitScale(parts[1][0]))
  }

  /** An integer and a unit, separated by a space, read back as the integer scaled by the unit. */
  lemma SamplingRateOfText(n: int, unit: string)
    requires |unit| > 0 && NoSpace(unit)
    ensures SamplingRateValidator(RateText(IntToString(n) + " " + unit)) ==
      Ok(if unit[0] == 'M' then n * 1000000 else if unit[0] == 'k' then n * 1000 else n)
  {
    IntToStringNoSpace(n);
    WordsOfTwo(IntToString(n), unit);
    ParseIntOfIntToString(n);
  }

  // ---------------------------------------------------------------------------
  // Process.stream_notify
  // ---------------------------------------------------------------------------

  /** One `fsr_f32` call on the JLS writer: a signal id, the first sample id, the values. */
  datatype Write = Write(signalId: int, sampleId: int, values: seq<real>)

  function End(w: Write): int {
    w.sampleId + |w.values|
  }

  /** The writes, in order, that go to signal `id`. */
  function WritesOf(ws: seq<Write>, id: int): (r: seq<Write>)
    ensures |r| <= |ws|
    ensures forall k :: 0 <= k < |r| ==> r[k].signalId == id
    decreases |ws|
  {
    if ws == [] then []
    else WritesOf(ws[..|ws| - 1], id) + (if ws[|ws| - 1].signalId == id then [ws[|ws| - 1]] else [])
  }

  predicate Covers(w: Write, i: int) {
    w.sampleId <= i < End(w)
  }

  /** Some write in `ws` holds sample id `i`. */
  predicate Covered(ws: seq<Write>, i: int) {
    exists k :: 0 <= k < |ws| && Covers(ws[k], i)
  }

  /** The non-empty writes `ws`, in order, cover the sample ids `[from, to)` end to end. */
  predicate Tiles(ws: seq<Write>, from: int, to: int)
    decreases |ws|
  {
    if ws == [] then from == to
    else
      var w := ws[|ws| - 1];
      |w.values| > 0 && End(w) == to && Tiles(ws[..|ws| - 1], from, w.sampleId)
  }

  /**
   * Writes that tile `[from, to)` are in order and do not overlap, stay inside
   * the range, and leave no sample id of it uncovered.
   */
  lemma {:induction false} TilesCover(ws: seq<Write>, from: int, to: int)
    requires Tiles(ws, from, to)
    ensures from <= to
    ensures forall k :: 0 <= k < |ws| ==> from <= ws[k].sampleId < End(ws[k]) <= to
    ensures forall k, l :: 0 <= k < l < |ws| ==> End(ws[k]) <= ws[l].sampleId
    ensures forall i :: from <= i < to ==> Covered(ws, i)
    decreases |ws|
  {
    if ws != [] {
      var init, w := ws[..|ws| - 1], ws[|ws| - 1];
      TilesCover(init, from, w.sampleId);
      assert forall k :: 0 <= k < |init| ==> ws[k] == init[k];
      forall i | from <= i < to
        ensures Covered(ws, i)
      {
        if i >= w.sampleId {
          assert Covers(ws[|ws| - 1], i);
        } else {
          assert Covered(init, i);
          var k :| 0 <= k < |init| && Covers(init[k], i);
          assert Covers(ws[k], i);
        }
      }
    }
  }

  lemma WritesOfAppend(ws: seq<Write>, w: Write, id: int)
    ensures WritesOf(ws + [w], id) == WritesOf(ws, id) + (if w.signalId == id then [w] else [])
  {
    assert (ws + [w])[..|ws|] == ws;
  }

  /** A non-empty write that starts where a tiling ends extends it. */
  lemma TilesAppend(ws: seq<Write>, from: int, w: Write)
    requires Tiles(ws, from, w.sampleId) && |w.values| > 0
    ensures Tiles(ws + [w], from, End(w))
  {
    assert (ws + [w])[..|ws|] == ws;
  }

  lemma WritesOfPair(ws: seq<Write>, a: Write, b: Write, id: int)
    ensures WritesOf(ws + [a, b], id)
      == WritesOf(ws, id) + (if a.signalId == id then [a] else []) + (if b.signalId == id then [b] else [])
  {
    assert ws + [a, b] == (ws + [a]) + [b];
    WritesOfAppend(ws, a, id);
    WritesOfAppend(ws + [a], b, id);
  }

  /** Two equally long writes from where signal `id`'s tiling ends, exactly one of them to `id`, extend that tiling. */
  lemma TilesAfterPair(ws: seq<Write>, a: Write, b: Write, id: int)
    requires Tiles(WritesOf(ws, id), 0, a.sampleId)
    requires a.sampleId == b.sampleId && |a.values| == |b.values| > 0
    requires (a.signalId == id) != (b.signalId == id)
    ensures Tiles(WritesOf(ws + [a, b], id), 0, End(a))
  {
    WritesOfPair(ws, a, b, id);
    if a.signalId == id {
      assert WritesOf(ws + [a, b], id) == WritesOf(ws, id) + [a];
      TilesAppend(WritesOf(ws, id), 0, a);
    } else {
      assert WritesOf(ws + [a, b], id) == WritesOf(ws, id) + [b];
      TilesAppend(WritesOf(ws, id), 0, b);
    }
  }

  /** Writing signals 1 and 2 from `from` on extends both tilings by the same range. */
  lemma AppendWrites(ws: seq<Write>, w1: Write, w2: Write, from: int)
    requires Tiles(WritesOf(ws, 1), 0, from) && Tiles(WritesOf(ws, 2), 0, from)
    requires w1.signalId == 1 && w2.signalId == 2 && w1.sampleId == w2.sampleId == from
    requires |w1.values| == |w2.values| > 0
    ensures Tiles(WritesOf(ws + [w1, w2], 1), 0, End(w1)) && Tiles(WritesOf(ws + [w1, w2], 2), 0, End(w1))
  {
    TilesAfterPair(ws, w1, w2, 1);
    TilesAfterPair(ws, w1, w2, 2);
  }

  class Process {
    /** The next sample id to write. */
    var idx: int
    /** The calls made on the JLS writer so far. */
    var written: seq<Write>

    /** Both signals' writes cover the sample ids `[0, idx)` end to end. */
    ghost predicate Valid()
      reads this
    {
      Tiles(WritesOf(written, 1), 0, idx) && Tiles(WritesOf(written, 2), 0, idx)
    }

    constructor ()
      ensures Valid() && idx == 0 && written == []
    {
      idx := 0;
      written := [];
    }

    /**
     * When the stream buffer holds samples past `idx`, writes the current
     * (signal 1) and then the voltage (signal 2) of the ids `[idx, endId)`,
     * both starting at `idx`, and moves `idx` to `endId`; otherwise does nothing.
     */
    method StreamNotify(s: StreamBuffer)
      requires Valid()
      modifies this
      ensures Valid()
      ensures old(idx) < s.endId ==>
        idx == s.endId &&
        written == old(written) + [Write(1, old(idx), Samples(s.current, old(idx), s.endId)),
                                   Write(2, old(idx), Samples(s.voltage, old(idx), s.endId))]
      ensures old(idx) >= s.endId ==> idx == old(idx) && written == old(written)
    {
      if idx < s.endId {
        var w1 := Write(1, idx, Samples(s.current, idx, s.endId));
        var w2 := Write(2, idx, Samples(s.voltage, idx, s.endId));
        AppendWrites(written, w1, w2, idx);
        written := written + [w1, w2];
        idx := s.endId;
      }
    }
  }
}
