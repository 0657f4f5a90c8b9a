/**
 * The downsampling logger of `downsample_logging.py`.
 *
 * `Logger` holds the session parameters.  They are written to an event log
 * when a session opens and read back from it by `--resume`.  One
 * `LoggerDevice` per instrument receives the instrument's statistics
 * callbacks.  It averages every `downsample` of them into one CSV row
 * `time,current,voltage,power,charge,energy,current_min,current_max`.  On
 * resume, it continues the charge and energy columns from the last row of
 * the existing CSV file.
 *
 * Files are modelled by their lines: the event log and an existing CSV file
 * are inputs, and what a device writes to its CSV file is the field `csv`.
 * Wall-clock time is the parameter `now`.
 */
module DownsampleLogging {
  import opened Wrappers
  import opened Text
  import opened NumPy

  /** The base collection frequencies, in Hz, that the logger accepts. */
  const FREQUENCIES: seq<int> := [1, 2, 4, 10, 20, 50, 100]

  /** `_last` once a CSV file exists, before any of its rows is read. */
  const LAST_INITIALIZE: seq<real> := [0.0, 0.0, 0.0, 0.0, 0.0, 0.0]

  /** `np.finfo(float).max`, the largest finite double, (2 - 2^-52) * 2^1023. */
  const FLOAT_MAX: real := 179769313486231570814527423731704356798070567525844996598917476803157260780028538760589558632766878171540458953514382464234321326889464182768467546703537516986049910576551282076245490090389328944075868508455133942304583236903222948165808559332123348274797826204144723168738177180919299881250404026184124858368.0

  /** The CSV columns, in the order every row holds them. */
  const COLUMNS: seq<string> :=
    ["time", "current", "voltage", "power", "charge", "energy", "current_min", "current_max"]

  // ---------------------------------------------------------------------------
  // Command line
  // ---------------------------------------------------------------------------

  /** `downsample_type_check`: an integer of at least 1. */
  function DownsampleTypeCheck(s: string): (r: Result<int>)
    ensures r.Ok? <==> ParseInt(s).Ok? && ParseInt(s).value >= 1
    ensures r.Ok? ==> r == ParseInt(s)
    ensures ParseInt(s).Ok? && !r.Ok? ==> r.error.ArgumentTypeError?
  {
    match ParseInt(s)
    case Err(e) => Err(e)
    case Ok(v) => if v < 1 then Err(ArgumentTypeError("'" + s + "' must be >= 1")) else Ok(v)
  }

  /** The spelling of an integer passes the check exactly when the integer is at least 1. */
  lemma DownsampleOfSpelling(n: int)
    ensures DownsampleTypeCheck(IntToString(n)).Ok? <==> n >= 1
    ensures n >= 1 ==> DownsampleTypeCheck(IntToString(n)) == Ok(n)
  {
    ParseIntOfIntToString(n);
  }

  /** `joulescope_count_to_str`. */
  function JoulescopeCountToStr(count: nat): (r: string)
    ensures r == "no Joulescopes" <==> count == 0
    ensures r == "one Joulescope" <==> count == 1
    ensures count >= 2 ==> |r| > 12 && IsDigit(r[0]) && r[|r| - 12..] == " Joulescopes"
  {
    if count == 0 then "no Joulescopes"
    else if count == 1 then "one Joulescope"
    else
      var digits := NatToString(count);
      assert IsDigit((digits + " Joulescopes")[0]);
      digits + " Joulescopes"
  }

  /** Different counts are reported differently. */
  lemma CountToStrInjective(a: nat, b: nat)
    requires JoulescopeCountToStr(a) == JoulescopeCountToStr(b)
    ensures a == b
  {
    var sa, sb := JoulescopeCountToStr(a), JoulescopeCountToStr(b);
    assert (a >= 2) == IsDigit(sa[0]);
    assert (b >= 2) == IsDigit(sb[0]);
    if a >= 2 {
      var da, db := NatToString(a), NatToString(b);
      assert |da| == |db|;
      assert da == sa[..|da|] && db == sb[..|db|];
      DigitsValueOfNatToString(a);
      DigitsValueOfNatToString(b);
    }
  }

  // ---------------------------------------------------------------------------
  // Logger: session parameters and their recovery from the event log
  // ---------------------------------------------------------------------------

  /** The parameters a `Logger` keeps, and that resuming a session restores. */
  datatype Params = Params(
    startTimeS: Option<real>,
    timeStr: Option<string>,
    downsample: int,
    frequency: int,
    jlsSamplingFrequency: Option<int>,
    source: Option<string>,
    devices: seq<string>)   // the device strings a `LoggerDevice` was created for

  const PARAM_SEP: string := EventSep("PARAM")
  const DEVICES_SEP: string := EventSep("DEVICES")

  function Last(parts: seq<string>): string
    requires |parts| > 0
  {
    parts[|parts| - 1]
  }

  /** The parameter names `_on_resume` restores. */
  const PARAM_NAMES: seq<string> := ["start_time", "start_str", "downsample", "frequency", "jls_sampling_frequency", "source"]

  /**
   * The effect of the assignment `name=value` that follows `PARAM : ` on an
   * event line: ValueError unless it splits into exactly two pieces at `=`.
   */
  function ApplyParam(p: Params, assignment: string): (r: Result<Params>)
    ensures r.Ok? ==> r.value.devices == p.devices
  {
    var parts := Split(assignment, "=");
    if |parts| != 2 then Err(ValueError("wrong number of values to unpack"))
    else ApplyNamed(p, parts[0], parts[1])
  }

  /** The effect of `name=value` once split: the parameter it names, parsed; other names change nothing. */
  function ApplyNamed(p: Params, name: string, value: string): (r: Result<Params>)
    ensures r.Ok? ==> r.value.devices == p.devices
  {
      if name == "start_time" then
        match ParseFloat(value)
        case Err(e) => Err(e)
        case Ok(t) => Ok(p.(startTimeS := Some(t)))
      else if name == "start_str" then Ok(p.(timeStr := Some(value)))
      else if name == "downsample" then
        match ParseInt(value)
        case Err(e) => Err(e)
        case Ok(d) => Ok(p.(downsample := d))
      else if name == "frequency" then
        match ParseInt(value)
        case Err(e) => Err(e)
        case Ok(f) => Ok(p.(frequency := f))
      else if name == "jls_sampling_frequency" then
        if value == "None" then Ok(p.(jlsSamplingFrequency := None))
        else
          match ParseInt(value)
          case Err(e) => Err(e)
          case Ok(j) => Ok(p.(jlsSamplingFrequency := Some(j)))
      else if name == "source" then Ok(p.(source := Some(value)))
      else Ok(p)
  }

  /**
   * An assignment that does not split into exactly two pieces at `=` is a
   * ValueError; one naming no restored parameter changes nothing.
   */
  lemma ParamEffect(p: Params, assignment: string)
    ensures |Split(assignment, "=")| != 2 ==> ApplyParam(p, assignment).Err?
    ensures var r := ApplyParam(p, assignment);
      r.Ok? && Split(assignment, "=")[0] !in PARAM_NAMES ==> r.value == p
  {
    var parts := Split(assignment, "=");
    if |parts| == 2 {
      NamedEffect(p, parts[0], parts[1]);
    }
  }

  /**
   * Only the four parsed names can fail; a name outside the restored ones
   * changes nothing; a success changes at most the field it names.
   */
  lemma NamedEffect(p: Params, name: string, value: string)
    ensures name !in PARAM_NAMES ==> ApplyNamed(p, name, value) == Ok(p)
    ensures var r := ApplyNamed(p, name, value);
      r.Err? ==> name in ["start_time", "downsample", "frequency", "jls_sampling_frequency"]
    ensures var r := ApplyNamed(p, name, value);
      r.Ok? ==> && r.value.devices == p.devices
                && (name != "start_time" ==> r.value.startTimeS == p.startTimeS)
                && (name != "start_str" ==> r.value.timeStr == p.timeStr)
                && (name != "downsample" ==> r.value.downsample == p.downsample)
                && (name != "frequency" ==> r.value.frequency == p.frequency)
                && (name != "jls_sampling_frequency" ==> r.value.jlsSamplingFrequency == p.jlsSamplingFrequency)
                && (name != "source" ==> r.value.source == p.source)
  {
  }

  /**
   * One line of the event log, as `_on_resume` reads it: the new parameters,
   * and whether the line ends the reading (`LOGGER : RUN`).
   */
  function ApplyLine(p: Params, raw: string): Result<(Params, bool)> {
    ReadLine(p, Strip(raw))
  }

  /** `ApplyLine` once the line is stripped of its surrounding whitespace. */
  function ReadLine(p: Params, line: string): (r: Result<(Params, bool)>)
    ensures r.Ok? ==> p.devices <= r.value.0.devices
  {
    var afterParam := if Contains(line, PARAM_SEP) then ApplyParam(p, Last(Split(line, PARAM_SEP))) else Ok(p);
    match afterParam
    case Err(e) => Err(e)
    case Ok(q) =>
      var q' := if Contains(line, "DEVICES ") then
        q.(devices := q.devices + Split(Last(Split(line, DEVICES_SEP)), ","))
      else q;
      Ok((q', Contains(line, "LOGGER : RUN")))
  }

  /**
   * Only a `PARAM` line can fail; a line ends the reading exactly when it holds
   * `LOGGER : RUN`; a line with neither marker changes nothing.
   */
  lemma ReadLineEffect(p: Params, line: string)
    ensures ReadLine(p, line).Err? ==> Contains(line, PARAM_SEP)
    ensures ReadLine(p, line).Ok? ==> (ReadLine(p, line).value.1 <==> Contains(line, "LOGGER : RUN"))
    ensures !Contains(line, PARAM_SEP) && !Contains(line, "DEVICES ") ==>
      ReadLine(p, line) == Ok((p, Contains(line, "LOGGER : RUN")))
  {
  }

  /** The parameters after reading `lines` from `p` on, and the error that stopped the reading, if any. */
  function Resumed(p: Params, lines: seq<string>): (r: (Params, Option<Error>))
    ensures p.devices <= r.0.devices
    ensures r.1.Some? ==> lines != []
    decreases |lines|
  {
    if lines == [] then (p, None)
    else
      match ApplyLine(p, lines[0])
      case Err(e) => (p, Some(e))
      case Ok((q, stop)) => if stop then (q, None) else Resumed(q, lines[1..])
  }

  /** Nothing after the first `LOGGER : RUN` line is read. */
  lemma {:induction false} ResumeStopsAtRun(p: Params, a: seq<string>, run: string, b: seq<string>)
    requires Contains(Strip(run), "LOGGER : RUN")
    ensures Resumed(p, a + [run] + b) == Resumed(p, a + [run])
    decreases |a|
  {
    if |a| == 0 {
      assert a + [run] + b == [run] + b;
      assert a + [run] == [run];
    } else {
      assert (a + [run] + b)[1..] == a[1..] + [run] + b;
      assert (a + [run])[1..] == a[1..] + [run];
      match ApplyLine(p, a[0])
      case Err(_) =>
      case Ok((q, stop)) =>
        if !stop {
          ResumeStopsAtRun(q, a[1..], run, b);
        }
    }
  }

  /** `on_event`: the event line `<timestamp> <name> : <message>`. */
  function EventLine(stamp: string, name: string, message: string): string {
    stamp + EventSep(name) + message + "\n"
  }

  /** An event line starts with its stamp, carries its message whole, and ends the line. */
  lemma EventLineLayout(stamp: string, name: string, message: string)
    ensures var r := EventLine(stamp, name, message);
      && |r| == |stamp| + |name| + |message| + 5
      && stamp <= r && r[|r| - 1] == '\n'
      && r[|stamp| + 4 + |name|..|r| - 1] == message
  {
    var r := EventLine(stamp, name, message);
    assert r == stamp + EventSep(name) + message + "\n";
    assert r[|stamp| + 4 + |name|..|r| - 1] == message;
  }

  /** What separates the timestamp from the message on an event line named `name`. */
  function EventSep(name: string): string {
    " " + name + " : "
  }

  /** The `PARAM` event `open` writes for one parameter: `name=value`. */
  function ParamEvent(stamp: string, name: string, value: string): string {
    EventLine(stamp, "PARAM", name + "=" + value)
  }

  /** The `%Y%m%d_%H%M%S.%f` timestamp that starts every event line. */
  predicate IsStamp(s: string) {
    |s| > 0 && forall i :: 0 <= i < |s| ==> IsDigit(s[i]) || s[i] == '_' || s[i] == '.'
  }

  /**
   * A parameter name or value that survives the event log: not empty, and
   * free of whitespace, of the `=` and `,` separators and of the letters
   * `D`, `L` and `P`, which would make the line look like a `DEVICES`,
   * `LOGGER` or `PARAM` line.
   */
  predicate IsWord(s: string) {
    |s| > 0 && forall i :: 0 <= i < |s| ==> WordChar(s[i])
  }

  predicate WordChar(c: char) {
    !IsSpace(c) && c != '=' && c != ',' && c != 'D' && c != 'L' && c != 'P'
  }

  lemma IntIsWord(n: int)
    ensures IsWord(IntToString(n))
  {
    var s := IntToString(n);
    var d := NatToString(if n < 0 then -n else n);
    assert AllDigits(d);
    if n < 0 {
      assert s == "-" + d;
      assert forall i :: 1 <= i < |s| ==> s[i] == d[i - 1];
    }
  }

  /** A `PARAM` line that `Logger.open` writes reads back as the assignment it records. */
  lemma ParamLineRoundTrip(p: Params, stamp: string, name: string, value: string)
    requires IsStamp(stamp) && IsWord(name) && IsWord(value)
    ensures ApplyLine(p, EventLine(stamp, "PARAM", name + "=" + value)) ==
      match ApplyParam(p, name + "=" + value)
      case Ok(q) => Ok((q, false))
      case Err(e) => Err(e)
  {
    var asg := name + "=" + value;
    var line := stamp + PARAM_SEP + asg;
    StampIsPlain(stamp);
    WordIsPlain(name);
    WordIsPlain(value);
    Lacks(' ', name, "=", value);
    Lacks('D', name, "=", value);
    Lacks('L', name, "=", value);
    SeparatorsUnmarked();
    Lacks('D', stamp, PARAM_SEP, asg);
    Lacks('L', stamp, PARAM_SEP, asg);
    StripEvent(stamp, "PARAM", asg);
    assert ApplyLine(p, EventLine(stamp, "PARAM", asg)) == ReadLine(p, line);
    SplitAround(stamp, PARAM_SEP, asg);
    NoMark(line, "DEVICES ");
    NoMark(line, "LOGGER : RUN");
  }

  /** The `DEVICES` line that `Logger.open` writes reads back as the list of device strings. */
  lemma DevicesLineRoundTrip(p: Params, stamp: string, devices: seq<string>)
    requires IsStamp(stamp) && |devices| > 0
    requires forall k :: 0 <= k < |devices| ==> IsWord(devices[k])
    ensures ApplyLine(p, EventLine(stamp, "DEVICES", Join(devices, ","))) ==
      Ok((p.(devices := p.devices + devices), false))
  {
    JoinIsWordList(devices);
    DevicesLine(p, stamp, Join(devices, ","));
    assert "," == [','];
    SplitJoin(devices, ',');
  }

  /** A `DEVICES` line adds the comma-separated pieces of its message to the devices. */
  lemma DevicesLine(p: Params, stamp: string, joined: string)
    requires IsStamp(stamp) && |joined| > 0 && Unmarked(joined) && !IsSpace(joined[|joined| - 1])
    ensures ApplyLine(p, EventLine(stamp, "DEVICES", joined)) ==
      Ok((p.(devices := p.devices + Split(joined, ",")), false))
  {
    StripEvent(stamp, "DEVICES", joined);
    DevicesLineMarks(stamp, joined);
  }

  /** How the stripped `DEVICES` line answers the tests `_on_resume` makes. */
  lemma DevicesLineMarks(stamp: string, joined: string)
    requires IsStamp(stamp) && Unmarked(joined)
    ensures var line := stamp + DEVICES_SEP + joined;
      && !Contains(line, PARAM_SEP)
      && !Contains(line, "LOGGER : RUN")
      && Contains(line, "DEVICES ")
      && Split(line, DEVICES_SEP) == [stamp, joined]
  {
    var line := stamp + DEVICES_SEP + joined;
    StampIsPlain(stamp);
    assert !Contains(line, PARAM_SEP) && !Contains(line, "LOGGER : RUN") by {
      SeparatorsUnmarked();
      Lacks('P', stamp, DEVICES_SEP, joined);
      Lacks('L', stamp, DEVICES_SEP, joined);
      NoParamMark(line);
      NoMark(line, "LOGGER : RUN");
    }
    assert Contains(line, "DEVICES ") by {
      assert Contains(DEVICES_SEP, "DEVICES ");
      ContainsAppend(DEVICES_SEP, joined, "DEVICES ");
      ContainsPrepend(stamp, DEVICES_SEP + joined, "DEVICES ");
      assert stamp + (DEVICES_SEP + joined) == line;
    }
    SplitAround(stamp, DEVICES_SEP, joined);
  }

  /** The `LOGGER : RUN` line ends the reading and changes nothing. */
  lemma RunLineEnds(p: Params, stamp: string)
    requires IsStamp(stamp)
    ensures ApplyLine(p, EventLine(stamp, "LOGGER", "RUN")) == Ok((p, true))
  {
    var line := stamp + " LOGGER : RUN";
    StampIsPlain(stamp);
    SeparatorsUnmarked();
    Lacks('P', stamp, " LOGGER : RUN", "");
    Lacks('D', stamp, " LOGGER : RUN", "");
    StripEvent(stamp, "LOGGER", "RUN");
    assert stamp + EventSep("LOGGER") + "RUN" == line;
    assert ApplyLine(p, EventLine(stamp, "LOGGER", "RUN")) == ReadLine(p, line);
    assert line == (stamp + " ") + "LOGGER : RUN" + "";
    ContainsInfix(stamp + " ", "LOGGER : RUN", "");
    NoParamMark(line);
    NoMark(line, "DEVICES ");
  }

  /** An event line, stripped, is the time stamp, the separator that names the event and the message. */
  lemma StripEvent(stamp: string, name: string, msg: string)
    requires IsStamp(stamp) && |msg| > 0 && !IsSpace(msg[|msg| - 1])
    ensures Strip(EventLine(stamp, name, msg)) == stamp + EventSep(name) + msg
  {
    var line := stamp + EventSep(name) + msg;
    assert EventLine(stamp, name, msg) == line + "\n";
    StampIsPlain(stamp);
    assert line[0] == stamp[0];
    StripLine(line);
  }

  lemma Lacks(c: char, a: string, b: string, d: string)
    requires c !in a && c !in b && c !in d
    ensures c !in a + b + d
  {
  }

  /** The letters that mark the other kinds of event line are absent from each separator. */
  lemma SeparatorsUnmarked()
    ensures 'D' !in PARAM_SEP && 'L' !in PARAM_SEP
    ensures 'P' !in DEVICES_SEP && 'L' !in DEVICES_SEP
    ensures 'P' !in " LOGGER : RUN" && 'D' !in " LOGGER : RUN"
  {
    assert PARAM_SEP == [' ', 'P', 'A', 'R', 'A', 'M', ' ', ':', ' '];
    assert DEVICES_SEP == [' ', 'D', 'E', 'V', 'I', 'C', 'E', 'S', ' ', ':', ' '];
  }

  /** None of the characters that separate or mark the event lines. */
  predicate Plain(s: string) {
    Unmarked(s) && ',' !in s
  }

  /** None of the characters that separate or mark the event lines, except the `,` between devices. */
  predicate Unmarked(s: string) {
    ' ' !in s && '=' !in s && 'D' !in s && 'L' !in s && 'P' !in s
  }

  lemma StampIsPlain(s: string)
    requires IsStamp(s)
    ensures Plain(s) && !IsSpace(s[0]) && !IsSpace(s[|s| - 1])
  {
  }

  lemma WordIsPlain(s: string)
    requires IsWord(s)
    ensures Plain(s) && NoSpace(s)
  {
  }

  /** A line without a `P` holds no `PARAM` event. */
  lemma NoParamMark(s: string)
    requires 'P' !in s
    ensures !Contains(s, PARAM_SEP)
  {
    NotContainsWithout(s, [], PARAM_SEP[1..]);
    assert s + [] == s;
    NotContainsTail(s, PARAM_SEP);
  }

  /** A line without the first character of a pattern does not contain it: no `D`, no `DEVICES ` event; no `L`, no `LOGGER : RUN`. */
  lemma NoMark(s: string, pat: string)
    requires |pat| > 0 && pat[0] !in s
    ensures !Contains(s, pat)
  {
    NotContainsWithout(s, [], pat);
    assert s + [] == s;
  }

  /** A string that does not contain the tail of `pat` does not contain `pat`. */
  lemma NotContainsTail(s: string, pat: string)
    requires |pat| > 0 && !Contains(s, pat[1..])
    ensures !Contains(s, pat)
  {
    if Contains(s, pat) {
      ContainsTail(s, pat);
    }
  }

  lemma {:induction false} ContainsTail(s: string, pat: string)
    requires |pat| > 0 && Contains(s, pat)
    ensures Contains(s, pat[1..])
    decreases |s|
  {
    if pat <= s {
      assert pat[1..] <= s[1..];
      assert Contains(s[1..], pat[1..]);
    } else {
      ContainsTail(s[1..], pat);
    }
  }

  lemma {:induction false} JoinIsWordList(devices: seq<string>)
    requires |devices| > 0
    requires forall k :: 0 <= k < |devices| ==> IsWord(devices[k])
    ensures |Join(devices, ",")| > 0
    ensures Unmarked(Join(devices, ","))
    ensures !IsSpace(Join(devices, ",")[|Join(devices, ",")| - 1])
    decreases |devices|
  {
    WordIsPlain(devices[0]);
    if |devices| > 1 {
      JoinIsWordList(devices[1..]);
      var rest := Join(devices[1..], ",");
      assert Join(devices, ",") == devices[0] + "," + rest;
    }
  }

  /** What `Logger.open` writes for `jls_sampling_frequency`. */
  function JlsText(j: Option<int>): string {
    match j
    case None => "None"
    case Some(f) => IntToString(f)
  }

  /**
   * The event log of a session, from its parameters to `LOGGER : RUN`, reads
   * back as the parameters it recorded and the devices it listed.  Nothing
   * after the `RUN` line is read.
   */
  lemma SessionResumes(p: Params, stamp: string, timeStr: string, downsample: int, frequency: int,
                       jls: Option<int>, source: string, devices: seq<string>, later: seq<string>)
    requires IsStamp(stamp) && IsWord(timeStr) && IsWord(source) && |devices| > 0
    requires forall k :: 0 <= k < |devices| ==> IsWord(devices[k])
    ensures
      var log := [
        ParamEvent(stamp, "start_str", timeStr),
        ParamEvent(stamp, "downsample", IntToString(downsample)),
        ParamEvent(stamp, "frequency", IntToString(frequency)),
        ParamEvent(stamp, "jls_sampling_frequency", JlsText(jls)),
        ParamEvent(stamp, "source", source),
        EventLine(stamp, "DEVICES", Join(devices, ",")),
        EventLine(stamp, "LOGGER", "RUN")] + later;
      Resumed(p, log) == (p.(timeStr := Some(timeStr), downsample := downsample, frequency := frequency,
                             jlsSamplingFrequency := jls, source := Some(source),
                             devices := p.devices + devices), None)
  {
    var q0 := p.(timeStr := Some(timeStr));
    var q1 := q0.(downsample := downsample);
    var q2 := q1.(frequency := frequency);
    var q3 := q2.(jlsSamplingFrequency := jls);
    var q4 := q3.(source := Some(source));
    var q5 := q4.(devices := p.devices + devices);
    var r6 := [EventLine(stamp, "LOGGER", "RUN")] + later;
    var r5 := [EventLine(stamp, "DEVICES", Join(devices, ","))] + r6;
    var r4 := [ParamEvent(stamp, "source", source)] + r5;
    var r3 := [ParamEvent(stamp, "jls_sampling_frequency", JlsText(jls))] + r4;
    var r2 := [ParamEvent(stamp, "frequency", IntToString(frequency))] + r3;
    var r1 := [ParamEvent(stamp, "downsample", IntToString(downsample))] + r2;
    var r0 := [ParamEvent(stamp, "start_str", timeStr)] + r1;
    assert Resumed(p, r0) == Resumed(q0, r1) by {
      StartStrLine(p, stamp, timeStr);
      ResumedStep(p, r0[0], q0, r1);
    }
    assert Resumed(q0, r1) == Resumed(q1, r2) by {
      IntIsWord(downsample);
      ParseIntOfIntToString(downsample);
      DownsampleLine(q0, stamp, IntToString(downsample), downsample);
      ResumedStep(q0, r1[0], q1, r2);
    }
    assert Resumed(q1, r2) == Resumed(q2, r3) by {
      IntIsWord(frequency);
      ParseIntOfIntToString(frequency);
      FrequencyLine(q1, stamp, IntToString(frequency), frequency);
      ResumedStep(q1, r2[0], q2, r3);
    }
    assert Resumed(q2, r3) == Resumed(q3, r4) by {
      JlsTextIsWord(jls);
      JlsLine(q2, stamp, jls);
      ResumedStep(q2, r3[0], q3, r4);
    }
    assert Resumed(q3, r4) == Resumed(q4, r5) by {
      SourceLine(q3, stamp, source);
      ResumedStep(q3, r4[0], q4, r5);
    }
    assert Resumed(q4, r5) == Resumed(q5, r6) by {
      DevicesLineRoundTrip(q4, stamp, devices);
      ResumedStep(q4, r5[0], q5, r6);
    }
    assert Resumed(q5, r6) == (q5, None) by {
      RunLineEnds(q5, stamp);
    }
    SevenLines(r0[0], r1[0], r2[0], r3[0], r4[0], r5[0], r6[0], later);
  }

  lemma SevenLines(l0: string, l1: string, l2: string, l3: string, l4: string, l5: string, l6: string,
                   later: seq<string>)
    ensures [l0, l1, l2, l3, l4, l5, l6] + later == [l0] + ([l1] + ([l2] + ([l3] + ([l4] + ([l5] + ([l6] + later))))))
  {
  }

  /** A line that the reading passes over hands its parameters on to the rest of the log. */
  lemma ResumedStep(p: Params, line: string, q: Params, rest: seq<string>)
    requires ApplyLine(p, line) == Ok((q, false))
    ensures Resumed(p, [line] + rest) == Resumed(q, rest)
  {
    assert ([line] + rest)[1..] == rest;
  }

  /** A `PARAM` line for `name=value` applies that assignment. */
  lemma ParamLine(p: Params, stamp: string, name: string, value: string, q: Params)
    requires IsStamp(stamp) && IsWord(name) && IsWord(value)
    requires ApplyNamed(p, name, value) == Ok(q)
    ensures ApplyLine(p, ParamEvent(stamp, name, value)) == Ok((q, false))
  {
    ParamLineRoundTrip(p, stamp, name, value);
    AssignmentParts(name, value);
  }

  /** The parameter names `open` writes are words of the log. */
  lemma ParamNamesAreWords()
    ensures IsWord("start_str") && IsWord("downsample") && IsWord("frequency")
    ensures IsWord("jls_sampling_frequency") && IsWord("source")
  {
    assert IsWord("start_str");
    assert IsWord("downsample");
    assert IsWord("frequency");
    assert IsWord("jls_sampling_frequency");
  }

  lemma StartStrLine(p: Params, stamp: string, timeStr: string)
    requires IsStamp(stamp) && IsWord(timeStr)
    ensures ApplyLine(p, ParamEvent(stamp, "start_str", timeStr)) == Ok((p.(timeStr := Some(timeStr)), false))
  {
    assert |"start_str"| != |"start_time"|;
    ParamNamesAreWords();
    ParamLine(p, stamp, "start_str", timeStr, p.(timeStr := Some(timeStr)));
  }

  /** The integer parameters take the value their text parses to. */
  lemma NamedInts(p: Params, v: string, n: int)
    requires ParseInt(v) == Ok(n)
    ensures ApplyNamed(p, "downsample", v) == Ok(p.(downsample := n))
    ensures ApplyNamed(p, "frequency", v) == Ok(p.(frequency := n))
  {
    assert "downsample"[0] != "start_time"[0] && "downsample"[0] != "start_str"[0];
    assert "frequency"[0] != "start_time"[0] && "frequency"[0] != "start_str"[0];
    assert "frequency"[0] != "downsample"[0];
  }

  /** `jls_sampling_frequency` takes `None` or the integer its text parses to. */
  lemma NamedJls(p: Params, jls: Option<int>)
    ensures ApplyNamed(p, "jls_sampling_frequency", JlsText(jls)) == Ok(p.(jlsSamplingFrequency := jls))
  {
    var name, v := "jls_sampling_frequency", JlsText(jls);
    assert name[0] != "start_time"[0] && name[0] != "start_str"[0];
    assert name[0] != "downsample"[0] && name[0] != "frequency"[0];
    if jls.Some? {
      ParseIntOfIntToString(jls.value);
      IntIsWord(jls.value);
      assert v[0] != "None"[0] by {
        assert v[0] == '-' || IsDigit(v[0]);
      }
    }
  }

  lemma DownsampleLine(p: Params, stamp: string, v: string, downsample: int)
    requires IsStamp(stamp) && IsWord(v) && ParseInt(v) == Ok(downsample)
    ensures ApplyLine(p, ParamEvent(stamp, "downsample", v)) == Ok((p.(downsample := downsample), false))
  {
    NamedInts(p, v, downsample);
    ParamNamesAreWords();
    ParamLine(p, stamp, "downsample", v, p.(downsample := downsample));
  }

  lemma FrequencyLine(p: Params, stamp: string, v: string, frequency: int)
    requires IsStamp(stamp) && IsWord(v) && ParseInt(v) == Ok(frequency)
    ensures ApplyLine(p, ParamEvent(stamp, "frequency", v)) == Ok((p.(frequency := frequency), false))
  {
    NamedInts(p, v, frequency);
    ParamNamesAreWords();
    ParamLine(p, stamp, "frequency", v, p.(frequency := frequency));
  }

  lemma JlsTextIsWord(jls: Option<int>)
    ensures IsWord(JlsText(jls))
  {
    if jls.Some? {
      IntIsWord(jls.value);
    } else {
      assert IsWord("None");
    }
  }

  lemma JlsLine(p: Params, stamp: string, jls: Option<int>)
    requires IsStamp(stamp) && IsWord(JlsText(jls))
    ensures ApplyLine(p, ParamEvent(stamp, "jls_sampling_frequency", JlsText(jls)))
      == Ok((p.(jlsSamplingFrequency := jls), false))
  {
    var name, v := "jls_sampling_frequency", JlsText(jls);
    NamedJls(p, jls);
    ParamNamesAreWords();
    ParamLine(p, stamp, name, v, p.(jlsSamplingFrequency := jls));
  }

  lemma SourceLine(p: Params, stamp: string, source: string)
    requires IsStamp(stamp) && IsWord(source)
    ensures ApplyLine(p, ParamEvent(stamp, "source", source)) == Ok((p.(source := Some(source)), false))
  {
    var name := "source";
    assert |name| != |"start_time"| && |name| != |"start_str"|;
    assert |name| != |"downsample"| && |name| != |"frequency"| && |name| != |"jls_sampling_frequency"|;
    ParamNamesAreWords();
    ParamLine(p, stamp, name, source, p.(source := Some(source)));
  }

  /** `name=value` splits at its one `=` into the name and the value. */
  lemma AssignmentParts(name: string, value: string)
    requires IsWord(name) && IsWord(value)
    ensures Split(name + "=" + value, "=") == [name, value]
  {
    NotContainsWithout(name, "=" [..0], "=");
    SplitAfterPiece(name, "=", value);
    NotContainsWithout(value, [], "=");
    assert value + [] == value;
    SplitWithoutSeparator(value, "=");
  }

  /** `Logger`: the session parameters and the header option. */
  class Logger {
    var startTimeS: Option<real>
    var timeStr: Option<string>
    var downsample: int
    var frequency: int
    var resume: bool
    var jlsSamplingFrequency: Option<int>
    var source: Option<string>
    var header: Option<string>
    var devices: seq<string>

    function State(): Params
      reads this
    {
      Params(startTimeS, timeStr, downsample, frequency, jlsSamplingFrequency, source, devices)
    }

    constructor (header: Option<string>, downsample: int, frequency: int, resume: bool,
                 jlsSamplingFrequency: Option<int>, source: Option<string>)
      ensures State() == Params(None, None, downsample, frequency, jlsSamplingFrequency, source, [])
      ensures this.header == header && this.resume == resume
    {
      startTimeS := None;
      timeStr := None;
      this.downsample := downsample;
      this.frequency := frequency;
      this.resume := resume;
      this.jlsSamplingFrequency := jlsSamplingFrequency;
      this.source := source;
      this.header := header;
      devices := [];
    }

    /**
     * `_on_resume`, from the lines of the most recent event log on: each line
     * is applied in turn until a `LOGGER : RUN` line or an error.
     */
    method OnResume(lines: seq<string>) returns (err: Option<Error>)
      modifies this
      ensures (State(), err) == Resumed(old(State()), lines)
      ensures header == old(header) && resume == old(resume)
    {
      ghost var start := State();
      var p := State();
      var i := 0;
      while i < |lines|
        invariant 0 <= i <= |lines|
        invariant Resumed(start, lines) == Resumed(p, lines[i..])
      {
        assert lines[i..][1..] == lines[i + 1..];
        var step := ApplyLine(p, lines[i]);
        if step.Err? {
          SetState(p);
          return Some(step.error);
        }
        p := step.value.0;
        if step.value.1 {
          SetState(p);
          return None;
        }
        i := i + 1;
      }
      SetState(p);
      return None;
    }

    /** The parameters that `_on_resume` assigns, each to its attribute. */
    method SetState(p: Params)
      modifies this
      ensures State() == p
      ensures header == old(header) && resume == old(resume)
    {
      startTimeS, timeStr, downsample, frequency := p.startTimeS, p.timeStr, p.downsample, p.frequency;
      jlsSamplingFrequency, source, devices := p.jlsSamplingFrequency, p.source, p.devices;
    }
  }

  /**
   * `Logger.__init__`: downsample defaults to 1 and frequency to 2; a
   * frequency outside `FREQUENCIES` raises ValueError.
   */
  method NewLogger(header: Option<string>, downsample: Option<int>, frequency: Option<int>, resume: bool,
                   jlsSamplingFrequency: Option<int>, source: Option<string>) returns (r: Result<Logger>)
    ensures r.Ok? <==> frequency.GetOr(2) in FREQUENCIES
    ensures r.Err? ==> r.error == ValueError("Unsupported frequency " + IntToString(frequency.GetOr(2)))
    ensures r.Ok? ==> (fresh(r.value)
      && r.value.State() == Params(None, None, downsample.GetOr(1), frequency.GetOr(2), jlsSamplingFrequency, source, [])
      && r.value.header == header && r.value.resume == resume)
  {
    var l := new Logger(header, downsample.GetOr(1), frequency.GetOr(2), resume, jlsSamplingFrequency, source);
    if l.frequency !in FREQUENCIES {
      return Err(ValueError("Unsupported frequency " + IntToString(l.frequency)));
    }
    return Ok(l);
  }

  // ---------------------------------------------------------------------------
  // LoggerDevice: downsampled rows, resumed charge and energy
  // ---------------------------------------------------------------------------

  /** The units the instrument reports with its statistics. */
  datatype Units = Units(current: string, voltage: string, power: string, charge: string, energy: string)

  /** One statistics callback: the means, the accumulators and the current extremes. */
  datatype Stats = Stats(current: real, voltage: real, power: real, charge: real, energy: real,
                         currentMin: real, currentMax: real, units: Units)

  /** A line of a device's CSV file; number formatting is not modelled. */
  datatype CsvLine = Text(text: string) | StartTime(t: Option<real>) | Row(values: seq<real>)

  /** The header lines written when a device's first statistics arrive. */
  function HeaderLines(header: Option<string>, u: Units, startTime: Option<real>, timeStr: Option<string>)
    : (h: seq<CsvLine>)
    ensures |h| == if header == Some("simple") then 1 else if header == Some("comment") || header == Some("full") then 4 else 0
    ensures |h| == 1 ==> h[0] == Text(Join(COLUMNS, ","))
    ensures |h| == 4 ==> h[0] == Text("#= header=" + Join(COLUMNS, ","))
    ensures |h| == 4 ==> h[2] == StartTime(startTime)
  {
    var columns := Join(COLUMNS, ",");
    var units := Join(["s", u.current, u.voltage, u.power, u.charge, u.energy, u.current, u.current], ",");
    if header == Some("simple") then [Text(columns)]
    else if header == Some("comment") || header == Some("full") then
      [Text("#= header=" + columns), Text("#= units=" + units), StartTime(startTime),
       Text("#= start_str=" + timeStr.GetOr("None"))]
    else []
  }

  /** The simple header names the eight columns of a row, charge fifth and energy sixth. */
  lemma HeaderNamesColumns(u: Units, startTime: Option<real>, timeStr: Option<string>)
    ensures HeaderLines(Some("simple"), u, startTime, timeStr) == [Text(Join(COLUMNS, ","))]
    ensures Split(Join(COLUMNS, ","), ",") == COLUMNS
    ensures |COLUMNS| == 8 && COLUMNS[4] == "charge" && COLUMNS[5] == "energy"
  {
    SplitJoin(COLUMNS, ',');
  }

  function Currents(ss: seq<Stats>): (r: seq<real>)
    ensures |r| == |ss| && forall k :: 0 <= k < |ss| ==> r[k] == ss[k].current
  {
    seq(|ss|, k requires 0 <= k < |ss| => ss[k].current)
  }

  function Voltages(ss: seq<Stats>): (r: seq<real>)
    ensures |r| == |ss| && forall k :: 0 <= k < |ss| ==> r[k] == ss[k].voltage
  {
    seq(|ss|, k requires 0 <= k < |ss| => ss[k].voltage)
  }

  function Powers(ss: seq<Stats>): (r: seq<real>)
    ensures |r| == |ss| && forall k :: 0 <= k < |ss| ==> r[k] == ss[k].power
  {
    seq(|ss|, k requires 0 <= k < |ss| => ss[k].power)
  }

  function Mins(ss: seq<Stats>): (r: seq<real>)
    ensures |r| == |ss| && forall k :: 0 <= k < |ss| ==> r[k] == ss[k].currentMin
  {
    seq(|ss|, k requires 0 <= k < |ss| => ss[k].currentMin)
  }

  function Maxs(ss: seq<Stats>): (r: seq<real>)
    ensures |r| == |ss| && forall k :: 0 <= k < |ss| ==> r[k] == ss[k].currentMax
  {
    seq(|ss|, k requires 0 <= k < |ss| => ss[k].currentMax)
  }

  /** `np.minimum` applied to each value in turn, from `FLOAT_MAX`. */
  function Lowest(vs: seq<real>): (r: real)
    ensures r <= FLOAT_MAX
    ensures forall k :: 0 <= k < |vs| ==> r <= vs[k]
    ensures r == FLOAT_MAX || r in vs
  {
    if vs == [] then FLOAT_MAX
    else
      var x := vs[|vs| - 1];
      var rest := Lowest(vs[..|vs| - 1]);
      assert forall y :: y in vs[..|vs| - 1] ==> y in vs;
      if x < rest then x else rest
  }

  /** `np.maximum` applied to each value in turn, from `-FLOAT_MAX`. */
  function Highest(vs: seq<real>): (r: real)
    ensures -FLOAT_MAX <= r
    ensures forall k :: 0 <= k < |vs| ==> vs[k] <= r
    ensures r == -FLOAT_MAX || r in vs
  {
    if vs == [] then -FLOAT_MAX
    else
      var x := vs[|vs| - 1];
      var rest := Highest(vs[..|vs| - 1]);
      assert forall y :: y in vs[..|vs| - 1] ==> y in vs;
      if x > rest then x else rest
  }

  /** For finite doubles, the running minimum is the minimum. */
  lemma LowestIsMinimum(vs: seq<real>)
    requires |vs| > 0 && forall k :: 0 <= k < |vs| ==> vs[k] <= FLOAT_MAX
    ensures Lowest(vs) == Minimum(vs)
  {
    var r, m := Lowest(vs), Minimum(vs);
    assert r <= m;
    assert m <= r by {
      if r == FLOAT_MAX {
        assert m <= vs[0];
      }
    }
  }

  /** For finite doubles, the running maximum is the maximum. */
  lemma HighestIsMaximum(vs: seq<real>)
    requires |vs| > 0 && forall k :: 0 <= k < |vs| ==> -FLOAT_MAX <= vs[k]
    ensures Highest(vs) == Maximum(vs)
  {
    var r, m := Highest(vs), Maximum(vs);
    assert m <= r;
    assert r <= m by {
      if r == -FLOAT_MAX {
        assert vs[0] <= m;
      }
    }
  }

  /**
   * The row emitted for the callbacks `ss` since the last row: time, the
   * three means, charge, energy, the lowest minimum and the highest maximum.
   */
  function RowOf(ss: seq<Stats>, t: real, c: real, e: real): (row: seq<real>)
    requires |ss| > 0
    ensures |row| == |COLUMNS|
  {
    var n := |ss| as real;
    [t, Sum(Currents(ss)) / n, Sum(Voltages(ss)) / n, Sum(Powers(ss)) / n, c, e, Lowest(Mins(ss)), Highest(Maxs(ss))]
  }

  /** Each mean in a row lies between the smallest and the largest value it averages. */
  lemma RowMeansBetween(ss: seq<Stats>, t: real, c: real, e: real)
    requires |ss| > 0
    ensures Minimum(Currents(ss)) <= RowOf(ss, t, c, e)[1] <= Maximum(Currents(ss))
    ensures Minimum(Voltages(ss)) <= RowOf(ss, t, c, e)[2] <= Maximum(Voltages(ss))
    ensures Minimum(Powers(ss)) <= RowOf(ss, t, c, e)[3] <= Maximum(Powers(ss))
  {
    var row := RowOf(ss, t, c, e);
    assert Minimum(Currents(ss)) <= row[1] <= Maximum(Currents(ss)) by {
      MeanOf(Currents(ss));
    }
    assert Minimum(Voltages(ss)) <= row[2] <= Maximum(Voltages(ss)) by {
      MeanOf(Voltages(ss));
    }
    assert Minimum(Powers(ss)) <= row[3] <= Maximum(Powers(ss)) by {
      MeanOf(Powers(ss));
    }
  }

  /** `_downsample_state`: the sums of current, voltage and power, and the running extremes of the current. */
  datatype Running = Running(mu: seq<real>, lo: real, hi: real)

  /** `_downsample_state_reset`: zero sums, extremes at the two ends of the double range. */
  const RESET: Running := Running([0.0, 0.0, 0.0], FLOAT_MAX, -FLOAT_MAX)

  /** One callback taken into the running state, as `on_statistics` does it. */
  function TakeIn(r: Running, x: Stats): (r': Running)
    requires |r.mu| == 3
    ensures |r'.mu| == 3
  {
    Running([r.mu[0] + x.current, r.mu[1] + x.voltage, r.mu[2] + x.power],
            if x.currentMin < r.lo then x.currentMin else r.lo,
            if x.currentMax > r.hi then x.currentMax else r.hi)
  }

  /** The running state after the callbacks `ss`, from a reset. */
  ghost function RunOver(ss: seq<Stats>): (r: Running)
    ensures |r.mu| == 3
    decreases |ss|
  {
    if ss == [] then RESET else TakeIn(RunOver(ss[..|ss| - 1]), ss[|ss| - 1])
  }

  /** The running sums and extremes are those of the callbacks `ss`. */
  ghost predicate Accumulates(ss: seq<Stats>, r: Running) {
    && r.mu == [Sum(Currents(ss)), Sum(Voltages(ss)), Sum(Powers(ss))]
    && r.lo == Lowest(Mins(ss))
    && r.hi == Highest(Maxs(ss))
  }

  /** Taking in one more callback keeps the sums and the extremes those of all callbacks. */
  lemma AccumulateOne(ss: seq<Stats>, x: Stats, r: Running)
    requires Accumulates(ss, r)
    ensures Accumulates(ss + [x], TakeIn(r, x))
  {
    var all := ss + [x];
    assert Currents(all) == Currents(ss) + [x.current];
    assert Voltages(all) == Voltages(ss) + [x.voltage];
    assert Powers(all) == Powers(ss) + [x.power];
    SumConcat(Currents(ss), [x.current]);
    SumConcat(Voltages(ss), [x.voltage]);
    SumConcat(Powers(ss), [x.power]);
    assert Mins(all)[..|all| - 1] == Mins(ss);
    assert Maxs(all)[..|all| - 1] == Maxs(ss);
  }

  /** The running state after `ss` holds the sums of `ss` and the extremes of its current. */
  lemma {:induction false} RunOverAccumulates(ss: seq<Stats>)
    ensures Accumulates(ss, RunOver(ss))
    decreases |ss|
  {
    if ss != [] {
      var init := ss[..|ss| - 1];
      RunOverAccumulates(init);
      AccumulateOne(init, ss[|ss| - 1], RunOver(init));
      assert init + [ss[|ss| - 1]] == ss;
    }
  }

  /**
   * What `_resume` makes of an existing CSV file: `_last`, `_offset` and the
   * error raised, if any.  `_last` is the last row that is not a comment,
   * or `LAST_INITIALIZE` when there is none or it does not parse.
   */
  function ResumeFrom(lines: seq<string>, offset: seq<real>): (r: (seq<real>, seq<real>, Option<Error>))
    ensures LastDataLine(lines).None? ==> r == (LAST_INITIALIZE, offset, None)
    ensures r.2.Some? ==> r.1 == offset
    ensures LastDataLine(lines).Some? && r.2.None? ==>
      && ParseRow(lines[LastDataLine(lines).value]) == Ok(r.0)
      && |r.0| > 5 && r.1 == [0.0, r.0[4], r.0[5]]
  {
    match LastDataLine(lines)
    case None => (LAST_INITIALIZE, offset, None)
    case Some(k) =>
      match ParseRow(lines[k])
      case Err(e) => (LAST_INITIALIZE, offset, Some(e))
      case Ok(row) =>
        match ResumeOffset(row)
        case Err(e) => (row, offset, Some(e))
        case Ok(o) => (row, o, None)
  }

  /** `line.startswith('#')`. */
  predicate IsComment(line: string) {
    |line| > 0 && line[0] == '#'
  }

  /** The last line of `lines` that is not a comment, if any. */
  function LastDataLine(lines: seq<string>): (r: Option<nat>)
    ensures r.Some? ==> r.value < |lines| && !IsComment(lines[r.value])
    ensures forall k :: (if r.Some? then r.value else -1) < k < |lines| ==> IsComment(lines[k])
  {
    if lines == [] then None
    else if !IsComment(lines[|lines| - 1]) then Some(|lines| - 1)
    else LastDataLine(lines[..|lines| - 1])
  }

  /** The loop of `_resume` over the lines from the last one back, skipping comments. */
  method FindLastDataLine(lines: seq<string>) returns (k: Option<nat>)
    ensures k == LastDataLine(lines)
  {
    var i := |lines|;
    while i > 0
      invariant 0 <= i <= |lines|
      invariant LastDataLine(lines) == LastDataLine(lines[..i])
    {
      i := i - 1;
      assert lines[..i + 1][..i] == lines[..i];
      if !IsComment(lines[i]) {
        assert lines[..i + 1][i] == lines[i];
        return Some(i);
      }
    }
    assert lines[..0] == [];
    return None;
  }

  /** `[parse(x) for x in parts]`, stopping at the first piece that raises. */
  function ParseEach(parse: string -> Result<real>, parts: seq<string>): Result<seq<real>> {
    if parts == [] then Ok([])
    else
      match parse(parts[0])
      case Err(e) => Err(e)
      case Ok(x) =>
        match ParseEach(parse, parts[1..])
        case Err(e) => Err(e)
        case Ok(xs) => Ok([x] + xs)
  }

  /** The pieces parse, all of them, exactly when no piece raises. */
  lemma {:induction false} ParseEachOk(parse: string -> Result<real>, parts: seq<string>)
    ensures ParseEach(parse, parts).Ok? <==> forall k :: 0 <= k < |parts| ==> parse(parts[k]).Ok?
  {
    if parts != [] {
      ParseEachOk(parse, parts[1..]);
      assert forall k :: 1 <= k < |parts| ==> parts[k] == parts[1..][k - 1];
    }
  }

  /** The values are the pieces' values, one for one; otherwise the error is that of the first piece that raises. */
  lemma {:induction false} ParseEachValues(parse: string -> Result<real>, parts: seq<string>)
    ensures var r := ParseEach(parse, parts);
      && (r.Ok? ==> |r.value| == |parts| && forall k :: 0 <= k < |parts| ==> parse(parts[k]) == Ok(r.value[k]))
      && (r.Err? ==> exists k :: 0 <= k < |parts| && parse(parts[k]) == Err(r.error)
                              && forall j :: 0 <= j < k ==> parse(parts[j]).Ok?)
  {
    if parts != [] {
      ParseEachValues(parse, parts[1..]);
      assert forall k :: 1 <= k < |parts| ==> parts[k] == parts[1..][k - 1];
      var r := ParseEach(parse, parts);
      if r.Err? && parse(parts[0]).Ok? {
        var k :| 0 <= k < |parts[1..]| && parse(parts[1..][k]) == Err(r.error)
                 && forall j :: 0 <= j < k ==> parse(parts[1..][j]).Ok?;
        assert parse(parts[k + 1]) == Err(r.error);
      }
    }
  }

  /** A CSV row: its comma-separated values. */
  function ParseRow(line: string): (r: Result<seq<real>>)
    ensures r.Ok? ==> |r.value| == |Split(Strip(line), ",")|
  {
    ParseEachValues(ParseFloat, Split(Strip(line), ","));
    ParseEach(ParseFloat, Split(Strip(line), ","))
  }

  /** The charge and energy offsets taken from the last row, as `_resume` is written: its last two values. */
  function ResumeOffsetAsWritten(row: seq<real>): (r: Result<seq<real>>)
    ensures r.Ok? <==> |row| >= 2
    ensures r.Ok? ==> r.value == [0.0, row[|row| - 2], row[|row| - 1]]
  {
    if |row| < 2 then Err(IndexError) else Ok([0.0, row[|row| - 2], row[|row| - 1]])
  }

  /** The charge and energy offsets taken from the charge and energy columns of the last row. */
  function ResumeOffset(row: seq<real>): (r: Result<seq<real>>)
    ensures r.Ok? <==> |row| > 5
  {
    if |row| <= 5 then Err(IndexError) else Ok([0.0, row[4], row[5]])
  }

  /** The offsets read back from a row the logger wrote are that row's charge and energy. */
  lemma ResumeContinuesCharge(ss: seq<Stats>, t: real, c: real, e: real)
    requires |ss| > 0
    ensures ResumeOffset(RowOf(ss, t, c, e)) == Ok([0.0, c, e])
  {
  }

  /**
   * As written, the offsets read back from a row the logger wrote are that
   * row's current minimum and maximum; for the row of a 3.3 mA load with 5 C
   * and 16.5 J accumulated, resuming continues from 0.0009 C and 0.0011 J.
   */
  lemma ResumeTakesCurrentRange(ss: seq<Stats>, t: real, c: real, e: real)
    requires |ss| > 0
    ensures ResumeOffsetAsWritten(RowOf(ss, t, c, e)) == Ok([0.0, Lowest(Mins(ss)), Highest(Maxs(ss))])
    ensures COLUMNS[|COLUMNS| - 2] == "current_min" && COLUMNS[|COLUMNS| - 1] == "current_max"
    ensures var row := [10.0, 0.0033, 3.3, 0.01089, 5.0, 16.5, 0.0009, 0.0011];
      ResumeOffsetAsWritten(row) == Ok([0.0, 0.0009, 0.0011]) && ResumeOffset(row) == Ok([0.0, 5.0, 16.5])
  {
  }

  /** `LoggerDevice`: one instrument's CSV file and downsampling state. */
  class LoggerDevice {
    const deviceStr: string
    var isOpen: bool
    var csvOpen: bool
    var last: Option<seq<real>>      // `_last`: the last row written or read back
    var offset: seq<real>            // `_offset`: time, charge and energy added to each row
    var counter: nat                 // `_downsample_counter`
    var mu: seq<real>                // running sums of current, voltage and power
    var lo: real                     // running minimum of the current minimums
    var hi: real                     // running maximum of the current maximums
    var csv: seq<CsvLine>            // what this session wrote to the CSV file
    ghost var pending: seq<Stats>    // the callbacks since the last row

    ghost predicate Valid()
      reads this
    {
      |offset| == 3 && counter == |pending| && Running(mu, lo, hi) == RunOver(pending)
    }

    /** `__init__`: no row yet, zero offsets and a reset downsampling state. */
    constructor (deviceStr: string)
      ensures Valid() && pending == []
      ensures this.deviceStr == deviceStr && !isOpen && !csvOpen
      ensures last.None? && offset == [0.0, 0.0, 0.0] && csv == []
    {
      this.deviceStr := deviceStr;
      isOpen := false;
      csvOpen := false;
      last := None;
      offset := [0.0, 0.0, 0.0];
      counter := 0;
      mu := [0.0, 0.0, 0.0];
      lo := FLOAT_MAX;
      hi := -FLOAT_MAX;
      csv := [];
      pending := [];
    }

    /** `_downsample_state_reset`: zero sums, extremes at the ends of the double range. */
    method DownsampleStateReset()
      modifies this
      ensures mu == [0.0, 0.0, 0.0] && lo == FLOAT_MAX && hi == -FLOAT_MAX && pending == []
      ensures counter == old(counter) && last == old(last) && offset == old(offset) && csv == old(csv)
      ensures isOpen == old(isOpen) && csvOpen == old(csvOpen)
    {
      mu := [0.0, 0.0, 0.0];
      lo := FLOAT_MAX;
      hi := -FLOAT_MAX;
      pending := [];
    }

    /**
     * `_resume`, with the charge and energy offsets read from the charge and
     * energy columns.  Nothing changes when there is no CSV file; otherwise
     * `_last` becomes the last row that is not a comment, and the offsets
     * continue that row's charge and energy.
     */
    method Resume(file: Option<seq<string>>) returns (err: Option<Error>)
      requires Valid()
      modifies this
      ensures Valid() && pending == old(pending)
      ensures file.None? ==> err.None? && last == old(last) && offset == old(offset)
      ensures file.Some? ==> last.Some? && (last.value, offset, err) == ResumeFrom(file.value, old(offset))
      ensures counter == old(counter) && csv == old(csv) && isOpen == old(isOpen) && csvOpen == old(csvOpen)
    {
      if file.None? {
        return None;
      }
      var lines := file.value;
      last := Some(LAST_INITIALIZE);
      var k := FindLastDataLine(lines);
      if k.None? {
        return None;
      }
      var row := ParseRow(lines[k.value]);
      if row.Err? {
        return Some(row.error);
      }
      last := Some(row.value);
      var o := ResumeOffset(row.value);
      if o.Err? {
        return Some(o.error);
      }
      offset := o.value;
      return None;
    }

    /**
     * `open`, past the instrument set-up: nothing happens on a device already
     * open; a different device raises ValueError; otherwise the CSV file is
     * resumed and opened for appending.
     */
    method Open(device: string, file: Option<seq<string>>) returns (err: Option<Error>)
      requires Valid()
      modifies this
      ensures Valid() && pending == old(pending) && counter == old(counter) && csv == old(csv)
      ensures old(isOpen) ==> err.None? && isOpen && csvOpen == old(csvOpen) && last == old(last) && offset == old(offset)
      ensures !old(isOpen) && device != deviceStr ==>
        err == Some(ValueError("Mismatch device")) && !isOpen && last == old(last) && offset == old(offset)
      ensures !old(isOpen) && device == deviceStr && err.None? ==> isOpen && csvOpen
      ensures !old(isOpen) && device == deviceStr && file.None? ==> err.None? && last == old(last) && offset == old(offset)
      ensures !old(isOpen) && device == deviceStr && file.Some? ==>
        last.Some? && (last.value, offset, err) == ResumeFrom(file.value, old(offset))
      ensures err.Some? ==> !isOpen && csvOpen == old(csvOpen)
    {
      if isOpen {
        return None;
      }
      if device != deviceStr {
        return Some(ValueError("Mismatch device"));
      }
      err := Resume(file);
      if err.Some? {
        return;
      }
      csvOpen := true;
      isOpen := true;
    }

    /** `close`: the row is forgotten and the device and file are closed. */
    method Close()
      modifies this
      ensures last.None? && !isOpen && !csvOpen
      ensures offset == old(offset) && counter == old(counter) && csv == old(csv)
      ensures mu == old(mu) && lo == old(lo) && hi == old(hi) && pending == old(pending)
    {
      last := None;
      isOpen := false;
      csvOpen := false;
    }

    /** `write`: text goes to the CSV file only while it is open. */
    method Write(text: string)
      modifies this
      ensures csv == old(csv) + (if csvOpen then [Text(text)] else [])
      ensures last == old(last) && offset == old(offset) && counter == old(counter)
      ensures mu == old(mu) && lo == old(lo) && hi == old(hi) && pending == old(pending)
      ensures isOpen == old(isOpen) && csvOpen == old(csvOpen)
    {
      if csvOpen {
        csv := csv + [Text(text)];
      }
    }

    /** `stop`: the charge and energy of the last row, for the summary message. */
    function StopTotals(): (r: Result<(real, real)>)
      reads this
      ensures r.Ok? <==> last.Some? && |last.value| > 5
      ensures r.Ok? ==> r.value == (last.value[4], last.value[5])
    {
      match last
      case None => Err(TypeError)
      case Some(row) => if |row| <= 5 then Err(IndexError) else Ok((row[4], row[5]))
    }

    /**
     * `on_statistics`: the first callback writes the header; every
     * `downsample`-th callback since the last row writes a row of the averaged
     * values and starts a new average.
     */
    method OnStatistics(data: Stats, now: real, startTime: real, downsample: int,
                        header: Option<string>, timeStr: Option<string>)
      requires Valid()
      modifies this
      ensures Valid()
      ensures var all := old(pending) + [data];
        var t := now - startTime + offset[0];
        var head := if old(last).None? then HeaderLines(header, data.units, Some(startTime), timeStr) else [];
        if old(counter) + 1 >= downsample then
          && last == Some(RowOf(all, t, data.charge + offset[1], data.energy + offset[2]))
          && csv == old(csv) + head + [Row(last.value)]
          && counter == 0 && pending == []
        else
          && last == (if old(last).None? then Some(LAST_INITIALIZE) else old(last))
          && csv == old(csv) + head
          && counter == old(counter) + 1 && pending == all
      ensures counter < downsample || counter == 0
      ensures offset == old(offset) && isOpen == old(isOpen) && csvOpen == old(csvOpen)
    {
      if last.None? {
        last := Some(LAST_INITIALIZE);
        csv := csv + HeaderLines(header, data.units, Some(startTime), timeStr);
      }
      var t := now - startTime + offset[0];
      var c := data.charge + offset[1];
      var e := data.energy + offset[2];
      Accumulate(data);
      if counter >= downsample {
        EmitRow(t, c, e);
      }
    }

    /** The accumulation step of `on_statistics`: sums, extremes and the counter take in `data`. */
    method Accumulate(data: Stats)
      requires Valid()
      modifies this
      ensures Valid() && pending == old(pending) + [data] && counter == old(counter) + 1
      ensures last == old(last) && offset == old(offset) && csv == old(csv)
      ensures isOpen == old(isOpen) && csvOpen == old(csvOpen)
    {
      mu := [mu[0] + data.current, mu[1] + data.voltage, mu[2] + data.power];
      lo := if data.currentMin < lo then data.currentMin else lo;
      hi := if data.currentMax > hi then data.currentMax else hi;
      assert (pending + [data])[..|pending|] == pending;
      pending := pending + [data];
      counter := counter + 1;
    }

    /** The emission step of `on_statistics`: the averaged row is written and a new average starts. */
    method EmitRow(t: real, c: real, e: real)
      requires Valid() && counter > 0
      modifies this
      ensures Valid() && pending == [] && counter == 0
      ensures last == Some(RowOf(old(pending), t, c, e))
      ensures csv == old(csv) + [Row(last.value)]
      ensures offset == old(offset) && isOpen == old(isOpen) && csvOpen == old(csvOpen)
    {
      var n := counter as real;
      var s := [mu[0] / n, mu[1] / n, mu[2] / n];
      counter := 0;
      last := Some([t] + s + [c, e, lo, hi]);
      assert last.value == RowOf(pending, t, c, e) by {
        assert [t] + s + [c, e, lo, hi] == [t, s[0], s[1], s[2], c, e, lo, hi];
        assert n == |pending| as real;
        RunOverAccumulates(pending);
      }
      DownsampleStateReset();
      csv := csv + [Row(last.value)];
    }
  }
}
