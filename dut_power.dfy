/**
 * `dut_power.py`: reads an optional on/off word from the command line and
 * sets the device's sensor power and current range so that the device under
 * test is powered or not.
 */
module DutPower {
  import opened Wrappers
  import opened Text

  /** The words, after lower-casing, that switch the device under test on. */
  const ON_WORDS: seq<string> := ["1", "on", "true", "enable"]
  /** The words, after lower-casing, that switch it off. */
  const OFF_WORDS: seq<string> := ["0", "off", "false", "disable"]

  /**
   * The power setting `run` chooses from `sys.argv`: on without an argument,
   * on or off for a word of either list in any letter case, and no setting
   * (the usage line is printed) for any other word.
   */
  function PowerSetting(argv: seq<string>): (r: Option<bool>)
    ensures |argv| <= 1 ==> r == Some(true)
    ensures |argv| > 1 ==> (r == Some(true) <==> Lower(argv[1]) in ON_WORDS)
    ensures |argv| > 1 ==> (r == Some(false) <==> Lower(argv[1]) in OFF_WORDS)
    ensures r == None <==> |argv| > 1 && Lower(argv[1]) !in ON_WORDS + OFF_WORDS
  {
    if |argv| <= 1 then Some(true)
    else
      var word := Lower(argv[1]);
      if word in ON_WORDS then Some(true)
      else if word in OFF_WORDS then Some(false)
      else None
  }

  /** One `parameter_set` call on the device. */
  datatype Call = ParameterSet(name: string, value: string)

  /**
   * `dut_power`: the sensor is always powered, and the current range is
   * automatic when the device under test is on and off when it is off.
   */
  function DutPowerCalls(powerOn: bool): (calls: seq<Call>)
    ensures |calls| == 2
    ensures calls[0] == ParameterSet("sensor_power", "on")
    ensures calls[1].name == "i_range"
    ensures powerOn <==> calls[1].value == "auto"
    ensures !powerOn <==> calls[1].value == "off"
  {
    [ParameterSet("sensor_power", "on"), ParameterSet("i_range", if powerOn then "auto" else "off")]
  }

  /** What `run` does: prints the usage line, or makes the device calls. */
  datatype Outcome = Usage | Configured(calls: seq<Call>)

  function Run(argv: seq<string>): (o: Outcome)
    ensures o.Usage? <==> PowerSetting(argv) == None
    ensures o.Configured? ==> o.calls == DutPowerCalls(PowerSetting(argv).value)
  {
    match PowerSetting(argv)
    case None => Usage
    case Some(on) => Configured(DutPowerCalls(on))
  }

  lemma LowerIdempotent(s: string)
    ensures Lower(Lower(s)) == Lower(s)
  {
    forall i | 0 <= i < |s|
      ensures Lower(Lower(s))[i] == Lower(s)[i]
    {
      assert LowerChar(LowerChar(s[i])) == LowerChar(s[i]);
    }
  }

  /** The word is matched without regard to letter case. */
  lemma CaseInsensitive(argv: seq<string>)
    requires |argv| > 1
    ensures PowerSetting(argv) == PowerSetting(argv[1 := Lower(argv[1])])
  {
    LowerIdempotent(argv[1]);
  }

  /** Without an argument the device under test is powered and its current range is automatic. */
  lemma NoArgumentPowersOn(program: string)
    ensures Run([program]) == Configured([ParameterSet("sensor_power", "on"), ParameterSet("i_range", "auto")])
  {
  }

  /** Upper-case words select the same setting as their lower-case spelling. */
  lemma UpperCaseWords(program: string)
    ensures Run([program, "ON"]) == Configured(DutPowerCalls(true))
    ensures Run([program, "Disable"]) == Configured(DutPowerCalls(false))
  {
    assert Lower("ON") == "on";
    assert Lower("Disable") == "disable";
  }

  /** A word in neither list makes no device call. */
  lemma OtherWordUsage(program: string)
    ensures Run([program, "maybe"]) == Usage
  {
    assert Lower("maybe") == "maybe";
  }
}
