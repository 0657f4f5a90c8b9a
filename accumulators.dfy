/**
 * `accumulators.py`: the `--duration`/`--update` parser, and the statistics
 * callback that keeps the latest statistics and prints the charge and energy
 * at most once per update interval until a stop or a user exit sets the quit
 * flag.
 */
module Accumulators {
  import opened Wrappers
  import opened Text

  /** `int_or_none`: no value stays no value; anything else goes through `int`. */
  function IntOrNone(x: Option<string>): (r: Result<Option<int>>)
    ensures x.None? <==> r == Ok(None)
    ensures x.Some? ==> (r.Ok? <==> ParseInt(x.value).Ok?)
    ensures x.Some? && r.Ok? ==> r.value == Some(ParseInt(x.value).value)
  {
    match x
    case None => Ok(None)
    case Some(s) =>
      match ParseInt(s)
      case Ok(n) => Ok(Some(n))
      case Err(e) => Err(e)
  }

  /** The decimal spelling of any integer reads back as that integer. */
  lemma IntOrNoneOfIntToString(n: int)
    ensures IntOrNone(Some(IntToString(n))) == Ok(Some(n))
  {
    ParseIntOfIntToString(n);
  }

  /** The fields of a statistics update that the report shows. */
  datatype Statistics = Statistics(
    time: real, timeUnits: string,
    charge: real, chargeUnits: string,
    energy: real, energyUnits: string)

  /** What `_statistics_to_user_str` reports. */
  datatype Report =
    | NoStatistics
    | Summary(duration: int, timeUnits: string, charge: real, chargeUnits: string, energy: real, energyUnits: string)

  /** The lines the program prints. */
  datatype Message = UserExitRequested | CaptureCompleted | Update(report: Report)

  /** Python's `int` on a float: truncation toward zero. */
  function Truncate(x: real): (n: int)
    ensures x >= 0.0 ==> n as real <= x < n as real + 1.0
    ensures x < 0.0 ==> n as real - 1.0 < x <= n as real
  {
    if x >= 0.0 then x.Floor else -((-x).Floor)
  }

  /**
   * The report for the statistics seen so far: "no statistics" before the
   * first update, otherwise the duration in whole units, the charge and the energy.
   */
  function ReportOf(statistics: Option<Statistics>): (r: Report)
    ensures r == NoStatistics <==> statistics.None?
    ensures statistics.Some? ==>
      r.charge == statistics.value.charge && r.energy == statistics.value.energy &&
      r.duration == Truncate(statistics.value.time)
  {
    match statistics
    case None => NoStatistics
    case Some(s) =>
      Summary(Truncate(s.time), s.timeUnits, s.charge, s.chargeUnits, s.energy, s.energyUnits)
  }

  class Accumulators {
    var quit: bool
    var statistics: Option<Statistics>
    var updatePrevious: real
    var updateInterval: real
    /** What the program has printed so far. */
    var printed: seq<Message>
    /** The number of updates printed by the statistics callback. */
    ghost var updates: nat

    /** The time of the last update is a whole number of intervals: one per update printed. */
    ghost predicate Valid()
      reads this
    {
      updatePrevious == updates as real * updateInterval
    }

    constructor ()
      ensures Valid()
      ensures !quit && statistics == None && updatePrevious == 0.0 && updateInterval == 60.0
      ensures printed == [] && updates == 0
    {
      quit := false;
      statistics := None;
      updatePrevious := 0.0;
      updateInterval := 60.0;
      printed := [];
      updates := 0;
    }

    /** `run` sets the interval from `--update` before any statistics arrive. */
    method Configure(update: int)
      requires Valid()
      modifies this`updateInterval
      ensures updateInterval == update as real
      ensures updates == 0 ==> Valid()
    {
      updateInterval := update as real;
    }

    /** The report `run` prints at the end, and the callback prints on each update. */
    function UserStr(): (r: Report)
      reads this
      ensures r == NoStatistics <==> statistics == None
    {
      ReportOf(statistics)
    }

    /** SIGINT: prints its message unless already quitting, then quits. */
    method OnUserExit()
      modifies this`quit, this`printed
      ensures quit
      ensures printed == old(printed) + (if old(quit) then [] else [UserExitRequested])
    {
      if !quit {
        printed := printed + [UserExitRequested];
      }
      quit := true;
    }

    /** The end of the capture duration: prints its message unless already quitting, then quits. */
    method OnStop()
      modifies this`quit, this`printed
      ensures quit
      ensures printed == old(printed) + (if old(quit) then [] else [CaptureCompleted])
    {
      if !quit {
        printed := printed + [CaptureCompleted];
      }
      quit := true;
    }

    /**
     * Keeps the latest statistics. Once their time reaches one interval past
     * the previous update, prints one report and moves the previous update
     * forward by exactly one interval.
     */
    method OnStatistics(s: Statistics)
      requires Valid()
      modifies this`statistics, this`updatePrevious, this`printed, this`updates
      ensures Valid()
      ensures statistics == Some(s)
      ensures s.time >= old(updatePrevious) + updateInterval ==>
        printed == old(printed) + [Update(ReportOf(Some(s)))] &&
        updatePrevious == old(updatePrevious) + updateInterval && updates == old(updates) + 1 &&
        s.time >= updatePrevious
      ensures s.time < old(updatePrevious) + updateInterval ==>
        printed == old(printed) && updatePrevious == old(updatePrevious) && updates == old(updates)
      ensures updateInterval >= 0.0 ==> updatePrevious >= old(updatePrevious)
    {
      statistics := Some(s);
      var durationNow := s.time;
      if durationNow >= updatePrevious + updateInterval {
        printed := printed + [Update(UserStr())];
        updatePrevious := updatePrevious + updateInterval;
        updates := updates + 1;
      }
    }
  }
}
