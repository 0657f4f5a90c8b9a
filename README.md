# Joulescope example scripts, modelled in Dafny

This project models the logic at the heart of a set of Joulescope example
scripts: the command-line tools that drive a Joulescope current and voltage
meter through its streaming buffer. Each script becomes one Dafny module.
The code of each module takes the form the script has: classes with fields
for objects the script updates in place, methods with loops where the
script loops, and functions and lemmas where it only computes.

- `trigger.dfy` (`Trigger`, from `bin/trigger.py`): waits for a start
  condition on a general-purpose input (GPI): a level, an edge or a
  duration. It then accumulates current, voltage and power with three
  `Signal` accumulators until the end condition. Each window becomes one
  17-column record. The model proves:
  - the detectors find the first matching sample;
  - every window is fed only its own samples, and windows are ordered;
  - the windows a call records are exactly those of `Run`, a function of the
    stream that applies the start and end detectors pass by pass;
  - each record holds the mean, minimum and maximum of the current, voltage
    and power of exactly the finite samples its window was fed, with the
    charge and energy they integrate to;
  - each call processes its whole range, or stops once the requested number
    of windows is reached.
- `windowed_accum.dfy` (`WindowedAccum`, from `bin/windowed_accum.py`):
  reports the stretches where IN0 is high that last at least
  `SAMPLE_COUNT_MIN` samples. The detector is proved to be independent of
  how the stream is split into calls. The windows it reports are exactly
  the maximal long-enough high runs, in order, each once.
- `downsample_logging.dfy` (`DownsampleLogging`, from
  `bin/downsample_logging.py`): the session's event log and its `--resume`
  reader, plus each device's CSV writer. The writer averages every
  `downsample` statistics callbacks into one row. The model proves:
  - the event log a session writes reads back as the parameters and devices
    it recorded;
  - the running sums and extremes are those of the pending callbacks;
  - each mean lies between its extremes;
  - resuming continues the charge and energy columns.
- `read_by_callback.dfy` (`ReadByCallback`): a buffer rounded up to whole
  chunks, filled chunk by chunk in place (a two-column `array2`).
- `capture_jls_v2.dfy` (`CaptureJlsV2`): the duration and sampling-rate
  argument parsers, and the stream callback. The callback's writes cover
  the sample ids end to end, for both signals.
- `jls_recode.dfy` (`JlsRecode`): the block partition of a recording and the
  60-cell progress bar. The copy loop as written divides by zero for a single
  block; the model draws a full bar there instead.
- `accumulators.dfy` (`Accumulators`): the `--update` parser and the
  statistics callback. The callback reports once per update interval and
  quits on a stop or a user exit.
- `gpi_synchronized.dfy` (`GpiSynchronized`): the edges of the GPI and the
  13-sample windows plotted around them.
- `plot_cal.dfy` (`PlotCal`, from `joulescope_examples/plot_cal.py`):
  counts the non-finite samples and finds the runs of non-finite samples.
- `dut_power.dfy` (`DutPower`): turns the on/off word into the device's
  sensor-power and current-range settings.

Shared modules:
- `wrappers.dfy`: `Option` and `Result`, with the Python exceptions raised
  as `Error` values.
- `text.dfy`: the Python string operations used (`strip`, `split`, `join`,
  `lower`, `int`, `str`, a decimal `float`).
- `numpy.dfy`: the few NumPy reductions used.
- `stream_buffer.dfy`: the device's stream buffer, as two functions from
  sample id to value.

Floating-point values are exact `real`s throughout. Files, the clock, the
device and the terminal are parameters or ghost fields:
- an existing file is given by its lines;
- what is written is kept as a sequence;
- wall-clock time is an argument.

## Model

| member | source | states |
|---|---|---|
| Trigger.Gpi | pyjoulescope/bin/trigger.py:300-302 | the GPI slice `samples_get(s, e, fields=...)` holds one bit per id of `[s, e)`, read from the selected input |
| Trigger.InLevelLow | pyjoulescope/bin/trigger.py:300-305 | a result exists exactly when some sample is low; it is the id of the first low sample, inside the slice |
| Trigger.InLevelHigh | pyjoulescope/bin/trigger.py:307-312 | a result exists exactly when some sample is high; it is the id of the first high sample, inside the slice |
| Trigger.FirstEdgeFrom | pyjoulescope/bin/trigger.py:322-325 | the first transition to the given level at or after an index, and no transition before it; none when there is none |
| Trigger.FirstEdge | pyjoulescope/bin/trigger.py:322-325 | `argmax(diff(gpi))` finds a transition exactly when one exists, and it is the first one |
| Trigger.InEdge | pyjoulescope/bin/trigger.py:314-340 | at stream start (`s <= 0`) a first sample already at the level fires at `s`; otherwise a result exists exactly when a transition exists and is the id before the first one; every result lies in the slice |
| Trigger.EdgeAcrossBatchesIsMissed | pyjoulescope/bin/trigger.py:314-326 | a rising edge that falls exactly between two batches is found by one call over both, and by neither of two calls over each |
| Trigger.Signal.constructor | pyjoulescope/bin/trigger.py:170-174 | a new accumulator has seen no values |
| Trigger.Signal.Clear | pyjoulescope/bin/trigger.py:176-180 | after `clear` the accumulator has seen no values |
| Trigger.Signal.Add | pyjoulescope/bin/trigger.py:182-192 | the values seen grow by the batch; the sum, count and extremes are those of everything seen |
| Trigger.Signal.Result | pyjoulescope/bin/trigger.py:194-199 | the result is the summary of every value added since `clear`: three `None` exactly when nothing was added, otherwise their mean, minimum and maximum |
| Trigger.Signal.MeanLiesBetween | pyjoulescope/bin/trigger.py:194-199 | once something was added, the mean is `np.mean` of the values added and lies between their minimum and maximum |
| Trigger.SummaryOf | pyjoulescope/bin/trigger.py:194-199 | a summary has no mean exactly when it has no values |
| Trigger.SummaryBounds | pyjoulescope/bin/trigger.py:182-199 | no values give three `None`; otherwise the minimum and maximum are values that bound every value, the mean is `np.mean`, and minimum <= mean <= maximum |
| Trigger.WindowOfResults | pyjoulescope/bin/trigger.py:265-272 | a record whose three summaries, charge and energy are those of the samples fed is the window of those samples |
| Trigger.OptionCell | pyjoulescope/bin/trigger.py:274-276 | a missing value is printed as `NAN`, and only a missing value |
| Trigger.SummaryCells | pyjoulescope/bin/trigger.py:265-271 | mean, min and max take three fields |
| Trigger.CellsMatchColumns | pyjoulescope/bin/trigger.py:268-283 | every line has one field per column (17); Ah and Wh are C and J divided by 3600; a missing current mean prints NAN; ids print as integers |
| Trigger.Finite | pyjoulescope/bin/trigger.py:376-377 | `i_all[finite_idx]` is no longer than the batch |
| Trigger.FiniteSelects | pyjoulescope/bin/trigger.py:376-377 | every sample kept has a finite current and comes from the batch, and every sample of the batch with a finite current is kept |
| Trigger.FiniteConcat | pyjoulescope/bin/trigger.py:376-377 | filtering two batches one after the other keeps the finite samples of the first and then those of the second |
| Trigger.Currents | pyjoulescope/bin/trigger.py:373 | one current per sample |
| Trigger.Voltages | pyjoulescope/bin/trigger.py:374 | one voltage per sample |
| Trigger.Powers | pyjoulescope/bin/trigger.py:375 | one power per sample |
| Trigger.ColumnsConcat | pyjoulescope/bin/trigger.py:373-375 | the current, voltage and power columns of two batches are the columns of the first followed by those of the second |
| Trigger.OpeningDecreases | pyjoulescope/bin/trigger.py:429-434 | opening a window at or after the idle state's bound lowers the loop's termination measure |
| Trigger.ClosingDecreases | pyjoulescope/bin/trigger.py:437-445 | closing a window at or after the open state's bound lowers the loop's termination measure |
| Trigger.FedAppend | pyjoulescope/bin/trigger.py:439-443 | feeding a later range keeps the fed ranges increasing and after the window start |
| Trigger.FedWithinBelow | pyjoulescope/bin/trigger.py:437-445 | ranges fed up to one bound are fed up to any later bound |
| Trigger.FedBelowWithin | pyjoulescope/bin/trigger.py:410-416 | ranges that end by the capture-duration trigger id lie inside the window |
| Trigger.RecordsOkAppend | pyjoulescope/bin/trigger.py:264-290 | appending a well-formed record keeps every record well-formed |
| Trigger.Capture.WindowsAreOrdered | pyjoulescope/bin/trigger.py:426-445 | every emitted window ends no earlier than it starts, and strictly later unless the capture duration is zero samples |
| Trigger.Capture.WindowsFedInside | pyjoulescope/bin/trigger.py:433-445 | the samples in a window's statistics lie strictly after its start trigger and before its end, none used twice: the start-trigger sample is never added |
| Trigger.Capture.constructor | pyjoulescope/bin/trigger.py:204-221 | count 0, not triggered, no last id, no records, no start or end time |
| Trigger.Capture.ResultsSummarise | pyjoulescope/bin/trigger.py:265-269 | what the three accumulators report, and the charge and energy, are the summaries and sums of the finite samples fed since `start` |
| Trigger.Capture.Stop | pyjoulescope/bin/trigger.py:251-293 | a no-op when idle; otherwise the end id defaults to the last id processed, count rises by exactly one, the capture is idle, and the record appended is that of the window from its start to the end id: the current, voltage and power summaries of every finite sample fed since `start`, and their current and power sums divided by the sampling frequency as charge and energy |
| Trigger.Capture.Emit | pyjoulescope/bin/trigger.py:256-292 | the count rises by one, the end time is set, the given record is appended and the capture is idle; what the window was fed is kept |
| Trigger.Capture.Start | pyjoulescope/bin/trigger.py:232-249 | an open window is first stopped at the last id processed (count +1, its record, with the statistics of every sample it was fed, appended); then the accumulators are empty, charge and energy are zero, nothing has been fed, and a window is open at the trigger id |
| Trigger.Capture.Open | pyjoulescope/bin/trigger.py:235-248 | the accumulators are empty, charge and energy are zero, nothing has been fed, and a window is open at the trigger id; count and records are kept |
| Trigger.Capture.ClearSignals | pyjoulescope/bin/trigger.py:239-241 | the three accumulators are emptied |
| Trigger.Capture.AddToSignals | pyjoulescope/bin/trigger.py:381-383 | each accumulator gets its batch appended |
| Trigger.Capture.Add | pyjoulescope/bin/trigger.py:371-389 | the finite samples of the range are appended to the samples fed and, column by column, to the three accumulators (charge and energy stay their sums by the invariant); the range is recorded as fed; nothing else changes |
| Trigger.Capture.Absorb | pyjoulescope/bin/trigger.py:376-387 | the samples given extend the samples fed, and the current, voltage and power accumulators each by their column; nothing else changes |
| Trigger.EndAt | pyjoulescope/bin/trigger.py:391-416 | `none` never fires; duration fires at the open id plus the capture duration exactly when the range reaches past it; level and edge triggers fire inside the range; the result is before the range end |
| Trigger.StartAt | pyjoulescope/bin/trigger.py:342-369 | `none` fires at the first id; duration fires at the previous end plus the start duration exactly when the range reaches past it; level and edge triggers fire inside the range |
| Trigger.Cells | pyjoulescope/bin/trigger.py:264-283 | one field per column; start and end ids as integers in fields 0 and 2; the current, voltage and power means in fields 4, 7 and 10, NAN when missing |
| Trigger.Advance | pyjoulescope/bin/trigger.py:426-445 | one pass on the control state: it never goes past the range end; it closes a window only when one was open, from that window's start to the id just before where the loop goes on, and records that end; an open window with no end trigger stays open to the range end; well-formed control states stay well formed |
| Trigger.AdvanceDecreases | pyjoulescope/bin/trigger.py:426-445 | a pass keeps the control state well formed and either reaches the range end or lowers the termination measure |
| Trigger.ZeroDurationsCycle | pyjoulescope/bin/trigger.py:426-445 | as written, zero-sample start and capture durations re-open and close a window at the same id and come back to the same state at the same id, so the loop does not end |
| Trigger.Run | pyjoulescope/bin/trigger.py:426-447 | the loop over a range as a function of the stream: the windows closed, in order, each with the samples it was fed, stopping exactly when the `--count` quota is used up, and never leaving a window open then |
| Trigger.Continue | pyjoulescope/bin/trigger.py:444-447 | after a pass, the rest of the loop stops exactly when the window that pass closed uses up the `--count` quota, and then no window is open |
| Trigger.RunUnfolds | pyjoulescope/bin/trigger.py:426-447 | a run is one pass followed by the run from where the pass ended, while quota is left |
| Trigger.ContinueGoesOn | pyjoulescope/bin/trigger.py:444-447 | when the pass leaves quota over, what follows it is its window, if any, and then the run from where it ended |
| Trigger.ContinueStops | pyjoulescope/bin/trigger.py:444-446 | when the window of the pass uses up the quota, the run ends with it |
| Trigger.RunGoesOn | pyjoulescope/bin/trigger.py:426-448 | the windows emitted so far plus those of the rest of the run are the windows of the whole run, after one more pass |
| Trigger.RunStops | pyjoulescope/bin/trigger.py:445-446 | a pass that uses up the quota ends the run with that pass's window |
| Trigger.RunEnds | pyjoulescope/bin/trigger.py:426 | a run at the end of the range emits nothing and changes nothing |
| Trigger.EmitsAppend | pyjoulescope/bin/trigger.py:264-291 | the record of the window a pass closes extends the records of the windows emitted so far |
| Trigger.FedUpTo | pyjoulescope/bin/trigger.py:437-445 | a window fed only up to where processing got is fed only up to its end trigger |
| Trigger.Capture.Ctl | pyjoulescope/bin/trigger.py:204-221 | the control state is the triggered flag, the window start and the previous end |
| Trigger.Capture.Quota | pyjoulescope/bin/trigger.py:445-446 | the windows still allowed plus those emitted make `--count` |
| Trigger.Capture.FeedBefore | pyjoulescope/bin/trigger.py:439-443 | `[start_id, trigger_id - 1)` is fed exactly when `start_id + 2 < trigger_id`, adding its finite samples to those fed; nothing else changes |
| Trigger.Capture.TrackedStep | pyjoulescope/bin/trigger.py:426-448 | one pass keeps the loop invariant: what was emitted plus the run from the new position is the whole run; it stops exactly when `--count` windows exist |
| Trigger.Capture.StartTrigger | pyjoulescope/bin/trigger.py:342-369 | the result is StartAt's; a duration start records the first id as the previous end when there is none, and nothing else changes |
| Trigger.Capture.IdleStep | pyjoulescope/bin/trigger.py:427-434 | with no start trigger (StartAt) in the range the capture stays idle and the pass ends at the range end; with one at t a window opens at t, nothing fed yet, and the next pass starts at t + 1; the measure decreases |
| Trigger.Capture.OpenStep | pyjoulescope/bin/trigger.py:435-445 | with no end trigger (EndAt) the finite samples of the whole range are fed and the pass ends at the range end; with one at t the samples of `[start_id, t - 1)` are fed when there are at least two, the window closes at t, count +1, and the record appended is that of the window from its start to t over every sample fed since `start`; next pass at t + 1; the measure decreases |
| Trigger.Capture.CloseAt | pyjoulescope/bin/trigger.py:441-445 | `[start_id, trigger_id - 1)` is fed only when `start_id + 2 < trigger_id`; the window then closes at the trigger id and the record appended holds the statistics, charge and energy of every sample fed since `start` |
| Trigger.Capture.Step | pyjoulescope/bin/trigger.py:426-445 | one pass: the new control state (including the samples fed) and next id are those of Advance; a record is appended exactly when Advance closes a window, and it is the record of that window |
| Trigger.Capture.Call | pyjoulescope/bin/trigger.py:418-450 | processing resumes at the last id processed when that is later; an empty range changes nothing (control state, last id, count, records, charge, energy and ranges fed all kept); otherwise the records appended are exactly those of the windows of Run from there, statistics included, the final control state is Run's, true is returned exactly when `--count` windows exist, else the last id becomes `end_id` |
| Trigger.Capture.ProcessRange | pyjoulescope/bin/trigger.py:426-450 | the loop appends exactly the records of the windows of Run, in order, statistics included, and ends in Run's control state; true exactly when the count is reached, and then no window is open; otherwise the last id processed is `end_id` |
| Trigger.Capture.Close | pyjoulescope/bin/trigger.py:295-296 | an open window is stopped at the last id processed (end time set, count +1) and its record, with the statistics of every sample fed, appended; when idle nothing changes; window start, last id, charge, energy and samples fed are kept either way |
| WindowedAccum.Emit | pyjoulescope/bin/windowed_accum.py:66-69 | a window is reported, as `(start, end)`, exactly when it holds at least `SAMPLE_COUNT_MIN` (10) samples |
| WindowedAccum.Step | pyjoulescope/bin/windowed_accum.py:96-110 | one sample: a window is open afterwards exactly when the sample is high, opened at this sample when none was open; reports are only appended |
| WindowedAccum.Fold | pyjoulescope/bin/windowed_accum.py:94-113 | the per-sample reference: reports only grow, and after a non-empty range a window is open exactly when its last sample is high |
| WindowedAccum.FoldSplit | pyjoulescope/bin/windowed_accum.py:94-113 | processing a range in one go equals processing it in two consecutive pieces |
| WindowedAccum.FoldNext | pyjoulescope/bin/windowed_accum.py:94-113 | processing one more sample is one more step |
| WindowedAccum.FoldQuiet | pyjoulescope/bin/windowed_accum.py:96-103 | samples that are low while idle, or high while a window is open, change nothing |
| WindowedAccum.FoldKeepsRuns | pyjoulescope/bin/windowed_accum.py:96-108 | every window reported so far is a long-enough run of high samples, and reports are only ever appended |
| WindowedAccum.WindowsAreHighRuns | pyjoulescope/bin/windowed_accum.py:96-108 | every reported window is a maximal run of at least 10 high samples, ending at a low sample |
| WindowedAccum.LongRunsAreReported | pyjoulescope/bin/windowed_accum.py:96-108 | every maximal run of at least 10 high samples that ends at a low sample before the range end is reported |
| WindowedAccum.FoldInOrder | pyjoulescope/bin/windowed_accum.py:96-108 | reports are non-empty, in stream order, each ending before the next starts and before the current position, and before an open window's start |
| WindowedAccum.WindowsAreLongRuns | pyjoulescope/bin/windowed_accum.py:94-113 | the reports are exactly the maximal long high runs ending before the range end, in order, each once |
| WindowedAccum.Transit | pyjoulescope/bin/windowed_accum.py:96-113 | one more step of the per-sample fold at the position the scan reached is the fold one sample further |
| WindowedAccum.Settle | pyjoulescope/bin/windowed_accum.py:96-110 | when no transition happens before a position, the loop's state is the fold up to it |
| WindowedAccum.ScanLoop | pyjoulescope/bin/windowed_accum.py:94-113 | the loop as written ends with `sample_id_last` at `end_id` |
| WindowedAccum.Pulse | pyjoulescope/bin/windowed_accum.py:93 | a test IN0 signal: high on one interval, low elsewhere |
| WindowedAccum.MisalignedWindow | pyjoulescope/bin/windowed_accum.py:89-113 | as written, with calls over `[0, 5)` then `[0, 30)` and IN0 high on 10..24, the window reported is `(10, 20)`; sample by sample it is `(10, 25)` |
| WindowedAccum.PulseWindow | pyjoulescope/bin/windowed_accum.py:94-113 | sample by sample, IN0 high on 10..24 of 30 samples reports exactly the window `(10, 25)` |
| WindowedAccum.CallAsWritten | pyjoulescope/bin/windowed_accum.py:85-113 | `__call__` as written: an empty or already processed range changes nothing; otherwise `sample_id_last` ends at `end_id` |
| WindowedAccum.WindowDetect.constructor | pyjoulescope/bin/windowed_accum.py:51-59 | nothing processed; the header is the only line written, and only when a file name is given |
| WindowedAccum.WindowDetect.Close | pyjoulescope/bin/windowed_accum.py:61-64 | the file is closed and nothing else changes, so a second close does nothing more |
| WindowedAccum.WindowDetect.Process | pyjoulescope/bin/windowed_accum.py:66-69 | a closed window is reported exactly when it is long enough; nothing else changes |
| WindowedAccum.WindowDetect.Pass | pyjoulescope/bin/windowed_accum.py:95-113 | one pass opens the window at the first high sample or closes it at the first low one, or runs to `end_id`; the state stays the per-sample fold |
| WindowedAccum.WindowDetect.Call | pyjoulescope/bin/windowed_accum.py:85-113 | an empty range or one already processed changes nothing; otherwise `sample_id_last` becomes `end_id` and the state is the per-sample fold of the new samples, so cutting the stream into calls differently gives the same windows |
| DownsampleLogging.DownsampleTypeCheck | pyjoulescope/bin/downsample_logging.py:124-128 | accepts exactly the ASCII decimal integer texts of value at least 1, returning that value; a parsed value below 1 raises ArgumentTypeError |
| DownsampleLogging.DownsampleOfSpelling | pyjoulescope/bin/downsample_logging.py:124-128 | the decimal spelling of n passes the check iff n >= 1, and then yields n |
| DownsampleLogging.CountToStrInjective | pyjoulescope/bin/downsample_logging.py:131-137 | two different device counts are never reported with the same text |
| DownsampleLogging.JoulescopeCountToStr | pyjoulescope/bin/downsample_logging.py:131-137 | "no Joulescopes" exactly for 0, "one Joulescope" exactly for 1, otherwise the decimal count followed by " Joulescopes" |
| DownsampleLogging.ApplyParam | pyjoulescope/bin/downsample_logging.py:250-267 | a `PARAM` assignment never changes the devices |
| DownsampleLogging.ParamEffect | pyjoulescope/bin/downsample_logging.py:251 | an assignment that does not split into two pieces at `=` raises ValueError; one naming no restored parameter changes nothing |
| DownsampleLogging.ApplyNamed | pyjoulescope/bin/downsample_logging.py:252-267 | a named assignment never changes the devices |
| DownsampleLogging.NamedEffect | pyjoulescope/bin/downsample_logging.py:252-267 | only start_time, downsample, frequency and jls_sampling_frequency can fail; an unknown name changes nothing; each name changes only its own field |
| DownsampleLogging.ReadLine | pyjoulescope/bin/downsample_logging.py:249-272 | reading a line only ever adds devices |
| DownsampleLogging.ReadLineEffect | pyjoulescope/bin/downsample_logging.py:249-272 | only a `PARAM` line can fail; a line ends the reading exactly when it holds `LOGGER : RUN`; a line with neither marker changes nothing |
| DownsampleLogging.Resumed | pyjoulescope/bin/downsample_logging.py:247-272 | reading the lines in turn only adds devices; an error needs a line |
| DownsampleLogging.EventLineLayout | pyjoulescope/bin/downsample_logging.py:327-333 | an event line is the stamp, ` name : `, the whole message and a newline |
| DownsampleLogging.ResumeStopsAtRun | pyjoulescope/bin/downsample_logging.py:247-272 | no event-log line after the first `LOGGER : RUN` line affects the resumed parameters |
| DownsampleLogging.IntIsWord | pyjoulescope/bin/downsample_logging.py:291-292 | the text of any integer parameter is a word that survives the event log |
| DownsampleLogging.ParamLineRoundTrip | pyjoulescope/bin/downsample_logging.py:250-267 | a `PARAM` line written for `name=value` reads back as applying that assignment |
| DownsampleLogging.DevicesLineRoundTrip | pyjoulescope/bin/downsample_logging.py:268-270 | the `DEVICES` line written for a device list reads back as that same list of devices |
| DownsampleLogging.DevicesLine | pyjoulescope/bin/downsample_logging.py:268-270 | a `DEVICES` line appends the comma-separated pieces of its message to the devices |
| DownsampleLogging.DevicesLineMarks | pyjoulescope/bin/downsample_logging.py:249-272 | a stripped `DEVICES` line passes the `DEVICES ` test, fails the `PARAM` and `RUN` tests, and splits into stamp and device list |
| DownsampleLogging.RunLineEnds | pyjoulescope/bin/downsample_logging.py:271-272 | the `LOGGER : RUN` line ends the reading and changes no parameter |
| DownsampleLogging.StripEvent | pyjoulescope/bin/downsample_logging.py:327-336 | an event line, stripped, is the stamp, the event's separator and the message |
| DownsampleLogging.SeparatorsUnmarked | pyjoulescope/bin/downsample_logging.py:250-272 | the separator of each event kind lacks the marker letters of the other kinds |
| DownsampleLogging.StampIsPlain | pyjoulescope/bin/downsample_logging.py:331-332 | a `%Y%m%d_%H%M%S.%f` stamp holds no separator or marker and no outer whitespace |
| DownsampleLogging.WordIsPlain | pyjoulescope/bin/downsample_logging.py:289-295 | a logged word holds no separator, marker or whitespace |
| DownsampleLogging.NoParamMark | pyjoulescope/bin/downsample_logging.py:250 | a line without `P` never passes the `PARAM` test |
| DownsampleLogging.NoMark | pyjoulescope/bin/downsample_logging.py:268-271 | a line without the first character of `DEVICES ` or `LOGGER : RUN` never passes that `in` test |
| DownsampleLogging.NotContainsTail | pyjoulescope/bin/downsample_logging.py:250-271 | a line lacking the tail of a pattern lacks the pattern (the `in` tests of the reading) |
| DownsampleLogging.ContainsTail | pyjoulescope/bin/downsample_logging.py:250-271 | a line containing a pattern contains its tail |
| DownsampleLogging.JoinIsWordList | pyjoulescope/bin/downsample_logging.py:298-302 | the comma-joined device list is non-empty, unmarked, and does not end in whitespace |
| DownsampleLogging.SessionResumes | pyjoulescope/bin/downsample_logging.py:276-304 | the event log `open` writes, read back by `_on_resume`, restores start_str, downsample, frequency, jls_sampling_frequency, source and the devices, whatever follows `RUN` |
| DownsampleLogging.ResumedStep | pyjoulescope/bin/downsample_logging.py:248-272 | a line the reading passes over hands its parameters on to the following lines |
| DownsampleLogging.ParamLine | pyjoulescope/bin/downsample_logging.py:250-267 | a `PARAM` line applies the named assignment and does not end the reading |
| DownsampleLogging.ParamNamesAreWords | pyjoulescope/bin/downsample_logging.py:291-295 | every parameter name `open` writes is a word of the log |
| DownsampleLogging.StartStrLine | pyjoulescope/bin/downsample_logging.py:254-255 | the `start_str` line sets the time string to its value |
| DownsampleLogging.NamedInts | pyjoulescope/bin/downsample_logging.py:256-259 | `downsample` and `frequency` take the integer their value parses to |
| DownsampleLogging.NamedJls | pyjoulescope/bin/downsample_logging.py:260-265 | `jls_sampling_frequency` takes None for `None` and the parsed integer otherwise |
| DownsampleLogging.DownsampleLine | pyjoulescope/bin/downsample_logging.py:256-257 | the `downsample` line sets downsample to the parsed integer |
| DownsampleLogging.FrequencyLine | pyjoulescope/bin/downsample_logging.py:258-259 | the `frequency` line sets frequency to the parsed integer |
| DownsampleLogging.JlsTextIsWord | pyjoulescope/bin/downsample_logging.py:294 | the written `jls_sampling_frequency` value is a word of the log |
| DownsampleLogging.JlsLine | pyjoulescope/bin/downsample_logging.py:260-265 | the `jls_sampling_frequency` line restores the value `open` wrote |
| DownsampleLogging.SourceLine | pyjoulescope/bin/downsample_logging.py:266-267 | the `source` line sets the source to its value |
| DownsampleLogging.AssignmentParts | pyjoulescope/bin/downsample_logging.py:251 | `name=value` splits at its single `=` into exactly the name and the value |
| DownsampleLogging.Logger.constructor | pyjoulescope/bin/downsample_logging.py:200-216 | a new logger holds the given downsample, frequency, jls frequency and source, no time and no devices |
| DownsampleLogging.Logger.OnResume | pyjoulescope/bin/downsample_logging.py:247-272 | the new parameters and error are those of reading the log lines in turn until `RUN` or an error |
| DownsampleLogging.Logger.SetState | pyjoulescope/bin/downsample_logging.py:252-270 | the parameters become exactly the given ones; header and resume flag are kept |
| DownsampleLogging.NewLogger | pyjoulescope/bin/downsample_logging.py:200-218 | downsample defaults to 1 and frequency to 2; construction succeeds iff the frequency is in FREQUENCIES, else ValueError naming it |
| DownsampleLogging.HeaderNamesColumns | pyjoulescope/bin/downsample_logging.py:528-544 | the simple header is one line naming the eight columns, charge fifth and energy sixth |
| DownsampleLogging.HeaderLines | pyjoulescope/bin/downsample_logging.py:528-546 | `simple` writes the column line alone; `comment` and `full` write four lines, `#= header=` and the columns first and the start time third; other headers write nothing |
| DownsampleLogging.Lowest | pyjoulescope/bin/downsample_logging.py:560 | the running `np.minimum` from FLOAT_MAX is at most every value and is FLOAT_MAX or one of them |
| DownsampleLogging.Highest | pyjoulescope/bin/downsample_logging.py:561 | the running `np.maximum` from -FLOAT_MAX is at least every value and is -FLOAT_MAX or one of them |
| DownsampleLogging.LowestIsMinimum | pyjoulescope/bin/downsample_logging.py:560 | on finite doubles the running minimum equals the minimum |
| DownsampleLogging.HighestIsMaximum | pyjoulescope/bin/downsample_logging.py:561 | on finite doubles the running maximum equals the maximum |
| DownsampleLogging.RowOf | pyjoulescope/bin/downsample_logging.py:564-566 | an emitted row has one value per column; its means are bounded by RowMeansBetween |
| DownsampleLogging.RowMeansBetween | pyjoulescope/bin/downsample_logging.py:559-566 | each averaged current, voltage and power lies between the smallest and largest callback value it averages |
| DownsampleLogging.TakeIn | pyjoulescope/bin/downsample_logging.py:559-561 | the state keeps three running sums; what they hold is stated by AccumulateOne |
| DownsampleLogging.AccumulateOne | pyjoulescope/bin/downsample_logging.py:559-562 | after one more callback the sums and extremes are those of all callbacks taken in |
| DownsampleLogging.RunOverAccumulates | pyjoulescope/bin/downsample_logging.py:559-562 | after any callbacks from a reset, the running state holds their sums and current extremes |
| DownsampleLogging.LastDataLine | pyjoulescope/bin/downsample_logging.py:431-434 | the chosen line is not a comment and every later line is one |
| DownsampleLogging.FindLastDataLine | pyjoulescope/bin/downsample_logging.py:431-436 | the backward loop finds the last line that is not a comment |
| DownsampleLogging.ParseRow | pyjoulescope/bin/downsample_logging.py:434 | a parsed row has one value per comma-separated piece of the stripped line |
| DownsampleLogging.ResumeFrom | pyjoulescope/bin/downsample_logging.py:426-436 | corrected `_resume` on the lines: no data line keeps the offsets and resets the last row; otherwise the last data row parsed, with offsets 0, its charge and its energy; a failed parse keeps the offsets |
| DownsampleLogging.ParseEachOk | pyjoulescope/bin/downsample_logging.py:434 | the row parses iff every piece parses |
| DownsampleLogging.ParseEachValues | pyjoulescope/bin/downsample_logging.py:434 | the row's values are the pieces' values one for one, else the error is the first failing piece's |
| DownsampleLogging.ResumeOffsetAsWritten | pyjoulescope/bin/downsample_logging.py:435 | as written, the offsets are the row's last two values (IndexError for shorter rows) |
| DownsampleLogging.ResumeOffset | pyjoulescope/bin/downsample_logging.py:435 | the corrected offsets exist iff the row reaches the energy column |
| DownsampleLogging.ResumeContinuesCharge | pyjoulescope/bin/downsample_logging.py:435 | read back from a row the logger wrote, the corrected offsets are that row's charge and energy |
| DownsampleLogging.ResumeTakesCurrentRange | pyjoulescope/bin/downsample_logging.py:435 | as written, the offsets read back are the row's current minimum and maximum, with a concrete row |
| DownsampleLogging.LoggerDevice.constructor | pyjoulescope/bin/downsample_logging.py:392-408 | no row yet, zero offsets, reset state, nothing open or written |
| DownsampleLogging.LoggerDevice.DownsampleStateReset | pyjoulescope/bin/downsample_logging.py:410-413 | sums zero, minimum FLOAT_MAX, maximum -FLOAT_MAX; nothing else changes |
| DownsampleLogging.LoggerDevice.Resume | pyjoulescope/bin/downsample_logging.py:423-436 | the corrected `_resume` (see Findings): without a file nothing changes; with one, the last row and the offsets are ResumeFrom's, charge and energy taken from their own columns |
| DownsampleLogging.LoggerDevice.Open | pyjoulescope/bin/downsample_logging.py:438-471 | an open device is left alone; a mismatched device raises ValueError; otherwise the file is resumed: without a CSV file the open succeeds with the row and offsets kept, with one the last row, the offsets and any error are those of `_resume` (ResumeFrom); on success the device and file are open |
| DownsampleLogging.LoggerDevice.Close | pyjoulescope/bin/downsample_logging.py:494-502 | the row is forgotten and device and file closed; sums and offsets are kept |
| DownsampleLogging.LoggerDevice.Write | pyjoulescope/bin/downsample_logging.py:504-506 | text is appended to the CSV only while it is open |
| DownsampleLogging.LoggerDevice.StopTotals | pyjoulescope/bin/downsample_logging.py:483 | the summary's charge and energy are the last row's fifth and sixth values, IndexError without them |
| DownsampleLogging.LoggerDevice.OnStatistics | pyjoulescope/bin/downsample_logging.py:517-569 | the first callback writes the header; every downsample-th callback writes the averaged row of the pending callbacks and restarts |
| DownsampleLogging.LoggerDevice.Accumulate | pyjoulescope/bin/downsample_logging.py:559-562 | the callback joins the pending ones and the counter goes up by one |
| DownsampleLogging.LoggerDevice.EmitRow | pyjoulescope/bin/downsample_logging.py:563-569 | the row of the pending callbacks is kept as last and written; the average restarts |
| NumPy.FirstWhere | pyjoulescope/bin/trigger.py:300-312 | `np.argmax`/`np.argmin` on a boolean array: the first index holding the value sought, every earlier index holding the other; the length when there is none |
| NumPy.Minimum | pyjoulescope/joulescope_examples/plot_cal.py:83 | `np.min` is one of the values and at most all of them |
| NumPy.Maximum | pyjoulescope/joulescope_examples/plot_cal.py:84 | `np.max` is one of the values and at least all of them |
| NumPy.SumConcat | pyjoulescope/bin/downsample_logging.py:559 | the sum of two stretches of callbacks is the sum of their sums |
| NumPy.SumAtLeast | pyjoulescope/joulescope_examples/plot_cal.py:81 | a sum is at least its length times a lower bound of its values |
| NumPy.SumAtMost | pyjoulescope/joulescope_examples/plot_cal.py:81 | a sum is at most its length times an upper bound of its values |
| NumPy.MeanBounds | pyjoulescope/bin/downsample_logging.py:564 | the mean of values between two bounds lies between them |
| NumPy.MeanBetween | pyjoulescope/bin/downsample_logging.py:564 | a total between n·lo and n·hi, divided by n, lies between lo and hi |
| NumPy.MeanOf | pyjoulescope/joulescope_examples/plot_cal.py:81-84 | `np.mean` lies between `np.min` and `np.max` |
| NumPy.MeanTimesCount | pyjoulescope/bin/trigger.py:198 | the mean times the number of values is their sum |
| StreamBuffers.Samples | pyjoulescope/bin/capture_jls_v2.py:124-126 | `samples_get(from, to)` returns one value per sample id of the range, in order |
| Text.TrimStart | pyjoulescope/bin/downsample_logging.py:249 | the leading whitespace, and only it, is removed |
| Text.TrimEnd | pyjoulescope/bin/downsample_logging.py:249 | the trailing whitespace, and only it, is removed |
| Text.Strip | pyjoulescope/bin/downsample_logging.py:249 | the stripped line neither starts nor ends with whitespace and is no longer than the line |
| Text.StripUnchanged | pyjoulescope/bin/downsample_logging.py:249 | a line without outer whitespace is left as it is |
| Text.StripLine | pyjoulescope/bin/downsample_logging.py:249 | stripping removes the newline `on_event` writes after the message |
| Text.LeadingWord | pyjoulescope/bin/capture_jls_v2.py:45 | the longest whitespace-free prefix, stopped by whitespace |
| Text.Words | pyjoulescope/bin/capture_jls_v2.py:45 | `str.split()` yields non-empty whitespace-free words |
| Text.WordsOfOne | pyjoulescope/bin/capture_jls_v2.py:45 | a single word splits into itself |
| Text.WordsOfTwo | pyjoulescope/bin/capture_jls_v2.py:45 | two words joined by a space split back into those two words |
| Text.WordsUnfold | pyjoulescope/bin/capture_jls_v2.py:45 | a text starting with a word splits into that word and the words of the rest |
| Text.WordsAfterSpace | pyjoulescope/bin/capture_jls_v2.py:45 | a word after one space splits into that word |
| Text.LeadingWordOf | pyjoulescope/bin/capture_jls_v2.py:45 | a word followed by whitespace or nothing is the leading word |
| Text.Split | pyjoulescope/bin/downsample_logging.py:251 | `str.split(sep)` yields at least one piece |
| Text.SplitWithoutSeparator | pyjoulescope/bin/downsample_logging.py:251 | a text without the separator is a single piece |
| Text.SplitAfterPiece | pyjoulescope/bin/downsample_logging.py:251 | splitting `a + sep + b` gives `a` and then the pieces of `b` |
| Text.NotContainsWithout | pyjoulescope/bin/downsample_logging.py:250 | a text lacking the pattern's first character, plus a short tail, lacks the pattern |
| Text.NotContainsShort | pyjoulescope/bin/downsample_logging.py:250 | a text shorter than the pattern does not contain it |
| Text.ContainsInfix | pyjoulescope/bin/downsample_logging.py:250 | `pat in a + pat + b` |
| Text.SplitAround | pyjoulescope/bin/downsample_logging.py:251 | `a + sep + b` contains sep and splits back into `a` and `b` when neither holds sep's first character |
| Text.ContainsAppend | pyjoulescope/bin/downsample_logging.py:271 | containment survives text added after |
| Text.ContainsPrepend | pyjoulescope/bin/downsample_logging.py:271 | containment survives text added before |
| Text.SplitJoin | pyjoulescope/bin/downsample_logging.py:269 | splitting at a one-character separator undoes `join` when no part holds it |
| Text.JoinPrefix | pyjoulescope/bin/downsample_logging.py:269 | `sep.join` of no parts is empty; otherwise it starts with the first part, followed by the separator when more parts follow |
| Text.LowerChar | pyjoulescope/bin/dut_power.py:39 | upper-case ASCII letters go to lower case; other characters are kept |
| Text.Lower | pyjoulescope/bin/dut_power.py:39 | `str.lower()` on ASCII letters only: each character mapped by LowerChar, the length kept |
| Text.DigitChar | pyjoulescope/bin/downsample_logging.py:292 | the digit character of value d |
| Text.NatToString | pyjoulescope/bin/downsample_logging.py:292 | `str(n)` is a non-empty run of digits |
| Text.IntToString | pyjoulescope/bin/downsample_logging.py:292 | `str(i)` is non-empty |
| Text.IntToStringNoSpace | pyjoulescope/bin/downsample_logging.py:292 | `str(i)` is one word starting with `-` or a digit |
| Text.DigitsValueOfNatToString | pyjoulescope/bin/downsample_logging.py:292 | the digits of `str(n)` have the value n |
| Text.ParseDigits | pyjoulescope/bin/accumulators.py:37 | a body of digits parses exactly when it is a non-empty run of digits |
| Text.ParseInt | pyjoulescope/bin/accumulators.py:37 | a negative result has a `-` sign; a run of digits parses to the number it spells |
| Text.ParseIntAccepts | pyjoulescope/bin/accumulators.py:37 | `int()` succeeds exactly on an optional sign followed by ASCII decimal digits, once stripped |
| Text.ParseIntOfIntToString | pyjoulescope/bin/accumulators.py:37 | `int(str(i)) == i` |
| Text.Pow10 | pyjoulescope/bin/capture_jls_v2.py:40 | powers of ten are positive |
| Text.IndexOfDigits | pyjoulescope/bin/capture_jls_v2.py:40 | a run of digits holds no decimal point: the search for `.` finds none |
| Text.ParseUnsignedDecimal | pyjoulescope/bin/capture_jls_v2.py:40 | an unsigned decimal parses to a non-negative value |
| Text.Fraction | pyjoulescope/bin/capture_jls_v2.py:40 | the digits after a decimal point have a non-negative value |
| Text.ParseFloatOfNatToString | pyjoulescope/bin/capture_jls_v2.py:40 | `float(str(n)) == n` |
| Text.ParseFloat | pyjoulescope/bin/capture_jls_v2.py:40 | a success needs a non-empty stripped text; the result is negative only with a `-` sign, and never positive with one |
| Text.ParseFloatOfIntText | pyjoulescope/bin/capture_jls_v2.py:40 | every text `int()` accepts, `float()` accepts with the same value |
| Text.ParseFloatOfDigits | pyjoulescope/bin/capture_jls_v2.py:40 | a run of digits parses as the number it spells |
| Text.DecimalOfDigits | pyjoulescope/bin/capture_jls_v2.py:40 | a run of digits is an unsigned decimal of the value it spells |
| ReadByCallback.BufferLength | pyjoulescope/bin/read_by_callback.py:46-48 | the buffer length is the sample count rounded up to a whole number of 10000-sample chunks |
| ReadByCallback.Received | pyjoulescope/bin/read_by_callback.py:67-69 | the rows of a range hold each sample's current and voltage, in order |
| ReadByCallback.StreamProcess.Data | pyjoulescope/bin/read_by_callback.py:56-58 | `data` holds exactly the rows filled so far |
| ReadByCallback.StreamProcess.constructor | pyjoulescope/bin/read_by_callback.py:45-51 | the buffer has the rounded-up length, two zeroed columns and no filled rows |
| ReadByCallback.StreamProcess.StreamNotify | pyjoulescope/bin/read_by_callback.py:60-71 | whole chunks are copied while the next one is available and fits; the filled rows grow by exactly the received samples and no other row changes |
| ReadByCallback.StreamProcess.CopyChunk | pyjoulescope/bin/read_by_callback.py:67-69 | one chunk's rows take the stream's current and voltage; no other row changes |
| CaptureJlsV2.DurationValidator | pyjoulescope/bin/capture_jls_v2.py:28-40 | no duration exactly for a missing or empty argument; otherwise the text parsed, scaled by its unit suffix |
| CaptureJlsV2.DurationWithSuffix | pyjoulescope/bin/capture_jls_v2.py:31-38 | a text ending in s, m, h or d is the rest parsed and scaled by 1, 60, 3600 or 86400 |
| CaptureJlsV2.DurationWithUnit | pyjoulescope/bin/capture_jls_v2.py:31-38 | a whole number N followed by a unit s, m, h or d reads back as N times that unit's seconds |
| CaptureJlsV2.DurationWithoutUnit | pyjoulescope/bin/capture_jls_v2.py:39-40 | a bare whole number is that many seconds |
| CaptureJlsV2.SamplingRateValidator | pyjoulescope/bin/capture_jls_v2.py:43-51 | a number is taken as it is; a text that is not two words raises |
| CaptureJlsV2.SamplingRateOfText | pyjoulescope/bin/capture_jls_v2.py:44-50 | `n unit` reads back as n scaled by a million, a thousand or one by the unit's first letter |
| CaptureJlsV2.WritesOf | pyjoulescope/bin/capture_jls_v2.py:127-128 | the writes to one signal, a subsequence of all writes |
| CaptureJlsV2.TilesCover | pyjoulescope/bin/capture_jls_v2.py:119-129 | writes that tile a range are ordered, disjoint, inside the range, and leave no sample id uncovered |
| CaptureJlsV2.WritesOfAppend | pyjoulescope/bin/capture_jls_v2.py:127-128 | one more write adds to its own signal's writes only |
| CaptureJlsV2.WritesOfPair | pyjoulescope/bin/capture_jls_v2.py:127-128 | two more writes add each to its own signal's writes only |
| CaptureJlsV2.TilesAppend | pyjoulescope/bin/capture_jls_v2.py:127-129 | a non-empty write starting where a tiling ends extends it |
| CaptureJlsV2.TilesAfterPair | pyjoulescope/bin/capture_jls_v2.py:123-129 | two equally long writes from where a signal's tiling ends, one of them to that signal, extend its tiling |
| CaptureJlsV2.AppendWrites | pyjoulescope/bin/capture_jls_v2.py:123-129 | writing both signals from the next id extends both tilings by the same range |
| CaptureJlsV2.Process.constructor | pyjoulescope/bin/capture_jls_v2.py:114-117 | the next id is 0 and nothing is written |
| CaptureJlsV2.Process.StreamNotify | pyjoulescope/bin/capture_jls_v2.py:119-129 | new samples are written, current then voltage, from the next id to the buffer's end, which becomes the next id; both signals stay tiled from 0 |
| JlsRecode.BlockCount | pyjoulescope/bin/jls_recode.py:74 | the block count is the sample count divided by the block size, rounded up |
| JlsRecode.BlocksPartition | pyjoulescope/bin/jls_recode.py:74-80 | the blocks cover the samples end to end, each with 1 to block-size samples |
| JlsRecode.Block | pyjoulescope/bin/jls_recode.py:76-79 | block k starts at k times the block size and ends a block later or at the sample count, whichever is first; it is non-empty when it starts inside the samples |
| JlsRecode.Repeat | pyjoulescope/bin/jls_recode.py:59 | `c * n` is n copies of c, empty for n <= 0 |
| JlsRecode.Bar | pyjoulescope/bin/jls_recode.py:59 | a bar of `filled` `=` then `-`, 60 cells when 0 <= filled <= 60 |
| JlsRecode.RoundHalfEven | pyjoulescope/bin/jls_recode.py:57 | Python's `round` of a quotient: nearest integer, ties to even |
| JlsRecode.RoundPositive | pyjoulescope/bin/jls_recode.py:57 | the same for a positive divisor |
| JlsRecode.Progress | pyjoulescope/bin/jls_recode.py:34-61 | a total of 0 raises ZeroDivisionError, and only it |
| JlsRecode.ProgressBar | pyjoulescope/bin/jls_recode.py:56-59 | for 0 <= count <= total the bar has 60 cells, filled first; empty at 0, full at total |
| JlsRecode.RecodeAsWritten | pyjoulescope/bin/jls_recode.py:74-82 | as written, the copy loop raises ZeroDivisionError exactly when there is one block |
| JlsRecode.OneBlockRaises | pyjoulescope/bin/jls_recode.py:74-82 | a recording that fits in one block makes the progress bar divide by zero |
| JlsRecode.Recode | pyjoulescope/bin/jls_recode.py:74-82 | the copied ranges are the blocks in order; with two or more blocks bar k is `progress(k, block_count - 1)` as written, the last one full; a single block gets a full bar instead of dividing by zero |
| Accumulators.IntOrNone | pyjoulescope/bin/accumulators.py:34-37 | None stays None; a text converts exactly when it is an ASCII decimal integer text (ParseIntAccepts), and then to the integer `int` gives |
| Accumulators.IntOrNoneOfIntToString | pyjoulescope/bin/accumulators.py:34-37 | the spelling of any integer converts back to it |
| Accumulators.Truncate | pyjoulescope/bin/accumulators.py:88 | Python's `int` on a float truncates toward zero |
| Accumulators.ReportOf | pyjoulescope/bin/accumulators.py:82-92 | "no statistics" exactly before the first update; otherwise the truncated duration, the charge and the energy |
| Accumulators.Accumulators.constructor | pyjoulescope/bin/accumulators.py:59-63 | not quitting, no statistics, previous update 0, interval 60 |
| Accumulators.Accumulators.Configure | pyjoulescope/bin/accumulators.py:126 | the update interval becomes `--update` |
| Accumulators.Accumulators.UserStr | pyjoulescope/bin/accumulators.py:82-92 | the report is "no statistics" exactly when none arrived |
| Accumulators.Accumulators.OnUserExit | pyjoulescope/bin/accumulators.py:65-68 | prints its message unless already quitting, then quits |
| Accumulators.Accumulators.OnStop | pyjoulescope/bin/accumulators.py:70-73 | prints its message unless already quitting, then quits |
| Accumulators.Accumulators.OnStatistics | pyjoulescope/bin/accumulators.py:75-80 | keeps the statistics; once one interval has passed since the previous update prints one report and advances it by exactly one interval |
| GpiSynchronized.EdgesFrom | pyjoulescope/bin/gpi_synchronized.py:63 | the edges from an index on, ascending, each a change of the input, none missed |
| GpiSynchronized.EdgesIdx | pyjoulescope/bin/gpi_synchronized.py:63 | `edges_idx` lists exactly the indices where the input changes, ascending |
| GpiSynchronized.EdgeCount | pyjoulescope/bin/gpi_synchronized.py:64 | `edge_count` is the number of indices where the input changes |
| GpiSynchronized.Offsets | pyjoulescope/bin/gpi_synchronized.py:78-80 | `x` is the 13 offsets -2 .. 10 |
| GpiSynchronized.PlottedEdges | pyjoulescope/bin/gpi_synchronized.py:82-85 | the plotted edges are exactly those not too close to either end |
| GpiSynchronized.Window | pyjoulescope/bin/gpi_synchronized.py:86-87 | the plotted window holds the 13 samples at the offsets of `x` from the edge |
| GpiSynchronized.PlottedWindows | pyjoulescope/bin/gpi_synchronized.py:82-87 | every plotted window lies inside the capture and the input changes between offsets 0 and 1 |
| GpiSynchronized.WindowStraddles | pyjoulescope/bin/gpi_synchronized.py:86-87 | offset 0 is the sample before the change and offset 1 the one after |
| PlotCal.Finiteness | pyjoulescope/joulescope_examples/plot_cal.py:69 | `np.isfinite` marks exactly the finite samples |
| PlotCal.CountFinite | pyjoulescope/joulescope_examples/plot_cal.py:71 | at most the number of samples, and equal to it exactly when every sample is finite |
| PlotCal.CountNonFinite | pyjoulescope/joulescope_examples/plot_cal.py:73 | at most the number of samples, and zero exactly when every sample is finite |
| PlotCal.CountsAddUp | pyjoulescope/joulescope_examples/plot_cal.py:71-73 | finite and non-finite counts add up to the total |
| PlotCal.Forced | pyjoulescope/joulescope_examples/plot_cal.py:75 | the first and last entries become true; the interior is unchanged |
| PlotCal.Changes | pyjoulescope/joulescope_examples/plot_cal.py:76 | every listed change index lies in the range of `np.diff` |
| PlotCal.ChangesSound | pyjoulescope/joulescope_examples/plot_cal.py:76 | each listed index is one after which the value changes |
| PlotCal.ChangesAscending | pyjoulescope/joulescope_examples/plot_cal.py:76 | the listed indices ascend strictly |
| PlotCal.ChangesComplete | pyjoulescope/joulescope_examples/plot_cal.py:76 | every index after which the value changes is listed |
| PlotCal.NanEdgesAscending | pyjoulescope/joulescope_examples/plot_cal.py:75-76 | `nan_edges` are positions before the last sample, strictly ascending |
| PlotCal.ChangesAlternate | pyjoulescope/joulescope_examples/plot_cal.py:76-77 | changes alternate away from and back to the first value; their count is even iff the last value equals the first |
| PlotCal.SteadyBetween | pyjoulescope/joulescope_examples/plot_cal.py:76-80 | between two consecutive changes the value does not change |
| PlotCal.ConstantRun | pyjoulescope/joulescope_examples/plot_cal.py:76-80 | a stretch without changes holds one value |
| PlotCal.RunLengths | pyjoulescope/joulescope_examples/plot_cal.py:77-80 | one length per pair of edges, the second minus the first |
| PlotCal.NanRuns | pyjoulescope/joulescope_examples/plot_cal.py:75-80 | the edges pair up; each run is a maximal stretch of at least one non-finite sample strictly inside the data |
| PlotCal.ForcedInterior | pyjoulescope/joulescope_examples/plot_cal.py:75 | forcing the ends leaves interior finiteness unchanged |
| PlotCal.FalseRun | pyjoulescope/joulescope_examples/plot_cal.py:76-80 | in a sequence that starts true, run k is true at change 2k, false up to and including change 2k+1, and true after |
| PlotCal.NanRun | pyjoulescope/joulescope_examples/plot_cal.py:76-80 | every sample of run k is non-finite |
| PlotCal.Reals | pyjoulescope/joulescope_examples/plot_cal.py:81 | the lengths as reals, one for one |
| PlotCal.RunStatsOf | pyjoulescope/joulescope_examples/plot_cal.py:81-84 | min and max are lengths of actual runs, bound all lengths, and the mean lies between them |
| PlotCal.PrintStats | pyjoulescope/joulescope_examples/plot_cal.py:66-85 | counts the non-finite samples; empty data raises IndexError; statistics exist iff there is a run, and then every run is at least one sample |
| PlotCal.CountTrue | pyjoulescope/joulescope_examples/plot_cal.py:71 | `np.count_nonzero` counts the true entries of the array |
| PlotCal.CountTrueOfFiniteness | pyjoulescope/joulescope_examples/plot_cal.py:71 | counting the true entries of `is_finite` counts the finite samples |
| DutPower.PowerSetting | pyjoulescope/bin/dut_power.py:36-46 | on without an argument; on or off iff the lower-cased word is in the respective list; usage otherwise |
| DutPower.DutPowerCalls | pyjoulescope/bin/dut_power.py:28-33 | sensor power is always on; the current range is auto iff powered, off iff not |
| DutPower.Run | pyjoulescope/bin/dut_power.py:36-47 | usage exactly when no setting is chosen, otherwise the device calls for the setting |
| DutPower.LowerIdempotent | pyjoulescope/bin/dut_power.py:39 | lower-casing twice is lower-casing once |
| DutPower.CaseInsensitive | pyjoulescope/bin/dut_power.py:39-43 | the argument is matched regardless of letter case |
| DutPower.NoArgumentPowersOn | pyjoulescope/bin/dut_power.py:37-38 | without an argument: sensor power on, current range auto |
| DutPower.UpperCaseWords | pyjoulescope/bin/dut_power.py:39-43 | `ON` powers on and `Disable` powers off |
| DutPower.OtherWordUsage | pyjoulescope/bin/dut_power.py:44-46 | a word in neither list makes no device call |

## Left out

- Device set-up, scanning, opening and closing, signal handlers, threads, sleeping loops, plotting and all terminal output other than the values modelled above are not modelled; they are calls into code outside these scripts.
- Floating point is modelled by exact reals: NaN and infinity appear only as `PlotCal.F32.NonFinite` and as a `Trigger.Sample` whose `finite` flag is false (its current is then not used), and the 32-bit and 64-bit rounding of sums and means is not modelled.
- Number formatting (`%g`, `%.7f`, `three_sig_figs`, the progress percentage) is not modelled; rows and reports hold the numbers themselves.
- Python's `float()` is modelled for an optional sign, digits and an optional fraction, after stripping ASCII whitespace; exponents, `inf`, `nan`, underscores and non-ASCII digits or whitespace are not.
- Text: `int()`, `str.split()`, `str.strip()` and `str.lower()` are modelled on ASCII text: `Text.IsSpace` is the ASCII whitespace Python's `str` methods split and strip on (tab to carriage return, `\x1c` to `\x1f` and space), digits are `0`-`9`, and the underscore grouping `int()` accepts (`1_0`) is not modelled.
- DownsampleLogging.DownsampleTypeCheck: accepts only ASCII decimal integer texts; `int()`'s underscore grouping and non-ASCII digits and whitespace are not modelled (see the line on `Text`).
- Accumulators.IntOrNone: converts only ASCII decimal integer texts; `int()`'s underscore grouping and non-ASCII digits and whitespace are not modelled (see the line on `Text`).
- Trigger: the fixed-point accumulation of `Signal` (values scaled by `GAIN` and truncated per batch) is not modelled; sums are exact.
- Trigger: durations are given as sample counts, i.e. after `int(duration * sampling_frequency)`.
- Trigger.Capture.Call: requires `ValidConfig`, which excludes a start and a capture duration both zero (the source then loops forever without consuming samples), and negative durations.
- Trigger.Capture.Call: requires that fewer than `--count` windows have been emitted; the source's caller stops calling once the call returns true.
- Trigger: the JLS recording of a window (`DataRecorder`) and the wall-clock timestamp of a record are not modelled; a record holds the time as a given string.
- Trigger: a negative `--count` is not modelled; the model takes the count as a non-negative number.
- WindowedAccum.CallAsWritten: requires that `sample_id_last`, when set, is not before the buffer's `start_id`, so the slice of `gpi` it takes starts at a non-negative offset; the source's behaviour otherwise is not modelled.
- WindowedAccum: the statistics of a window, its timestamp and the printing are not modelled; a window is reported as its pair of sample ids.
- DownsampleLogging.SessionResumes: covers the lines `open` writes except `LOGGER : OPEN` and `start_time=`, whose float text round trip is not modelled.
- DownsampleLogging: choosing the most recent log file, creating directories, the `#&` copies of events in `full`/`comment` headers, and the `PARAM : columns=`/`units=` events are not modelled.
- DownsampleLogging: `Logger.close` and `LoggerDevice.stop`'s device shutdown are not modelled beyond the charge and energy `stop` reports (`LoggerDevice.StopTotals`).
- DownsampleLogging.LoggerDevice.Resume: reads the whole file rather than its last 4096 bytes.
- JlsRecode.Recode: requires a block size of at least 1; the source takes `int(sampling_frequency)`, which is 0 for a rate below 1 Hz, and then raises ZeroDivisionError in the block count, which is not modelled.
- JlsRecode.RecodeAsWritten: requires a block size of at least 1, for the same reason.
- JlsRecode.BlocksPartition: requires a block size of at least 1, for the same reason.
- ReadByCallback.StreamProcess.constructor: requires a non-negative buffer length; NumPy raises for a negative one, which is not modelled.
- ReadByCallback: the conversion `int(duration * sampling_frequency)` is not modelled; the sample count is given.
- CaptureJlsV2: creating the JLS writer and defining its source and signals are not modelled; a write is recorded as the call made.
- Accumulators.Accumulators.Configure: keeps `Valid` only when no update has been printed yet, which is when `run` calls it.
- Accumulators: `three_sig_figs` of charge and energy is not modelled; the report holds the values.
- PlotCal: the memory usage, the duration and the standard deviation of the run lengths are not modelled.
- GpiSynchronized: toggling the output pin and plotting are not modelled; the captured samples are given.
- StreamBuffers.Samples: the stream buffer is modelled as functions from sample id to value, without a limit on the ids it holds.

## Findings

| source | as written | input that shows it | evidently intended | confidence | as-written member | corrected member |
|---|---|---|---|---|---|---|
| pyjoulescope/bin/windowed_accum.py:89-113 | the loop index starts at the buffer's `start_id` while `gpi` is read from `sample_id_last`, so the index and the samples disagree after a call that saw part of the buffer | IN0 high on ids 10..24, calls over `[0, 5)` and then `[0, 30)`: the window reported is `(10, 20)` | the window `(10, 25)`, the same as sample by sample | not executed | WindowedAccum.MisalignedWindow | WindowedAccum.WindowDetect.Call |
| pyjoulescope/bin/downsample_logging.py:435 | on resume, the charge and energy offsets are taken from the row's last two values, which are `current_min` and `current_max` | a row `10, 0.0033, 3.3, 0.01089, 5, 16.5, 0.0009, 0.0011` resumes from charge 0.0009 and energy 0.0011 | offsets from the charge and energy columns, 5 and 16.5 | not executed | DownsampleLogging.ResumeTakesCurrentRange | DownsampleLogging.LoggerDevice.Resume |
| pyjoulescope/bin/jls_recode.py:74-82 | after copying block `k` the bar is drawn as `progress(k, block_count - 1)`, which divides by zero when there is only one block | a recording of fewer samples than one second | the bars drawn as written for two or more blocks, and a full bar for a single block | not executed | JlsRecode.OneBlockRaises | JlsRecode.Recode |
| pyjoulescope/bin/trigger.py:426-445 | with `duration` start and end conditions and both durations zero, each start trigger and each end trigger falls on the previous window's end, so the loop re-opens and closes a window at one id forever | `--start duration --start_duration 0 --end duration --capture_duration 0` without `--count` | every pass of the loop consumes samples or ends the range, so `__call__` returns | not executed | Trigger.ZeroDurationsCycle | Trigger.AdvanceDecreases |
