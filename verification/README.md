# Repetition bot: duration conversion and timed playback loop

A model, in Dafny, of the sequential logic of the repetition bot (`bot.py`), a
macro recorder that captures mouse and keyboard events until a stop key is
pressed and then replays them on a timed loop.

- `Duration` (`duration.dfy`) models `convert_duration`: a duration plus the
  three unit flags `seconds`, `minutes`, `hours` becomes a number of seconds.
  The flags are tested in a fixed order: minutes win over hours, and the
  seconds flag is never read. Floats are modelled as `real`.
- `Playback` (`playback.dfy`) models the loop at the end of the main block.
  The clock is a caller-supplied sequence of readings, one per iteration,
  taken after the pause. The playback step is a `Replay` record of the two
  sequences it was handed. `RunFrom`/`LoopRun` is an independent recursive
  definition of how many replays happen and why the loop stops, and
  `PlaybackLoop` is the loop itself, proved to agree with it.
- `Session` (`session.dfy`) models the main block after argument parsing.
  The three durations are converted under the same flags. The wait before
  recording happens next, then the single capture, then the loop.

The loop body does not always run. `end_time` starts equal to `start_time`
(bot.py:115), so the first guard test is `0 < duration_while_loop`. The body
therefore runs zero times when the loop duration is at most 0, and at least
once when it is positive.

Two outcomes come from the Python runtime rather than from `bot.py`.
`time.sleep` raises `ValueError` on a negative argument. A negative wait
before recording therefore ends the program before the capture (`DelayRejected`).
A negative pause between loops ends it right after the first replay
(`SleepRejected`). The sleep's other refusals are not modelled: NaN, and
lengths past its signed 64-bit nanosecond ceiling (see "## Left out"). A finite clock trace can also run out while the loop would
go on; that outcome is `ClockExhausted`, and the iteration that started is counted.

## Model

| member | source | states |
|---|---|---|
| Duration.SecondsPer | bot.py:96-101 | a unit lasts at least one second; the factor is 1 exactly for seconds, 60 exactly for minutes and 3600 exactly for hours |
| Duration.ConvertDuration | bot.py:83-101 | the result is the duration times the seconds-per-unit of the selected unit (1, 60 or 3600); it is zero, positive or negative exactly when the duration is |
| Duration.SelectedUnit | bot.py:96-101 | minutes is selected iff the minutes flag is set; hours iff minutes is not and hours is; seconds iff neither, whatever the seconds flag |
| Duration.FromSeconds | bot.py:83-101 | reading a number of seconds back in the selected unit gives a value that converts to that number of seconds |
| Duration.MinutesTakePrecedence | bot.py:96-97 | with the minutes flag set the result is `duration * 60` whatever the seconds and hours flags |
| Duration.HoursWithoutMinutes | bot.py:98-99 | with minutes unset and hours set the result is `duration * 3600` |
| Duration.SecondsByDefault | bot.py:100-101 | with minutes and hours unset the duration is returned unchanged |
| Duration.SecondsFlagIgnored | bot.py:96-101 | flipping the seconds flag never changes the result |
| Duration.ConversionPreservesOrder | bot.py:96-101 | the conversion preserves strict order and equality of durations, in both directions |
| Duration.ConversionRoundTrip | bot.py:83-101 | converting and reading back in the same unit is the identity, in both orders |
| Session.Scale | bot.py:106-108 | the common scale factor of a command line is 60 iff the minutes flag is set, 3600 iff minutes is unset and hours set, and 1 iff neither |
| Session.ToSchedule | bot.py:106-108 | all three durations are multiplied by the same scale factor |
| Session.ScheduleSharesOneScale | bot.py:106-108 | the converted durations keep the command line's pairwise proportions and order |
| Session.RunSession | bot.py:105-119 | a negative wait before recording ends the run with no replay; otherwise the replays and the loop's end are those of the reference loop on the converted durations; every replay is of the one capture; some replay happens iff the wait is non-negative and the loop duration positive |
| Playback.Elapsed | bot.py:114-119 | the guard's `end_time - start_time`: exactly 0 before the first test, and the previous post-sleep reading minus the start afterwards |
| Playback.LoopRun | bot.py:114-119 | the whole loop replays at least once iff the loop duration is strictly positive, and at most once per reading plus one |
| Playback.RunFrom | bot.py:116-119 | from any guard test: no iteration iff the elapsed time has reached the loop duration; the guard held before every counted iteration; an expired loop stops at the first reading reaching the duration; a negative pause stops after exactly one replay; an exhausted clock stops one iteration after its last reading |
| Playback.PlaybackLoop | bot.py:112-119 | the loop performs exactly the reference number of replays and ends for the reference reason; every replay is of the same captured sequences; the body runs at least once iff the loop duration is strictly positive; the guard held before each replay, and an expired loop stops at the first reading whose elapsed time reaches the duration |
| Playback.StopsByDeadlineReading | bot.py:116-119 | once reading `k` is at least the loop duration past the start, at most `k + 1` replays happen |
| Playback.ElapsedAtLeastPauses | bot.py:118-119 | when each reading is at least one pause after the previous, the elapsed time before iteration `i` is at least `i` pauses |
| Playback.ReplaysBoundedByPauses | bot.py:116-119 | with the pause honoured by the clock (any sign), `n` replays satisfy `(n - 1) * pause < loop duration` |

## Left out

- Event capture (`monitorMouseKeyboardEvents`, bot.py:8-37): it is entirely OS input hooks of the `mouse` and `keyboard` libraries; the captured sequences are parameters.
- Threaded playback (`playMouseMouseKeyboardEvents`, bot.py:40-61): two threads calling library `play` functions; modelled only as a `Replay` step that receives the captured sequences unchanged.
- Argument parsing (`parse_arguments`, bot.py:64-80) is `argparse` library behaviour. The parsed values are the `Arguments` datatype.
- Session.RunSession: models the main block as it would run if parsing succeeded. As written, `ArgumentParser` registers `-h/--help` by default. Its default conflict handler makes the `-h/--hours` registration at bot.py:77 raise `argparse.ArgumentError` on every run. That happens inside the `parse_arguments()` call at bot.py:105, so as written lines 106-119 are never reached. Building the parser with `add_help=False` would remove the clash.
- The clock and the sleeps (`time.time`, `time.sleep`, bot.py:110, 114, 118-119): real-time I/O, replaced by caller-supplied readings. Of the sleep's refusals, only the one for a negative length is modelled.
- Playback.RunFrom: `SleepRejected` covers every negative pause, and nothing else. Two other pauses also make `time.sleep` raise, and the model keeps looping on both where the program stops after the first replay. One is NaN (`ValueError`). The other is a positive length too large in nanoseconds for a signed 64-bit integer, about 9.22e9 s or more, infinity included (`OverflowError`). `real` has no NaN or infinity, and the positive ceiling is left out. A negative pause below about -9.22e9 s raises `OverflowError` rather than `ValueError`. The model stops there anyway, after the first replay, at the same point as the program.
- Session.RunSession: `DelayRejected` covers every negative wait before recording, and nothing else. A NaN wait, or a positive wait at or past the same ceiling, also stops the program before the capture, but the model goes on to the loop. `argparse`'s `float` accepts `inf` and `nan`, and `x * 3600` can overflow to infinity. Neither these values nor the positive ceiling is modelled. A negative wait below about -9.22e9 s raises `OverflowError` rather than `ValueError`. The model still ends it as `DelayRejected`, before the capture, as the program does.
- Floating-point rounding of the multiplications and of `end_time - start_time`: `real` arithmetic is exact.
- The "Start Recording Input..." message (bot.py:111): console output.
