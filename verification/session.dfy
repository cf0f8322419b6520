/** The main block of the repetition bot: convert the three command-line
durations with the same unit flags, wait before recording, capture the
events once, then run the timed playback loop on that one capture.

Argument parsing, the capture hooks and the clock are outside the model: the
parsed arguments, the captured sequences, the clock reading taken after the
capture and the readings taken after each pause are parameters.
 */
module Session {
  import Duration
  import Playback

  /** The parsed command line: three durations in the unit the flags select,
      the three unit flags and the stop key. */
  datatype Arguments = Arguments(
    untilRecording: real,
    whileLoop: real,
    betweenLoops: real,
    seconds: bool,
    minutes: bool,
    hours: bool,
    stopKey: string)

  /** The three durations of a session, in seconds. */
  datatype Schedule = Schedule(untilRecording: real, whileLoop: real, betweenLoops: real)

  /** How a session ends. */
  datatype SessionEnd =
    | DelayRejected                     // the wait before recording was negative
    | LoopEnded(loopEnd: Playback.LoopEnd)

  /** The factor every duration of `args` is multiplied by: 60 when the
      minutes flag is set, otherwise 3600 when the hours flag is, otherwise 1. */
  function Scale(args: Arguments): (k: real)
    ensures k == 1.0 || k == 60.0 || k == 3600.0
    ensures k == 60.0 <==> args.minutes
    ensures k == 3600.0 <==> !args.minutes && args.hours
    ensures k == 1.0 <==> !args.minutes && !args.hours
  {
    Duration.SecondsPer(Duration.SelectedUnit(args.seconds, args.minutes, args.hours))
  }

  /** The three conversions of the main block, all under the same flags. */
  function ToSchedule(args: Arguments): (s: Schedule)
    ensures s.untilRecording == args.untilRecording * Scale(args)
    ensures s.whileLoop == args.whileLoop * Scale(args)
    ensures s.betweenLoops == args.betweenLoops * Scale(args)
  {
    Schedule(
      Duration.ConvertDuration(args.untilRecording, args.seconds, args.minutes, args.hours),
      Duration.ConvertDuration(args.whileLoop, args.seconds, args.minutes, args.hours),
      Duration.ConvertDuration(args.betweenLoops, args.seconds, args.minutes, args.hours))
  }

  /** The three converted durations stand in the same proportion as the
      durations on the command line, and in the same order. */
  lemma ScheduleSharesOneScale(args: Arguments)
    ensures ToSchedule(args).whileLoop * args.untilRecording == ToSchedule(args).untilRecording * args.whileLoop
    ensures ToSchedule(args).betweenLoops * args.whileLoop == ToSchedule(args).whileLoop * args.betweenLoops
    ensures ToSchedule(args).betweenLoops * args.untilRecording == ToSchedule(args).untilRecording * args.betweenLoops
    ensures args.untilRecording <= args.whileLoop <==> ToSchedule(args).untilRecording <= ToSchedule(args).whileLoop
    ensures args.whileLoop <= args.betweenLoops <==> ToSchedule(args).whileLoop <= ToSchedule(args).betweenLoops
    ensures args.untilRecording <= args.betweenLoops <==> ToSchedule(args).untilRecording <= ToSchedule(args).betweenLoops
  {
    Duration.ConversionPreservesOrder(args.untilRecording, args.whileLoop, args.seconds, args.minutes, args.hours);
    Duration.ConversionPreservesOrder(args.whileLoop, args.betweenLoops, args.seconds, args.minutes, args.hours);
    Duration.ConversionPreservesOrder(args.untilRecording, args.betweenLoops, args.seconds, args.minutes, args.hours);
  }

  /** One run of the main block, from the parsed arguments on, with the
      capture `mouse`/`keyboard` taken once before the loop. A negative wait
      before recording is refused by the runtime's sleep before anything is
      captured or replayed. Argument parsing is assumed to have succeeded:
      the parser as written rejects its own `-h` option (see README). */
  method RunSession<M, K>(args: Arguments, mouse: seq<M>, keyboard: seq<K>, start: real, clock: seq<real>)
    returns (replays: seq<Playback.Replay<M, K>>, end: SessionEnd)
    ensures end == DelayRejected <==> ToSchedule(args).untilRecording < 0.0
    ensures end == DelayRejected ==> replays == []
    ensures end != DelayRejected ==>
              var run := Playback.LoopRun(start, clock, ToSchedule(args).whileLoop, ToSchedule(args).betweenLoops);
              |replays| == run.iterations && end == LoopEnded(run.end)
    ensures forall i :: 0 <= i < |replays| ==> replays[i] == Playback.Replay(mouse, keyboard)
    ensures |replays| > 0 <==> args.untilRecording >= 0.0 && args.whileLoop > 0.0
  {
    var schedule := ToSchedule(args);
    if schedule.untilRecording < 0.0 {
      return [], DelayRejected;
    }
    var loopEnd;
    replays, loopEnd := Playback.PlaybackLoop(mouse, keyboard, schedule.whileLoop, schedule.betweenLoops, start, clock);
    end := LoopEnded(loopEnd);
  }
}
