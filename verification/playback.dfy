/** The timed playback loop of the repetition bot.

After the capture, the bot reads the clock once (`start`), sets the end time
to the same reading and then repeats: while the elapsed time is below the
loop duration, replay the captured mouse and keyboard events, sleep for the
pause between loops and read the clock again.

The clock is abstract: `clock[i]` is the reading taken at the end of
iteration `i`, after its sleep. A finite sequence of readings can run out
while the loop would still go on; that outcome is reported as
`ClockExhausted`. Sleeping for a negative time is refused by the runtime,
which ends the program right after the first replay; that outcome is
`SleepRejected`. Playback itself is an opaque step that only sees the two
captured sequences; each performed step is logged as a `Replay` value.
 */
module Playback {

  /** One call of the playback step, with the sequences it was given. */
  datatype Replay<M, K> = Replay(mouse: seq<M>, keyboard: seq<K>)

  /** Why the loop stopped. */
  datatype LoopEnd =
    | Expired          // the elapsed time reached the loop duration
    | SleepRejected    // the pause between loops was negative
    | ClockExhausted   // the supplied clock readings ran out

  /** How many replays the loop performs and how it ends. */
  datatype Run = Run(iterations: nat, end: LoopEnd)

  /** The value of `end_time - start_time` tested by the guard before
      iteration `i`: exactly zero before the first iteration, and the reading
      of the previous iteration minus the start afterwards. */
  function Elapsed(start: real, clock: seq<real>, i: nat): (e: real)
    requires i <= |clock|
    ensures i == 0 ==> e == 0.0
    ensures 0 < i ==> start + e == clock[i - 1]
  {
    if i == 0 then 0.0 else clock[i - 1] - start
  }

  /** Reference definition of the loop, from the guard test before
      iteration `i` onwards. */
  function RunFrom(start: real, clock: seq<real>, whileLoop: real, betweenLoops: real, i: nat): (r: Run)
    requires i <= |clock|
    ensures r.iterations <= |clock| - i + 1
    ensures r.iterations == 0 <==> whileLoop <= Elapsed(start, clock, i)
    ensures forall j :: i <= j < i + r.iterations ==> Elapsed(start, clock, j) < whileLoop
    ensures r.end == Expired ==> i + r.iterations <= |clock| && whileLoop <= Elapsed(start, clock, i + r.iterations)
    ensures r.end == SleepRejected <==> betweenLoops < 0.0 && Elapsed(start, clock, i) < whileLoop
    ensures r.end == SleepRejected ==> r.iterations == 1
    ensures r.end == ClockExhausted ==> i + r.iterations == |clock| + 1
    decreases |clock| - i
  {
    if whileLoop <= Elapsed(start, clock, i) then Run(0, Expired)
    else if betweenLoops < 0.0 then Run(1, SleepRejected)
    else if i == |clock| then Run(1, ClockExhausted)
    else
      var rest := RunFrom(start, clock, whileLoop, betweenLoops, i + 1);
      Run(rest.iterations + 1, rest.end)
  }

  /** The whole loop, from the first guard test. */
  function LoopRun(start: real, clock: seq<real>, whileLoop: real, betweenLoops: real): (r: Run)
    ensures r.iterations > 0 <==> whileLoop > 0.0
    ensures r.iterations <= |clock| + 1
  {
    RunFrom(start, clock, whileLoop, betweenLoops, 0)
  }

  /** The loop of the main block: replays the captured sequences while the
      elapsed time stays below `whileLoop`. */
  method PlaybackLoop<M, K>(mouse: seq<M>, keyboard: seq<K>, whileLoop: real, betweenLoops: real,
                            start: real, clock: seq<real>)
    returns (replays: seq<Replay<M, K>>, end: LoopEnd)
    ensures |replays| == LoopRun(start, clock, whileLoop, betweenLoops).iterations
    ensures end == LoopRun(start, clock, whileLoop, betweenLoops).end
    ensures forall i :: 0 <= i < |replays| ==> replays[i] == Replay(mouse, keyboard)
    ensures |replays| > 0 <==> whileLoop > 0.0
    ensures forall i :: 0 <= i < |replays| ==> i <= |clock| && Elapsed(start, clock, i) < whileLoop
    ensures end == Expired ==> |replays| <= |clock| && whileLoop <= Elapsed(start, clock, |replays|)
  {
    replays := [];
    var endTime := start;
    var i := 0;
    while endTime - start < whileLoop
      invariant i <= |clock|
      invariant endTime - start == Elapsed(start, clock, i)
      invariant |replays| == i
      invariant forall j :: 0 <= j < i ==> replays[j] == Replay(mouse, keyboard)
      invariant forall j :: 0 <= j < i ==> Elapsed(start, clock, j) < whileLoop
      invariant i > 0 ==> betweenLoops >= 0.0
      invariant LoopRun(start, clock, whileLoop, betweenLoops).iterations
                == i + RunFrom(start, clock, whileLoop, betweenLoops, i).iterations
      invariant LoopRun(start, clock, whileLoop, betweenLoops).end
                == RunFrom(start, clock, whileLoop, betweenLoops, i).end
      decreases |clock| - i
    {
      replays := replays + [Replay(mouse, keyboard)];
      if betweenLoops < 0.0 {
        return replays, SleepRejected;
      }
      if i == |clock| {
        return replays, ClockExhausted;
      }
      endTime := clock[i];
      i := i + 1;
    }
    end := Expired;
  }

  /** Once some reading is at least `whileLoop` past the start, the loop has
      stopped by the iteration that took it. */
  lemma StopsByDeadlineReading(start: real, clock: seq<real>, whileLoop: real, betweenLoops: real, k: nat)
    requires k < |clock| && whileLoop <= clock[k] - start
    ensures LoopRun(start, clock, whileLoop, betweenLoops).iterations <= k + 1
  {
    assert whileLoop <= Elapsed(start, clock, k + 1);
  }

  /** The readings a caller supplies respect the pause between loops when each
      one is at least `betweenLoops` later than the one before (the start
      before the first). */
  ghost predicate SleepsAtLeast(start: real, clock: seq<real>, betweenLoops: real)
  {
    forall i :: 0 <= i < |clock| ==> Elapsed(start, clock, i) + betweenLoops <= Elapsed(start, clock, i + 1)
  }

  /** With such readings, the elapsed time before iteration `i` is at least
      `i` pauses. */
  lemma {:induction false} ElapsedAtLeastPauses(start: real, clock: seq<real>, betweenLoops: real, i: nat)
    requires SleepsAtLeast(start, clock, betweenLoops)
    requires i <= |clock|
    ensures i as real * betweenLoops <= Elapsed(start, clock, i)
  {
    if i > 0 {
      ElapsedAtLeastPauses(start, clock, betweenLoops, i - 1);
      assert Elapsed(start, clock, i - 1) + betweenLoops <= Elapsed(start, clock, i);
    }
  }

  /** With the pause honoured by the clock, the loop replays at most once
      more than the number of whole pauses that fit in the loop duration:
      `(n - 1) * betweenLoops < whileLoop` for `n` replays. A negative pause
      is refused after the first replay, so the bound holds for it too. */
  lemma ReplaysBoundedByPauses(start: real, clock: seq<real>, whileLoop: real, betweenLoops: real)
    requires SleepsAtLeast(start, clock, betweenLoops)
    ensures var n := LoopRun(start, clock, whileLoop, betweenLoops).iterations;
            n > 0 ==> (n - 1) as real * betweenLoops < whileLoop
  {
    var n := LoopRun(start, clock, whileLoop, betweenLoops).iterations;
    if n > 0 {
      if betweenLoops < 0.0 {
        assert LoopRun(start, clock, whileLoop, betweenLoops).end == SleepRejected;
      } else {
        assert Elapsed(start, clock, n - 1) < whileLoop;
        ElapsedAtLeastPauses(start, clock, betweenLoops, n - 1);
      }
    }
  }
}
