/** The stopwatch/countdown `Timer` of src/models/game_state.py. */
module Timers {
  import opened Wrappers

  datatype TimerMode = Stopwatch | Countdown

  /** What one accumulation step adds to `elapsed_ms`: the time since the origin,
      clamped at zero against backward clock jumps; nothing when there is no origin. */
  function Delta(origin: Option<int>, nowMs: int): (d: nat)
    ensures origin.None? ==> d == 0
    ensures origin.Some? ==> d >= nowMs - origin.value
    ensures origin.Some? && d > 0 ==> d == nowMs - origin.value
  {
    match origin
    case None => 0
    case Some(start) => if nowMs - start > 0 then nowMs - start else 0
  }

  class Timer {
    var mode: TimerMode
    var running: bool
    var elapsedMs: nat
    var targetMs: Option<nat>
    var lastStartMs: Option<int>

    /** A running timer always has an accumulation origin and a paused one never has. */
    predicate Valid()
      reads this
    {
      running <==> lastStartMs.Some?
    }

    constructor ()
      ensures mode == Stopwatch && !running && elapsedMs == 0
      ensures targetMs == None && lastStartMs == None
      ensures Valid()
    {
      mode := Stopwatch;
      running := false;
      elapsedMs := 0;
      targetMs := None;
      lastStartMs := None;
    }

    method Start(nowMs: int)
      modifies this`running, this`lastStartMs
      ensures running
      ensures lastStartMs == if old(running) then old(lastStartMs) else Some(nowMs)
      ensures old(Valid()) ==> Valid()
    {
      if running {
        return;
      }
      running := true;
      lastStartMs := Some(nowMs);
    }

    method Pause(nowMs: int)
      modifies this`running, this`lastStartMs, this`elapsedMs
      ensures !running && elapsedMs >= old(elapsedMs)
      ensures old(running) ==> elapsedMs == old(elapsedMs) + Delta(old(lastStartMs), nowMs) && lastStartMs == None
      ensures !old(running) ==> elapsedMs == old(elapsedMs) && lastStartMs == old(lastStartMs)
      ensures old(Valid()) ==> Valid()
    {
      if !running {
        return;
      }
      Accumulate(nowMs);
      running := false;
      lastStartMs := None;
    }

    /** Zeroes the accumulator and stops; mode and target are kept. */
    method Reset()
      modifies this`running, this`lastStartMs, this`elapsedMs
      ensures !running && elapsedMs == 0 && lastStartMs == None
      ensures Valid()
    {
      running := false;
      elapsedMs := 0;
      lastStartMs := None;
    }

    /** Raises (here: fails, changing nothing) on a negative target. */
    method SetCountdown(target: int) returns (r: Outcome)
      modifies this
      ensures r.Fail? <==> target < 0
      ensures r.Fail? ==> r.error == "target_ms must be >= 0" && unchanged(this)
      ensures r.Pass? ==> mode == Countdown && targetMs == Some(target)
      ensures r.Pass? ==> !running && elapsedMs == 0 && lastStartMs == None
      ensures r.Pass? ==> Valid()
    {
      if target < 0 {
        return Fail("target_ms must be >= 0");
      }
      mode := Countdown;
      targetMs := Some(target);
      Reset();
      r := Pass;
    }

    method SetStopwatch()
      modifies this
      ensures mode == Stopwatch && targetMs == None
      ensures !running && elapsedMs == 0 && lastStartMs == None
      ensures Valid()
    {
      mode := Stopwatch;
      targetMs := None;
      Reset();
    }

    /** While running, folds the time since the origin into the accumulator
        and moves the origin to `nowMs`; a paused timer is unchanged. */
    method Tick(nowMs: int)
      modifies this`lastStartMs, this`elapsedMs
      ensures elapsedMs >= old(elapsedMs)
      ensures old(running) ==> elapsedMs == old(elapsedMs) + Delta(old(lastStartMs), nowMs) && lastStartMs == Some(nowMs)
      ensures !old(running) ==> elapsedMs == old(elapsedMs) && lastStartMs == old(lastStartMs)
      ensures old(Valid()) ==> Valid()
    {
      if !running {
        return;
      }
      Accumulate(nowMs);
      lastStartMs := Some(nowMs);
    }

    /** `max(0, target - elapsed)`, defined only for a countdown with a target. */
    function RemainingMs(): (r: Option<int>)
      reads this
      ensures r.Some? <==> mode == Countdown && targetMs.Some?
      ensures r.Some? ==> 0 <= r.value <= targetMs.value
      ensures r.Some? ==> (r.value == 0 <==> elapsedMs >= targetMs.value)
      ensures r.Some? && r.value > 0 ==> r.value + elapsedMs == targetMs.value
    {
      if mode != Countdown then None
      else if targetMs.None? then None
      else Some(if targetMs.value - elapsedMs > 0 then targetMs.value - elapsedMs else 0)
    }

    function IsFinished(): (r: bool)
      reads this
      ensures r <==> mode == Countdown && targetMs.Some? && elapsedMs >= targetMs.value
    {
      var rem := RemainingMs();
      rem.Some? && rem.value == 0
    }

    method Accumulate(nowMs: int)
      modifies this`lastStartMs, this`elapsedMs
      ensures elapsedMs == old(elapsedMs) + Delta(old(lastStartMs), nowMs)
      ensures lastStartMs == if old(lastStartMs).None? then Some(nowMs) else old(lastStartMs)
    {
      if lastStartMs.None? {
        lastStartMs := Some(nowMs);
        return;
      }
      var delta := if nowMs - lastStartMs.value > 0 then nowMs - lastStartMs.value else 0;
      elapsedMs := elapsedMs + delta;
    }
  }

  /** The accumulation scenario of the timer tests: start at 1000, tick and pause at 1500,
      then a later tick while paused. */
  method AccumulationScenario() returns (afterPause: nat, afterLaterTick: nat, runningAfterPause: bool)
    ensures afterPause == 500 && afterLaterTick == 500 && !runningAfterPause
  {
    var t := new Timer();
    t.Start(1000);
    t.Tick(1500);
    t.Pause(1500);
    afterPause, runningAfterPause := t.elapsedMs, t.running;
    t.Tick(2000);
    afterLaterTick := t.elapsedMs;
  }
}
