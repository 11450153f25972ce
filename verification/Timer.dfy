/** The polled timer: its state, the class that keeps it, and how it relates to a clock that never wraps. */
module Timer {
  import opened Platform

  datatype TimerState = TimerState(
    timeout: Word32, reference: Word32, repeating: bool, started: bool, done: bool) {

    function Pause(): TimerState { this.(started := false) }

    function Start(): TimerState { this.(started := true) }

    function SetTimeout(millis: Word32): TimerState { this.(timeout := millis) }

    function Reset(now: Word32): TimerState { this.(reference := now) }

    function ClearDone(): TimerState { this.(done := false) }

    /** Whether an update at clock reading `now` makes the timer fire. */
    predicate Fires(now: Word32) {
      started && Wrap32(now - reference) > timeout
    }

    function Update(now: Word32): TimerState {
      if !started then
        Reset(now)
      else if !Fires(now) then
        this
      else
        var fired := this.(done := true).Reset(now);
        if repeating then fired else fired.Pause()
    }
  }

  /** The variable holding the last clock reading. The owner of the timers writes it, the timers refer to it. */
  class Clock {
    var currentMillis: Word32

    constructor ()
      ensures currentMillis == 0
    {
      currentMillis := 0;
    }
  }

  class SimpleTimer {
    const clock: Clock
    const repeating: bool
    var timeoutMillis: Word32
    var referenceMillis: Word32
    var started: bool
    var done: bool

    constructor (timeoutMillis: Word32, clock: Clock, repeating: bool)
      ensures this.clock == clock
      ensures State() == TimerState(timeoutMillis, 0, repeating, false, false)
    {
      this.clock := clock;
      this.repeating := repeating;
      this.timeoutMillis := timeoutMillis;
      referenceMillis := 0;
      started := false;
      done := false;
    }

    function State(): TimerState
      reads this
    {
      TimerState(timeoutMillis, referenceMillis, repeating, started, done)
    }

    predicate IsRunning()
      reads this
    {
      started
    }

    predicate IsDone()
      reads this
    {
      done
    }

    method Pause()
      modifies this
      ensures State() == old(State()).Pause()
    {
      started := false;
    }

    method Start()
      modifies this
      ensures State() == old(State()).Start()
    {
      started := true;
    }

    method SetTimeout(millis: Word32)
      modifies this
      ensures State() == old(State()).SetTimeout(millis)
    {
      timeoutMillis := millis;
    }

    method Reset()
      modifies this
      ensures State() == old(State()).Reset(clock.currentMillis)
    {
      referenceMillis := clock.currentMillis;
    }

    method ClearDone()
      modifies this
      ensures State() == old(State()).ClearDone()
    {
      done := false;
    }

    method Update()
      modifies this
      ensures State() == old(State()).Update(clock.currentMillis)
    {
      if started {
        if Wrap32(clock.currentMillis - referenceMillis) > timeoutMillis {
          done := true;
          Reset();
          if !repeating {
            Pause();
          }
        }
      } else {
        referenceMillis := clock.currentMillis;
      }
    }
  }

  // ---------- One poll against the unbounded clock ----------

  /** A timer whose reference was taken at true time `r` never fires before its timeout has truly elapsed. */
  lemma NeverEarly(tm: TimerState, r: nat, t: nat)
    requires tm.reference == Wrap32(r) && r <= t
    requires tm.Fires(Wrap32(t))
    ensures t - r > tm.timeout
  {
    ElapsedModulo(r, t);
  }

  /** A poll answers as an unbounded clock would, except exactly when elapsed time has wrapped to within the timeout. */
  lemma FiresExactly(tm: TimerState, r: nat, t: nat)
    requires tm.started && tm.reference == Wrap32(r) && r <= t
    ensures (tm.Fires(Wrap32(t)) <==> t - r > tm.timeout)
       <==> !(t - r >= TWO_TO_THE_32 && (t - r) % TWO_TO_THE_32 <= tm.timeout)
    ensures t - r < TWO_TO_THE_32 ==> (tm.Fires(Wrap32(t)) <==> t - r > tm.timeout)
  {
    ElapsedModulo(r, t);
  }

  // ---------- Whole polling histories ----------

  /** Poll times in order, the first no earlier than `from`, each at most `gap` after the one before. */
  predicate PolledEvery(from: nat, times: seq<nat>, gap: nat)
    decreases |times|
  {
    times == [] || (from <= times[0] <= from + gap && PolledEvery(times[0], times[1..], gap))
  }

  /** The times at which the timer fires when it is updated at `times` and its flag cleared after each update. */
  function FireTimes(tm: TimerState, times: seq<nat>): (fires: seq<nat>)
    decreases |times|
  {
    if times == [] then []
    else
      var next := FireTimes(tm.Update(Wrap32(times[0])).ClearDone(), times[1..]);
      if tm.Fires(Wrap32(times[0])) then [times[0]] + next else next
  }

  /** The same on a clock that never wraps: fire at each first poll more than `timeout` after the reference. */
  function IdealFireTimes(timeout: nat, repeating: bool, r: nat, times: seq<nat>): (fires: seq<nat>)
    decreases |times|
  {
    if times == [] then []
    else if times[0] <= r + timeout then IdealFireTimes(timeout, repeating, r, times[1..])
    else if repeating then [times[0]] + IdealFireTimes(timeout, repeating, times[0], times[1..])
    else [times[0]]
  }

  lemma {:induction false} StoppedNeverFires(tm: TimerState, times: seq<nat>)
    requires !tm.started
    ensures FireTimes(tm, times) == []
    decreases |times|
  {
    if times == [] {
    } else {
      StoppedNeverFires(tm.Update(Wrap32(times[0])).ClearDone(), times[1..]);
    }
  }

  /**
   * The wrapping timer refines the ideal one over every polling history, however often the clock wraps,
   * when the polls are close enough that no expiry can be missed. `last` is the last poll before `times`.
   */
  lemma {:induction false} TimerRefinesIdeal(tm: TimerState, r: nat, last: nat, times: seq<nat>, gap: nat)
    requires tm.started && tm.reference == Wrap32(r)
    requires r <= last <= r + tm.timeout
    requires PolledEvery(last, times, gap) && tm.timeout + gap < TWO_TO_THE_32
    ensures FireTimes(tm, times) == IdealFireTimes(tm.timeout, tm.repeating, r, times)
    decreases |times|
  {
    if times == [] {
    } else {
      var t := times[0];
      FiresExactly(tm, r, t);
      var next := tm.Update(Wrap32(t)).ClearDone();
      if t <= r + tm.timeout {
        TimerRefinesIdeal(next, r, t, times[1..], gap);
      } else if tm.repeating {
        TimerRefinesIdeal(next, t, t, times[1..], gap);
      } else {
        StoppedNeverFires(next, times[1..]);
      }
    }
  }

  /** Each time in `f` is more than `low` and at most `high` after the one before it. */
  predicate Spaced(f: seq<nat>, low: nat, high: nat) {
    forall i :: 0 < i < |f| ==> low < f[i] - f[i - 1] <= high
  }

  /** Consecutive firings of a running repeating timer are more than `timeout` and at most `timeout + gap` apart. */
  lemma {:induction false} FireSpacing(tm: TimerState, r: nat, last: nat, times: seq<nat>, gap: nat)
    requires tm.started && tm.repeating && tm.reference == Wrap32(r)
    requires r <= last <= r + tm.timeout
    requires PolledEvery(last, times, gap) && tm.timeout + gap < TWO_TO_THE_32
    ensures Spaced([r] + FireTimes(tm, times), tm.timeout, tm.timeout + gap)
    decreases |times|
  {
    if times == [] {
    } else {
      var t := times[0];
      FiresExactly(tm, r, t);
      var next := tm.Update(Wrap32(t)).ClearDone();
      if t <= r + tm.timeout {
        FireSpacing(next, r, t, times[1..], gap);
      } else {
        FireSpacing(next, t, t, times[1..], gap);
        var g := [t] + FireTimes(next, times[1..]);
        var f := [r] + FireTimes(tm, times);
        assert f == [r] + g && f[1] == t;
        forall i | 1 < i < |f| ensures tm.timeout < f[i] - f[i - 1] <= tm.timeout + gap {
          assert f[i] == g[i - 1] && f[i - 1] == g[i - 2];
        }
      }
    }
  }

  lemma {:induction false} PollsAscend(from: nat, times: seq<nat>, gap: nat)
    requires PolledEvery(from, times, gap)
    ensures times != [] ==> times[|times| - 1] >= from
    decreases |times|
  {
    if times == [] {
    } else {
      PollsAscend(times[0], times[1..], gap);
    }
  }

  /** A running one-shot timer fires once, in the window a rollback deadline needs, if it is polled past that window. */
  lemma {:induction false} OneShotFiresOnce(tm: TimerState, r: nat, last: nat, times: seq<nat>, gap: nat)
    requires tm.started && !tm.repeating && tm.reference == Wrap32(r)
    requires r <= last <= r + tm.timeout
    requires PolledEvery(last, times, gap) && tm.timeout + gap < TWO_TO_THE_32
    ensures var f := FireTimes(tm, times);
      if times != [] && times[|times| - 1] > r + tm.timeout
      then |f| == 1 && r + tm.timeout < f[0] <= r + tm.timeout + gap
      else f == []
    decreases |times|
  {
    if times == [] {
    } else {
      var t := times[0];
      FiresExactly(tm, r, t);
      var next := tm.Update(Wrap32(t)).ClearDone();
      if t <= r + tm.timeout {
        OneShotFiresOnce(next, r, t, times[1..], gap);
      } else {
        StoppedNeverFires(next, times[1..]);
        PollsAscend(t, times[1..], gap);
      }
    }
  }
}
