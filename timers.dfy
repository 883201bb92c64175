/** The millisecond countdown used for every cooldown of the game
    (`Timer` in timer.py). The clock `get_ticks()` is passed in as `now`;
    the optional callback is represented by `hasCallback`, and every call of
    it is recorded by incrementing `calls`. */
module Timers {

  /** The part of a timer that changes: when it was started and whether it runs. */
  datatype TimerState = TimerState(startTime: int, active: bool)

  /** The state of a timer that was never started, or was stopped without looping. */
  const STOPPED := TimerState(0, false)

  /** `stop`: back to the stopped state, or, for a looping timer, started
      again at once. */
  function Stopped(loops: bool, now: int): (s: TimerState)
    ensures s.active == loops
    ensures s.startTime == (if loops then now else 0)
  {
    if loops then TimerState(now, true) else STOPPED
  }

  /** One `update` at time `now`: the new state, and whether the callback was
      called. Nothing happens before `duration` milliseconds have passed since
      `startTime`; after that the callback is called when one is set and the
      start time is not 0, and the timer stops. */
  function Updated(duration: int, loops: bool, hasCallback: bool, s: TimerState, now: int): (r: (TimerState, bool))
    ensures now - s.startTime < duration ==> r == (s, false)
    ensures now - s.startTime >= duration ==> r.0 == Stopped(loops, now)
    ensures r.1 <==> now - s.startTime >= duration && hasCallback && s.startTime != 0
  {
    if now - s.startTime >= duration then
      (Stopped(loops, now), hasCallback && s.startTime != 0)
    else
      (s, false)
  }

  /** A run of `update` calls at the successive clock readings `times`: the
      final state and how many times the callback was called. */
  function UpdatedAll(duration: int, loops: bool, hasCallback: bool, s: TimerState, times: seq<int>): (TimerState, nat)
    decreases |times|
  {
    if times == [] then (s, 0)
    else
      var (s1, fired) := Updated(duration, loops, hasCallback, s, times[0]);
      var (s2, n) := UpdatedAll(duration, loops, hasCallback, s1, times[1..]);
      (s2, n + (if fired then 1 else 0))
  }

  /** A stopped timer that does not loop stays stopped under any number of
      updates and never calls its callback. */
  lemma {:induction false} StoppedStaysSilent(duration: int, hasCallback: bool, times: seq<int>)
    ensures UpdatedAll(duration, false, hasCallback, STOPPED, times) == (STOPPED, 0)
    decreases |times|
  {
    if times != [] {
      StoppedStaysSilent(duration, hasCallback, times[1..]);
    }
  }

  /** A timer that does not loop calls its callback at most once, whatever the
      clock readings, until it is started again. */
  lemma {:induction false} FiresAtMostOnce(duration: int, hasCallback: bool, s: TimerState, times: seq<int>)
    ensures UpdatedAll(duration, false, hasCallback, s, times).1 <= 1
    decreases |times|
  {
    if times != [] {
      var (s1, fired) := Updated(duration, false, hasCallback, s, times[0]);
      if fired {
        StoppedStaysSilent(duration, hasCallback, times[1..]);
      } else {
        FiresAtMostOnce(duration, hasCallback, s1, times[1..]);
      }
    }
  }

  /** A looping timer that was never started starts itself, without calling
      its callback, on the first update at which `now >= duration`. */
  lemma LoopingSelfStarts(duration: int, hasCallback: bool, now: int)
    requires now >= duration
    ensures Updated(duration, true, hasCallback, STOPPED, now) == (TimerState(now, true), false)
  {
  }

  class Timer {
    const duration: int
    const loops: bool
    const hasCallback: bool
    var startTime: int
    var active: bool
    /** How many times the callback has been called. */
    var calls: nat

    /** A timer that is not running was last stopped, so its start time is 0. */
    ghost predicate Valid()
      reads this
    {
      !active ==> startTime == 0
    }

    function State(): TimerState
      reads this
    {
      TimerState(startTime, active)
    }

    constructor (duration: int, hasCallback: bool, loops: bool)
      ensures this.duration == duration && this.hasCallback == hasCallback && this.loops == loops
      ensures State() == STOPPED && calls == 0
      ensures Valid()
    {
      this.duration := duration;
      this.hasCallback := hasCallback;
      this.loops := loops;
      startTime := 0;
      active := false;
      calls := 0;
    }

    method Start(now: int)
      modifies this`startTime, this`active
      ensures State() == TimerState(now, true)
      ensures Valid()
    {
      active := true;
      startTime := now;
    }

    method Stop(now: int)
      modifies this`startTime, this`active
      ensures State() == Stopped(loops, now)
      ensures Valid()
    {
      active := false;
      startTime := 0;
      if loops {
        Start(now);
      }
    }

    method Update(now: int)
      requires Valid()
      modifies this`startTime, this`active, this`calls
      ensures Valid()
      ensures (State(), calls - old(calls)) ==
        var (s, fired) := Updated(duration, loops, hasCallback, old(State()), now);
        (s, if fired then 1 else 0)
    {
      if now - startTime >= duration {
        if hasCallback && startTime != 0 {
          calls := calls + 1;
        }
        Stop(now);
      }
    }
  }
}
