/**
 * The countdown timer hook. Its state is overwritten by the four control operations; one
 * firing of the one-second interval is the `Tick` step.
 */
module TimerHook {
  import opened Types

  /** The state the hook starts from, and the one `resetTimer` restores. */
  const InitialTimerState: TimerState := TimerState(false, 0, 0, 1, 1, false)

  /** The state `startTimer(duration, sets, restTime)` sets; the rest time plays no part. */
  function Started(duration: int, sets: int): TimerState
  {
    TimerState(true, duration, duration, 1, sets, false)
  }

  function Paused(t: TimerState): TimerState
  {
    t.(isRunning := false)
  }

  function Resumed(t: TimerState): TimerState
  {
    t.(isRunning := true)
  }

  /** One interval firing: a running timer with time left loses one second; otherwise nothing happens. */
  function Step(t: TimerState): (r: TimerState)
    ensures r.(currentTime := t.currentTime) == t
    ensures r.currentTime == t.currentTime - 1 <==> t.isRunning && t.currentTime > 0
    ensures r.currentTime == t.currentTime <==> !(t.isRunning && t.currentTime > 0)
    ensures t.currentTime >= 0 ==> r.currentTime >= 0
  {
    if t.isRunning && t.currentTime > 0 then t.(currentTime := t.currentTime - 1) else t
  }

  /** `n` interval firings in a row. */
  function Ticks(t: TimerState, n: nat): TimerState
    decreases n
  {
    if n == 0 then t else Ticks(Step(t), n - 1)
  }

  /** A running timer counts down one second per firing and then rests at zero. */
  lemma {:induction false} TicksWhileRunning(t: TimerState, n: nat)
    requires t.isRunning && t.currentTime >= 0
    ensures Ticks(t, n) == t.(currentTime := if n <= t.currentTime then t.currentTime - n else 0)
    decreases n
  {
    if n > 0 {
      TicksWhileRunning(Step(t), n - 1);
    }
  }

  /** A paused or stopped timer is not changed by any number of firings. */
  lemma {:induction false} TicksWhilePaused(t: TimerState, n: nat)
    requires !t.isRunning
    ensures Ticks(t, n) == t
    decreases n
  {
    if n > 0 {
      TicksWhilePaused(Step(t), n - 1);
    }
  }

  /** Firings change only the remaining time, and never take a non-negative time below zero. */
  lemma {:induction false} TicksKeepShape(t: TimerState, n: nat)
    ensures Ticks(t, n).(currentTime := t.currentTime) == t
    ensures t.currentTime >= 0 ==> 0 <= Ticks(t, n).currentTime <= t.currentTime
    decreases n
  {
    if n > 0 {
      TicksKeepShape(Step(t), n - 1);
    }
  }

  /**
   * After `startTimer(d, …)` with `d >= 0`, the time is still positive before `d` firings,
   * reaches zero after exactly `d`, and further firings change nothing.
   */
  lemma RunsDownToZero(d: int, sets: int, n: nat)
    requires d >= 0
    ensures n < d ==> Ticks(Started(d, sets), n).currentTime == d - n > 0
    ensures Ticks(Started(d, sets), d).currentTime == 0
    ensures Ticks(Started(d, sets), d + n) == Ticks(Started(d, sets), d)
  {
    TicksWhileRunning(Started(d, sets), n);
    TicksWhileRunning(Started(d, sets), d);
    TicksWhileRunning(Started(d, sets), d + n);
  }

  /** Pausing and then resuming a running timer restores exactly the state it had. */
  lemma PauseResumeRestores(t: TimerState)
    requires t.isRunning
    ensures Resumed(Paused(t)) == t
  {
  }

  /** The hook's mutable timer state. */
  class Timer {
    var isRunning: bool
    var currentTime: int
    var totalTime: int
    var currentSet: int
    var totalSets: int
    var isResting: bool

    /** The current fields as one record. */
    function State(): TimerState
      reads this
    {
      TimerState(isRunning, currentTime, totalTime, currentSet, totalSets, isResting)
    }

    constructor ()
      ensures State() == InitialTimerState
    {
      isRunning, currentTime, totalTime := false, 0, 0;
      currentSet, totalSets, isResting := 1, 1, false;
    }

    /** `startTimer(duration, sets, restTime)`: a running countdown of `duration` seconds at set 1. */
    method StartTimer(duration: int, sets: int, restTime: int)
      modifies this
      ensures State() == Started(duration, sets)
    {
      isRunning, currentTime, totalTime := true, duration, duration;
      currentSet, totalSets, isResting := 1, sets, false;
    }

    /** `pauseTimer`: stop the countdown and keep every other field. */
    method PauseTimer()
      modifies this
      ensures State() == Paused(old(State()))
    {
      isRunning := false;
    }

    /** `resumeTimer`: restart the countdown and keep every other field. */
    method ResumeTimer()
      modifies this
      ensures State() == Resumed(old(State()))
    {
      isRunning := true;
    }

    /** `resetTimer`: back to the initial state, whatever the state was. */
    method ResetTimer()
      modifies this
      ensures State() == InitialTimerState
    {
      isRunning, currentTime, totalTime := false, 0, 0;
      currentSet, totalSets, isResting := 1, 1, false;
    }

    /** One firing of the interval the effect installs while the timer runs with time left. */
    method Tick()
      modifies this
      ensures State() == Step(old(State()))
    {
      if isRunning && currentTime > 0 {
        currentTime := currentTime - 1;
      }
    }
  }

  /** Pausing then resuming a running timer through the hook leaves its state exactly as it was. */
  method PauseThenResume(t: Timer)
    requires t.isRunning
    modifies t
    ensures t.State() == old(t.State())
  {
    t.PauseTimer();
    t.ResumeTimer();
    PauseResumeRestores(old(t.State()));
  }
}
