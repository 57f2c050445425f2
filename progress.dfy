/** The progress hook: folding a finished session into the aggregate, and loading and saving it. */
module ProgressHook {
  import opened Types
  import opened Storage

  /** The state the hook starts from before anything is loaded. */
  const DefaultProgress: UserProgress := UserProgress(0, 0, 0, 0, 5, 0, Beginner)

  /** `Math.round(seconds / 60)` for whole seconds: the nearest whole minute, a half minute rounding up. */
  function RoundMinutes(seconds: nat): (minutes: nat)
    ensures -30 <= seconds - 60 * minutes < 30
  {
    (seconds + 30) / 60
  }

  function Max(a: nat, b: nat): nat
  {
    if a >= b then a else b
  }

  /** The level a session count deserves: advanced from 50, intermediate from 20, beginner below. */
  function LevelOf(sessions: nat): Level
  {
    if sessions >= 50 then Advanced else if sessions >= 20 then Intermediate else Beginner
  }

  function Rank(l: Level): nat
  {
    match l
    case Beginner => 0
    case Intermediate => 1
    case Advanced => 2
  }

  /** The aggregate's invariant: the longest streak covers the current one and the level matches the count. */
  predicate WellFormed(p: UserProgress)
  {
    p.longestStreak >= p.currentStreak && p.level == LevelOf(p.totalSessions)
  }

  /**
   * `updateProgress`'s new record: every counter grows by one, the time by the session's
   * rounded minutes, the longest streak is raised to the current one, and the level is set
   * on every update whose new count is at least 20 (intermediate below 50, advanced from 50);
   * below 20 the old level is kept.
   */
  function ApplySession(p: UserProgress, session: ExerciseSession): (r: UserProgress)
    ensures r.totalSessions == p.totalSessions + 1
    ensures r.currentStreak == p.currentStreak + 1
    ensures r.sessionsThisWeek == p.sessionsThisWeek + 1
    ensures r.totalTime == p.totalTime + RoundMinutes(session.duration)
    ensures r.weeklyGoal == p.weeklyGoal
    ensures r.longestStreak == Max(p.longestStreak, r.currentStreak)
    ensures r.longestStreak >= r.currentStreak
    ensures r.totalSessions >= 20 ==> r.level == LevelOf(r.totalSessions)
    ensures r.totalSessions < 20 ==> r.level == p.level
    ensures WellFormed(p) ==> WellFormed(r) && Rank(p.level) <= Rank(r.level)
  {
    var bumped := p.(
      totalSessions := p.totalSessions + 1,
      totalTime := p.totalTime + RoundMinutes(session.duration),
      currentStreak := p.currentStreak + 1,
      sessionsThisWeek := p.sessionsThisWeek + 1);
    var streaked := if bumped.currentStreak > bumped.longestStreak
                    then bumped.(longestStreak := bumped.currentStreak) else bumped;
    if streaked.totalSessions >= 50 then streaked.(level := Advanced)
    else if streaked.totalSessions >= 20 then streaked.(level := Intermediate)
    else streaked
  }

  /** The level thresholds seen from the session before: 19 stays beginner, 20 and 49 are intermediate, 50 advanced. */
  lemma LevelThresholds(p: UserProgress, session: ExerciseSession)
    requires WellFormed(p)
    ensures p.totalSessions == 18 ==> ApplySession(p, session).level == Beginner
    ensures p.totalSessions == 19 ==> ApplySession(p, session).level == Intermediate
    ensures p.totalSessions == 48 ==> ApplySession(p, session).level == Intermediate
    ensures p.totalSessions == 49 ==> ApplySession(p, session).level == Advanced
  {
  }

  /** A record whose level disagrees with its count keeps the wrong level while the count stays below 20, and is overwritten from 20 on. */
  lemma InconsistentLevelKept()
    ensures ApplySession(UserProgress(0, 0, 0, 0, 5, 0, Advanced), ExerciseSession("a", "1", "", 0, 1, 1, None)).level == Advanced
    ensures ApplySession(UserProgress(20, 0, 0, 0, 5, 0, Advanced), ExerciseSession("a", "1", "", 0, 1, 1, None)).level == Intermediate
  {
  }

  /** Applying the sessions of a log one after the other, oldest first. */
  function ApplyAll(p: UserProgress, log: seq<ExerciseSession>): UserProgress
    decreases |log|
  {
    if log == [] then p else ApplyAll(ApplySession(p, log[0]), log[1..])
  }

  /** The rounded minutes of every session of a log, added up. */
  function TotalMinutes(log: seq<ExerciseSession>): nat
  {
    if log == [] then 0 else RoundMinutes(log[0].duration) + TotalMinutes(log[1..])
  }

  /** Folding a whole log into an aggregate: counters grow by the log's length and the time by its minutes. */
  lemma {:induction false} ApplyAllEffect(p: UserProgress, log: seq<ExerciseSession>)
    ensures ApplyAll(p, log).totalSessions == p.totalSessions + |log|
    ensures ApplyAll(p, log).currentStreak == p.currentStreak + |log|
    ensures ApplyAll(p, log).sessionsThisWeek == p.sessionsThisWeek + |log|
    ensures ApplyAll(p, log).totalTime == p.totalTime + TotalMinutes(log)
    ensures ApplyAll(p, log).weeklyGoal == p.weeklyGoal
    ensures ApplyAll(p, log).longestStreak ==
            if log == [] then p.longestStreak else Max(p.longestStreak, p.currentStreak + |log|)
    ensures WellFormed(p) ==> WellFormed(ApplyAll(p, log))
    decreases |log|
  {
    if log != [] {
      ApplyAllEffect(ApplySession(p, log[0]), log[1..]);
    }
  }

  /** Replaying a session log from the default state gives the aggregate the log determines. */
  lemma ReplayFromDefault(log: seq<ExerciseSession>)
    ensures ApplyAll(DefaultProgress, log) ==
            UserProgress(|log|, TotalMinutes(log), |log|, |log|, 5, |log|, LevelOf(|log|))
  {
    ApplyAllEffect(DefaultProgress, log);
  }

  /** The hook's state: the progress record it shows. */
  class Tracker {
    var progress: UserProgress

    /** The hook starts from the default record. */
    constructor ()
      ensures progress == DefaultProgress
    {
      progress := DefaultProgress;
    }

    /** `loadProgress`: take the stored record when there is one; otherwise keep the current record. */
    method LoadProgress(store: Store, readFails: bool)
      requires store.Valid()
      modifies this
      ensures progress == if !readFails && ProgressIn(store.items).Some? then ProgressIn(store.items).value
                          else old(progress)
    {
      var stored := store.GetStoredProgress(readFails);
      if stored.Some? {
        progress := stored.value;
      }
    }

    /** `updateProgress`: fold the session into the record, show it, and store it (a failed write is swallowed). */
    method UpdateProgress(store: Store, session: ExerciseSession, writeFails: bool)
      requires store.Valid()
      modifies this, store
      ensures progress == ApplySession(old(progress), session)
      ensures store.Valid()
      ensures store.items == if writeFails then old(store.items) else PutProgress(old(store.items), progress)
    {
      var newProgress := ApplySession(progress, session);
      progress := newProgress;
      store.StoreProgress(newProgress, writeFails);
    }
  }

  /** Mounting the hook: the default record, replaced by the stored one when the read finds one. */
  method Mount(store: Store, readFails: bool) returns (t: Tracker)
    requires store.Valid()
    ensures fresh(t)
    ensures t.progress == if !readFails && ProgressIn(store.items).Some? then ProgressIn(store.items).value
                          else DefaultProgress
  {
    t := new Tracker();
    t.LoadProgress(store, readFails);
  }
}
