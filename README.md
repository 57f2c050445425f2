# Kegel coach core, modelled in Dafny

A model of the logic of a small Kegel-exercise coaching app: the fixed exercise
catalogue and its two queries, the local key/value store (AsyncStorage) that keeps
the progress record and the session log, the progress hook that folds a finished
session into the rolling `UserProgress` aggregate, and the countdown timer hook.

- `types.dfy` (module `Types`): the records `Exercise`, `ExerciseSession`, `UserProgress`
  and `TimerState` as datatypes, `Level`, and `Option`.
- `exercises.dfy` (module `Exercises`): the five catalogue entries as a constant sequence;
  `ExercisesByLevel` (a filter) and `ExerciseById` (a find), both defined through generic
  functions over any exercise list whose contracts are proved by induction.
- `storage.dfy` (module `Storage`): class `Store` owning a `map` from keys to decoded values.
  JSON encoding is the identity. Every call into AsyncStorage may fail; the failure is a
  boolean parameter. A failure is swallowed: the write leaves the map as it was; the read
  returns `None` or `[]`. The map functions `PutProgress`/`PutSessions`/`ProgressIn`/`SessionsIn`
  specify the methods.
- `progress.dfy` (module `ProgressHook`): `ApplySession`, the pure fold of `updateProgress`;
  `ApplyAll`, the fold over a whole log, and what it computes; class `Tracker` for the
  hook's state, with `LoadProgress` and `UpdateProgress` running against a `Store`.
- `timer.dfy` (module `TimerHook`): class `Timer` with the six `TimerState` fields and the
  methods `StartTimer`, `PauseTimer`, `ResumeTimer`, `ResetTimer` and `Tick` (one firing of
  the one-second interval). Each method is specified by a function on `TimerState`, and
  the lemmas about those functions give the countdown's behaviour over many ticks.

What the code does that a reader might not expect:

- The timer has no contract/relax phase engine. The code does not switch phases, advance
  sets or finish a run. `isResting` and `currentSet` never change after `startTimer`, and
  `restTime` is accepted but unused.
- The level is not a function of the session count alone. The code sets it on
  every update whose new count is at least 20 (intermediate below 50, advanced from 50) and
  keeps the old level below 20. `ApplySession` proves that a record satisfying `WellFormed`
  (level equal to `LevelOf(totalSessions)`, longest streak at least the current one) stays
  well formed and never loses level. `InconsistentLevelKept` shows a stored record whose
  level disagrees with its count keeping the wrong level while the count stays below 20,
  and being overwritten once the count is 20 or more, even when that lowers the level.
- Failures do not always leave the store unchanged. `storeSession` reads the list through
  `getStoredSessions`, which swallows its own failure and returns `[]`. A failed read
  followed by a successful write therefore replaces the stored log by the one new session.
  `Store.StoreSession` states this case. The plain "old list plus the new session" holds
  when neither call fails.
- The stores use the two fixed keys `@kegel_progress` and `@kegel_sessions`; there are no
  per-user keys in these helpers.

## Model

| member | source | states |
|---|---|---|
| Exercises.FilterLevel | utils/exercises.ts:56-58 | the result holds exactly the entries of the input with the given level, and is no longer than the input |
| Exercises.FilterLevelConcat | utils/exercises.ts:56-58 | filtering distributes over concatenation, so the kept entries stay in input order |
| Exercises.FilterLevelPartition | utils/exercises.ts:56-58 | the beginner, intermediate and advanced filters of a list have lengths summing to the list's length |
| Exercises.ExercisesByLevel | utils/exercises.ts:56-58 | `getExercisesByLevel(l)` holds a catalogue entry iff that entry has level `l` |
| Exercises.FindById | utils/exercises.ts:60-62 | none iff no entry has the id; otherwise the entry at some index with that id such that no earlier entry has it |
| Exercises.FindByOwnId | utils/exercises.ts:60-62 | in a list with distinct ids, looking up an entry's own id yields that entry |
| Exercises.ExerciseById | utils/exercises.ts:60-62 | `getExerciseById` is none iff no catalogue entry has the id, else a catalogue entry with that id |
| Exercises.CatalogueIds | utils/exercises.ts:3-54 | the catalogue has five entries with ids "1" to "5" in order |
| Exercises.KegelExercises | utils/exercises.ts:3-54 | the five catalogue entries, every field as in the source |
| Exercises.CatalogueLevelOrder | utils/exercises.ts:3-58 | each level's query returns its catalogue entries in catalogue order: beginner entry 1, intermediate entries 2 and 5, advanced entries 3 and 4 |
| Exercises.CatalogueLevelSizes | utils/exercises.ts:3-58 | one beginner, two intermediate and two advanced entries, together all five |
| Exercises.CatalogueDistinct | utils/exercises.ts:5-45 | the catalogue ids are pairwise distinct |
| Exercises.CatalogueLookup | utils/exercises.ts:3-62 | every catalogue entry is what `getExerciseById` returns for its own id |
| Exercises.CatalogueNoSix | utils/exercises.ts:60-62 | `getExerciseById("6")` is none |
| Storage.PutProgress | utils/storage.ts:7-9 | after writing the progress key, reading it gives the record, the session list is unchanged, and every other key keeps its value |
| Storage.PutSessions | utils/storage.ts:29 | after writing the sessions key, reading it gives the list, the progress is unchanged, and every other key keeps its value |
| Storage.AppendSession | utils/storage.ts:27-29 | appending grows the stored list by one, keeps the old list as its prefix, and puts the new session last |
| Storage.Store.constructor | utils/storage.ts:4-5 | the store starts with what the device holds, the two keys holding values of their shapes |
| Storage.Store.StoreProgress | utils/storage.ts:7-13 | the progress key is overwritten; on failure the store is unchanged |
| Storage.Store.GetStoredProgress | utils/storage.ts:15-23 | the stored record when present and the read succeeds, otherwise `null` |
| Storage.Store.GetStoredSessions | utils/storage.ts:35-43 | the stored list when present and the read succeeds, otherwise `[]` |
| Storage.Store.StoreSession | utils/storage.ts:25-33 | the list written is the read list plus the session (the read list is `[]` when the read fails); on write failure nothing changes; the progress key is never touched |
| Storage.StoreThenGetProgress | utils/storage.ts:7-23 | storing a record and reading it back (both succeeding) returns that record and leaves the sessions alone |
| ProgressHook.RoundMinutes | hooks/useProgress.ts:35 | `Math.round(d / 60)` for whole seconds `d`: the nearest whole minute, halves rounding up |
| ProgressHook.ApplySession | hooks/useProgress.ts:31-49 | counters +1, time + rounded minutes, weekly goal kept, longest streak = max(old, new current) and so at least the current one, level set on every update whose new count is at least 20 (intermediate below 50, advanced from 50) and kept below 20; from a well-formed record, well-formedness preserved and level never lowered |
| ProgressHook.LevelThresholds | hooks/useProgress.ts:44-49 | from a well-formed record, 19 sessions stay beginner, 20 and 49 are intermediate, 50 is advanced |
| ProgressHook.InconsistentLevelKept | hooks/useProgress.ts:44-49 | a record whose level disagrees with its count keeps that level while the count stays below 20, and is overwritten from 20 on (advanced drops to intermediate at 21) |
| ProgressHook.ApplyAllEffect | hooks/useProgress.ts:31-49 | folding a log adds its length to each counter and its rounded minutes to the time, sets the longest streak, and preserves well-formedness |
| ProgressHook.ReplayFromDefault | hooks/useProgress.ts:6-14 | folding a log from the initial record gives counts equal to the log's length, its total minutes, goal 5 and the level of that count |
| ProgressHook.Tracker.constructor | hooks/useProgress.ts:6-14 | the hook starts from the default record |
| ProgressHook.Tracker.LoadProgress | hooks/useProgress.ts:20-29 | the state becomes the stored record when the read finds one, and is otherwise unchanged |
| ProgressHook.Tracker.UpdateProgress | hooks/useProgress.ts:31-53 | the state becomes `ApplySession` of the old state and the session, and that record is written to the progress key unless the write fails |
| ProgressHook.Mount | hooks/useProgress.ts:6-25 | on mount the state is the stored record if one is read, otherwise the default record |
| TimerHook.Step | hooks/useTimer.ts:50-55 | a firing lowers the time by one exactly when the timer runs with time left, changes no other field, and keeps a non-negative time non-negative |
| TimerHook.TicksWhileRunning | hooks/useTimer.ts:50-55 | `n` firings of a running timer with time `c >= 0` leave time `c - n`, or 0 once `n >= c`, and change nothing else |
| TimerHook.TicksWhilePaused | hooks/useTimer.ts:50 | firings do not change a timer that is not running |
| TimerHook.TicksKeepShape | hooks/useTimer.ts:52-55 | any number of firings changes only the time, and a non-negative time stays between 0 and where it was |
| TimerHook.RunsDownToZero | hooks/useTimer.ts:16-24 | after starting with `d >= 0`, the time is positive before `d` firings, 0 after exactly `d`, and further firings change nothing |
| TimerHook.PauseResumeRestores | hooks/useTimer.ts:27-33 | pausing then resuming a running timer gives back the same state |
| TimerHook.Timer.constructor | hooks/useTimer.ts:5-12 | the timer starts stopped at time 0, set 1 of 1, not resting |
| TimerHook.Timer.StartTimer | hooks/useTimer.ts:16-25 | running, time and total time equal to the duration, set 1, total sets as given, not resting; the rest time is ignored |
| TimerHook.Timer.PauseTimer | hooks/useTimer.ts:27-29 | stops the timer and changes no other field |
| TimerHook.Timer.ResumeTimer | hooks/useTimer.ts:31-33 | starts the timer and changes no other field |
| TimerHook.Timer.ResetTimer | hooks/useTimer.ts:35-47 | from any state, exactly the initial state |
| TimerHook.Timer.Tick | hooks/useTimer.ts:49-56 | one interval firing, as `Step` of the old state |
| TimerHook.PauseThenResume | hooks/useTimer.ts:27-33 | pause followed by resume on a running timer restores every field |

## Left out

- Asynchrony: `async`/`await`, promise scheduling and the interleaving of two writers' read-modify-write cycles. Every store call is one synchronous step.
- JSON encoding and decoding are the identity. A key holding a value of a different shape than its helper expects is excluded by `Store.Valid`.
- The `stored ? … : …` truthiness checks on the raw string are not modelled separately. A value written by these helpers is never the empty string.
- `console.error` is logging only.
- The interval machinery is left out: `setInterval`/`clearInterval`, the one-second cadence, the `useEffect` re-subscription and its cleanup (which keeps at most one interval). `Tick` stands for one firing of the interval that is installed only while the timer runs with time left.
- React state capture is left out: `updateProgress` reads the `progress` of the render that created it. The model reads the current state.
- JavaScript numbers are modelled as integers. Record counters and session durations are natural numbers. `Math.round` on fractional durations, `NaN` and floating-point overflow are left out.
- The screens' own inline timer and per-user session keys, navigation, the authentication context and `useFrameworkReady` are not part of this model.
