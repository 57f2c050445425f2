/** Record shapes of the app: exercises, finished sessions, the progress aggregate and the timer state. */
module Types {

  /** A value that may be missing (`undefined` or `null` in the app). */
  datatype Option<+T> = None | Some(value: T)

  /** Skill level of an exercise or of a user. */
  datatype Level = Beginner | Intermediate | Advanced

  /** One entry of the exercise catalogue; durations are in seconds. */
  datatype Exercise = Exercise(
    id: string,
    name: string,
    description: string,
    duration: nat,
    repetitions: nat,
    restTime: nat,
    level: Level,
    category: string)

  /** A finished exercise run; `duration` is in whole seconds. */
  datatype ExerciseSession = ExerciseSession(
    id: string,
    exerciseId: string,
    date: string,
    duration: nat,
    completedSets: nat,
    totalSets: nat,
    rating: Option<int>)

  /** The rolling progress aggregate; `totalTime` is in minutes. */
  datatype UserProgress = UserProgress(
    totalSessions: nat,
    totalTime: nat,
    currentStreak: nat,
    longestStreak: nat,
    weeklyGoal: nat,
    sessionsThisWeek: nat,
    level: Level)

  /** A snapshot of the countdown timer. */
  datatype TimerState = TimerState(
    isRunning: bool,
    currentTime: int,
    totalTime: int,
    currentSet: int,
    totalSets: int,
    isResting: bool)
}
