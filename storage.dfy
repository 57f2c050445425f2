/**
 * The local key/value store (AsyncStorage) as a map from keys to already-decoded values;
 * JSON encoding and decoding are the identity here. Every storage call may fail; a failure
 * is a boolean parameter of the operation that performs the call.
 */
module Storage {
  import opened Types

  const ProgressKey: string := "@kegel_progress"
  const SessionsKey: string := "@kegel_sessions"

  /** What a key of the store can hold once decoded. */
  datatype StoredValue = ProgressValue(progress: UserProgress) | SessionsValue(sessions: seq<ExerciseSession>)

  /** The progress key holds a progress record and the sessions key a session list (other keys are not constrained). */
  predicate TypedKeys(m: map<string, StoredValue>)
  {
    (ProgressKey in m ==> m[ProgressKey].ProgressValue?) &&
    (SessionsKey in m ==> m[SessionsKey].SessionsValue?)
  }

  /** The stored progress record, or none when the progress key is absent. */
  function ProgressIn(m: map<string, StoredValue>): Option<UserProgress>
    requires TypedKeys(m)
  {
    if ProgressKey in m then Some(m[ProgressKey].progress) else None
  }

  /** The stored session list, or the empty list when the sessions key is absent. */
  function SessionsIn(m: map<string, StoredValue>): seq<ExerciseSession>
    requires TypedKeys(m)
  {
    if SessionsKey in m then m[SessionsKey].sessions else []
  }

  /** `setItem(PROGRESS_KEY, …)`: the progress is overwritten and every other key keeps its value. */
  function PutProgress(m: map<string, StoredValue>, p: UserProgress): (r: map<string, StoredValue>)
    requires TypedKeys(m)
    ensures TypedKeys(r)
    ensures ProgressIn(r) == Some(p)
    ensures SessionsIn(r) == SessionsIn(m)
    ensures r - {ProgressKey} == m - {ProgressKey}
  {
    m[ProgressKey := ProgressValue(p)]
  }

  /** `setItem(SESSIONS_KEY, …)`: the session list is overwritten and every other key keeps its value. */
  function PutSessions(m: map<string, StoredValue>, sessions: seq<ExerciseSession>): (r: map<string, StoredValue>)
    requires TypedKeys(m)
    ensures TypedKeys(r)
    ensures SessionsIn(r) == sessions
    ensures ProgressIn(r) == ProgressIn(m)
    ensures r - {SessionsKey} == m - {SessionsKey}
  {
    m[SessionsKey := SessionsValue(sessions)]
  }

  /** Appending a session to the stored list grows it by one at the end and keeps the earlier order. */
  lemma AppendSession(m: map<string, StoredValue>, s: ExerciseSession)
    requires TypedKeys(m)
    ensures |SessionsIn(PutSessions(m, SessionsIn(m) + [s]))| == |SessionsIn(m)| + 1
    ensures SessionsIn(PutSessions(m, SessionsIn(m) + [s]))[..|SessionsIn(m)|] == SessionsIn(m)
    ensures SessionsIn(PutSessions(m, SessionsIn(m) + [s]))[|SessionsIn(m)|] == s
  {
  }

  /** The device's AsyncStorage, as far as the storage helpers touch it. */
  class Store {
    var items: map<string, StoredValue>

    predicate Valid()
      reads this
    {
      TypedKeys(items)
    }

    /** A store holding what earlier runs of the app left in it. */
    constructor (initial: map<string, StoredValue>)
      requires TypedKeys(initial)
      ensures Valid() && items == initial
    {
      items := initial;
    }

    /** `storeProgress`: overwrite the progress key; a failed write is swallowed and changes nothing. */
    method StoreProgress(p: UserProgress, fails: bool)
      requires Valid()
      modifies this
      ensures Valid()
      ensures items == if fails then old(items) else PutProgress(old(items), p)
    {
      if !fails {
        items := PutProgress(items, p);
      }
    }

    /** `getStoredProgress`: the stored progress, or none when it is absent or the read fails. */
    method GetStoredProgress(fails: bool) returns (r: Option<UserProgress>)
      requires Valid()
      ensures fails || ProgressKey !in items ==> r == None
      ensures !fails && ProgressKey in items ==> r == Some(items[ProgressKey].progress)
    {
      if fails {
        r := None;
      } else {
        r := ProgressIn(items);
      }
    }

    /** `getStoredSessions`: the stored list, or the empty list when it is absent or the read fails. */
    method GetStoredSessions(fails: bool) returns (r: seq<ExerciseSession>)
      requires Valid()
      ensures fails || SessionsKey !in items ==> r == []
      ensures !fails && SessionsKey in items ==> r == items[SessionsKey].sessions
    {
      if fails {
        r := [];
      } else {
        r := SessionsIn(items);
      }
    }

    /**
     * `storeSession`: read the list, append, write the list back. The read swallows its own
     * failure and yields the empty list, so a failed read followed by a successful write
     * replaces the stored list by the single new session; a failed write changes nothing.
     */
    method StoreSession(s: ExerciseSession, readFails: bool, writeFails: bool)
      requires Valid()
      modifies this
      ensures Valid()
      ensures items == if writeFails then old(items)
                       else PutSessions(old(items), (if readFails then [] else SessionsIn(old(items))) + [s])
      ensures !readFails && !writeFails ==> SessionsIn(items) == SessionsIn(old(items)) + [s]
      ensures ProgressIn(items) == ProgressIn(old(items))
    {
      var existing := GetStoredSessions(readFails);
      var updated := existing + [s];
      if !writeFails {
        items := PutSessions(items, updated);
      }
    }
  }

  /** Storing a progress record and reading it back, with both calls succeeding, yields that record. */
  method StoreThenGetProgress(store: Store, p: UserProgress) returns (r: Option<UserProgress>)
    requires store.Valid()
    modifies store
    ensures store.Valid()
    ensures r == Some(p)
    ensures SessionsIn(store.items) == SessionsIn(old(store.items))
  {
    store.StoreProgress(p, false);
    r := store.GetStoredProgress(false);
  }
}
