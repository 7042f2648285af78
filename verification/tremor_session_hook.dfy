/** useTremorSession (src/hooks/useTremorSession.ts): the start / add-reading / pause /
    resume / stop life cycle of one recording. The hook's state cells become the fields of
    a TremorSession object; the effect that recomputes the live index whenever the buffer
    changes is applied at the end of each method that changes the buffer, so the class
    invariant is that the live index always belongs to the current buffer. Date.now() and
    Math.sqrt are parameters. */
module TremorSessionHook {
  import opened Types
  import opened Numeric
  import opened Seqs
  import opened SensorService
  import opened StorageService
  import SyncService

  /** `slice(-1000)` in addReading. */
  const SESSION_BUFFER_CAP: nat := 1000

  /** The live index shown while no reading is buffered. */
  const NEUTRAL_TREMOR_INDEX: int := 45

  /** Gain from mean magnitude to live index. */
  const LIVE_GAIN: real := 10.0

  /** The index the effect computes: 45 for an empty buffer, otherwise ten times the mean
      magnitude, clamped to [0, 100] and rounded. */
  function LiveTremorIndex(data: seq<Reading>): (index: int)
    ensures 0 <= index <= 100
    ensures data == [] ==> index == NEUTRAL_TREMOR_INDEX
    ensures data != [] ==>
      var scaled := MeanOf(data, Magnitude) * LIVE_GAIN;
      (scaled <= 0.0 ==> index == 0) && (scaled >= 100.0 ==> index == 100)
      && (0.0 <= scaled <= 100.0 ==> index as real - 0.5 <= scaled < index as real + 0.5)
  {
    if |data| == 0 then NEUTRAL_TREMOR_INDEX
    else
      var normalized := Clamp(MeanOf(data, Magnitude) * LIVE_GAIN, 0.0, 100.0);
      assert 0.0 <= normalized <= 100.0;
      Round(normalized)
  }

  /** The live index is not the analysis engine's index: a buffer of identical readings
      (a device at rest, magnitude 9.8 from gravity) has no variation at all, so
      calculateTremorIndex gives 0 (Bajo), while the live index is 98 and a session
      stopped then is stored as Alto. */
  lemma RestingDeviceLiveIndex(data: seq<Reading>)
    requires data != [] && Steady(data, Magnitude, 9.8)
    ensures LiveTremorIndex(data) == 98
    ensures ClassifyTremorSeverity(LiveTremorIndex(data)) == Alto
    ensures CalculateTremorIndex(data) == 0
    ensures ClassifyTremorSeverity(CalculateTremorIndex(data)) == Bajo
  {
    MeanOfSteady(data, Magnitude, 9.8);
    TremorIndexOfSteadySignal(data, 9.8);
    assert Round(98.0) == 98;
  }

  // ---------------------------------------------------------------------------------
  // Session ids

  function DigitChar(d: nat): char
    requires d < 10
  {
    "0123456789"[d]
  }

  /** The decimal notation of a non-negative integer, as a template literal prints it. */
  function DecimalString(n: nat): (s: string)
    ensures |s| >= 1
    decreases n
  {
    if n < 10 then [DigitChar(n)] else DecimalString(n / 10) + [DigitChar(n % 10)]
  }

  /** Different numbers print differently. */
  lemma {:induction false} DecimalStringInjective(a: nat, b: nat)
    requires DecimalString(a) == DecimalString(b)
    ensures a == b
    decreases a
  {
    if a < 10 && b < 10 {
      assert DecimalString(a)[0] == DigitChar(a);
      DigitCharInjective(a, b);
    } else if a >= 10 && b >= 10 {
      LastDigit(a);
      LastDigit(b);
      DecimalStringInjective(a / 10, b / 10);
      DigitCharInjective(a % 10, b % 10);
      SameDigitsSameNumber(a, b);
    }
  }

  /** Printing a number of two or more digits prints the number before its last digit,
      then that digit. */
  lemma LastDigit(n: nat)
    requires n >= 10
    ensures var s := DecimalString(n);
      |s| >= 2 && s[..|s| - 1] == DecimalString(n / 10) && s[|s| - 1] == DigitChar(n % 10)
  {
  }

  lemma DigitCharInjective(d: nat, e: nat)
    requires d < 10 && e < 10 && DigitChar(d) == DigitChar(e)
    ensures d == e
  {
  }

  /** A number is determined by its last decimal digit and the number before it. */
  lemma SameDigitsSameNumber(a: nat, b: nat)
    requires a / 10 == b / 10 && a % 10 == b % 10
    ensures a == b
  {
    assert a == 10 * (a / 10) + a % 10;
    assert b == 10 * (b / 10) + b % 10;
  }

  /** `session_${Date.now()}`. */
  function SessionIdAt(clock: nat): (id: string)
    ensures |id| > |"session_"| && id[..8] == "session_"
  {
    "session_" + DecimalString(clock)
  }

  /** Ids taken at different milliseconds differ. */
  lemma SessionIdsAreUnique(a: nat, b: nat)
    requires a != b
    ensures SessionIdAt(a) != SessionIdAt(b)
  {
    if SessionIdAt(a) == SessionIdAt(b) {
      assert SessionIdAt(a)[8..] == DecimalString(a);
      assert SessionIdAt(b)[8..] == DecimalString(b);
      DecimalStringInjective(a, b);
    }
  }

  // ---------------------------------------------------------------------------------
  // The session record

  /** getTremorStatus inside stopSession. */
  function TremorStatus(tremorIndex: int): (status: string)
    ensures status == ClassifyTremorSeverity(tremorIndex).Label()
  {
    if tremorIndex > 66 then "Alto"
    else if tremorIndex > 33 then "Moderado"
    else "Bajo"
  }

  /** The TremorSession object stopSession assembles; duration is
      Math.floor((endTime - startTime) / 1000) in whole seconds. */
  function SessionRecord(id: string, startTime: int, endTime: int, data: seq<Reading>,
                         tremorIndex: int, notes: Option<string>): (s: Session)
    ensures s.id == id && s.startTime == startTime && s.endTime == endTime
    ensures s.duration * 1000 <= endTime - startTime < (s.duration + 1) * 1000
    ensures s.readings == data && s.tremorIndex == tremorIndex && s.notes == notes
    ensures s.heartRate.None?
    ensures s.tremorStatus == ClassifyTremorSeverity(tremorIndex).Label()
  {
    Session(id, startTime, endTime, (endTime - startTime) / 1000, data, tremorIndex,
            TremorStatus(tremorIndex), None, notes)
  }

  // ---------------------------------------------------------------------------------
  // The pause snapshot

  function SamplesOf(data: seq<Reading>): (items: seq<SlotItem>)
    ensures |items| == |data|
    ensures forall i :: 0 <= i < |data| ==> items[i] == Sample(data[i])
  {
    seq(|data|, i requires 0 <= i < |data| => Sample(data[i]))
  }

  /** The readings of a slot list; resume only ever reads lists that the pause flow wrote,
      which hold readings only (see SyncSlotIsNotRestorable). */
  function ReadingsOf(items: seq<SlotItem>): seq<Reading>
  {
    if items == [] then []
    else match items[0]
      case Sample(r) => [r] + ReadingsOf(items[1..])
      case PendingId(_) => ReadingsOf(items[1..])
  }

  /** What pauseSession writes: `{ id, startTime, readings }`. */
  function Snapshot(id: string, startTime: int, data: seq<Reading>): CurrentSession
  {
    CurrentSession(Some(id), Some(startTime), Some(SamplesOf(data)))
  }

  /** The test in resumeSession: `current && current.id && current.startTime`. */
  predicate Restorable(current: Option<CurrentSession>)
  {
    current.Some? && TruthyString(current.value.id) && TruthyNumber(current.value.startTime)
  }

  /** The buffer resumeSession restores: `current.readings || []`. */
  function RestoredData(current: CurrentSession): seq<Reading>
  {
    if current.readings.Some? then ReadingsOf(current.readings.value) else []
  }

  /** Reading the readings back out of a snapshot gives the buffer that was saved. */
  lemma {:induction false} ReadingsOfSamples(data: seq<Reading>)
    ensures ReadingsOf(SamplesOf(data)) == data
  {
    if data != [] {
      assert SamplesOf(data)[1..] == SamplesOf(data[1..]);
      ReadingsOfSamples(data[1..]);
      assert [data[0]] + data[1..] == data;
    }
  }

  /** A snapshot can be resumed exactly when its id is non-empty and its start time is not
      0, and resuming it restores the id, the start time and the whole buffer. */
  lemma SnapshotRoundTrip(id: string, startTime: int, data: seq<Reading>)
    ensures Restorable(Some(Snapshot(id, startTime, data))) <==> id != "" && startTime != 0
    ensures RestoredData(Snapshot(id, startTime, data)) == data
  {
    ReadingsOfSamples(data);
  }

  /** The sync bookkeeping writes the same slot without a start time, so once it has run
      a paused session can no longer be resumed. */
  lemma SyncSlotIsNotRestorable(pending: seq<SlotItem>)
    ensures !Restorable(Some(CurrentSession(Some(SyncService.PENDING_KEY), None, Some(pending))))
  {
  }

  /** `[...prev, reading].slice(-1000)` applied reading after reading keeps the latest
      1000 readings of the whole stream, in order. */
  lemma BufferHoldsLatestReadings(stream: seq<Reading>)
    ensures AppendAllBounded([], stream, SESSION_BUFFER_CAP) == SliceFromEnd(stream, SESSION_BUFFER_CAP)
    ensures |AppendAllBounded([], stream, SESSION_BUFFER_CAP)| == MinInt(|stream|, SESSION_BUFFER_CAP)
  {
    var empty: seq<Reading> := [];
    AppendAllBoundedIsWindow(empty, stream, SESSION_BUFFER_CAP);
    assert SliceFromEnd(empty, SESSION_BUFFER_CAP) == empty;
    assert empty + stream == stream;
  }

  // ---------------------------------------------------------------------------------
  // The hook

  class TremorSession {
    var isActive: bool
    var sessionData: seq<Reading>
    var tremorIndex: int
    var sessionId: Option<string>
    /** startTimeRef.current. */
    var startTime: int
    /** StorageService, shared with the rest of the app. */
    const store: SessionStore

    /** The live index belongs to the current buffer. */
    ghost predicate Valid()
      reads this
    {
      tremorIndex == LiveTremorIndex(sessionData)
    }

    /** The initial state of the hook. */
    constructor(store: SessionStore)
      ensures this.store == store
      ensures !isActive && sessionData == [] && sessionId.None? && startTime == 0
      ensures tremorIndex == NEUTRAL_TREMOR_INDEX
      ensures Valid()
    {
      isActive := false;
      sessionData := [];
      tremorIndex := NEUTRAL_TREMOR_INDEX;
      sessionId := None;
      startTime := 0;
      this.store := store;
    }

    /** startSession: a fresh id from the clock, an empty buffer, active. */
    method StartSession(idClock: nat, startClock: int)
      modifies this
      requires Valid()
      ensures Valid()
      ensures sessionId == Some(SessionIdAt(idClock)) && TruthyString(sessionId)
      ensures isActive && sessionData == [] && startTime == startClock
      ensures tremorIndex == NEUTRAL_TREMOR_INDEX
    {
      sessionId := Some(SessionIdAt(idClock));
      isActive := true;
      sessionData := [];
      startTime := startClock;
      tremorIndex := LiveTremorIndex(sessionData);
    }

    /** addReading: append a timestamped reading, keep the latest 1000, recompute the live
        index. It does not look at isActive. */
    method AddReading(x: real, y: real, z: real, now: int, sqrt: real -> real)
      modifies this
      requires Valid() && IsSqrt(sqrt)
      ensures Valid()
      ensures sessionData == AppendBounded(old(sessionData), ProcessAccelerometerData(Packet(now, x, y, z), sqrt), SESSION_BUFFER_CAP)
      ensures 0 < |sessionData| <= SESSION_BUFFER_CAP
      ensures var last := sessionData[|sessionData| - 1];
        last.timestamp == now && last.x == x && last.y == y && last.z == z
      ensures isActive == old(isActive) && sessionId == old(sessionId) && startTime == old(startTime)
    {
      var reading := ProcessAccelerometerData(Packet(now, x, y, z), sqrt);
      var buffer := AppendBounded(sessionData, reading, SESSION_BUFFER_CAP);
      sessionData := buffer;
      tremorIndex := LiveTremorIndex(buffer);
    }

    /** stopSession: nothing without a truthy id and an active session; otherwise build
        the record from the current state, save it, and only if the save succeeds reset
        the hook and return the record. */
    method StopSession(now: int, notes: Option<string>, writeFails: bool) returns (saved: Option<Session>)
      modifies this, store
      requires Valid()
      ensures Valid()
      ensures saved.Some? <==> TruthyString(old(sessionId)) && old(isActive) && !writeFails
      ensures saved.Some? ==>
        && saved.value == SessionRecord(old(sessionId).value, old(startTime), now, old(sessionData), old(tremorIndex), notes)
        && saved.value.tremorStatus == ClassifyTremorSeverity(saved.value.tremorIndex).Label()
        && store.sessionsEntry == Stored(old(store.Sessions()) + [saved.value])
        && !isActive && sessionData == [] && sessionId.None? && tremorIndex == NEUTRAL_TREMOR_INDEX
      ensures saved.None? ==>
        && store.sessionsEntry == old(store.sessionsEntry)
        && isActive == old(isActive) && sessionData == old(sessionData) && sessionId == old(sessionId)
        && tremorIndex == old(tremorIndex)
      ensures startTime == old(startTime) && store.currentEntry == old(store.currentEntry)
    {
      if !TruthyString(sessionId) || !isActive {
        return None;
      }
      var endTime := now;
      var session := SessionRecord(sessionId.value, startTime, endTime, sessionData, tremorIndex, notes);
      var outcome := store.SaveSession(session, writeFails);
      if outcome == Rejected {
        return None;
      }
      isActive := false;
      sessionData := [];
      sessionId := None;
      tremorIndex := LiveTremorIndex(sessionData);
      saved := Some(session);
    }

    /** pauseSession: with a truthy id, write the snapshot over the slot; the session goes
        inactive only if the write succeeds (a rejection propagates). */
    method PauseSession(writeFails: bool) returns (outcome: Outcome)
      modifies this, store
      requires Valid()
      ensures Valid()
      ensures outcome == Rejected <==> TruthyString(old(sessionId)) && writeFails
      ensures TruthyString(old(sessionId)) && !writeFails ==>
        store.currentEntry == Stored(Snapshot(old(sessionId).value, old(startTime), old(sessionData)))
        && !isActive
      ensures !(TruthyString(old(sessionId)) && !writeFails) ==>
        store.currentEntry == old(store.currentEntry) && isActive == old(isActive)
      ensures sessionData == old(sessionData) && sessionId == old(sessionId) && startTime == old(startTime)
      ensures tremorIndex == old(tremorIndex) && store.sessionsEntry == old(store.sessionsEntry)
    {
      if !TruthyString(sessionId) {
        return Resolved;
      }
      outcome := store.SaveCurrentSession(Snapshot(sessionId.value, startTime, sessionData), writeFails);
      if outcome == Resolved {
        isActive := false;
      }
    }

    /** resumeSession: reads the slot (a corrupt blob rejects); a snapshot with a truthy
        id and start time is restored and the session becomes active, anything else leaves
        the hook as it was. */
    method ResumeSession() returns (outcome: Outcome)
      modifies this
      requires Valid()
      ensures Valid()
      ensures outcome == Rejected <==> store.currentEntry.Unreadable?
      ensures var slot := store.currentEntry;
        if slot.Stored? && Restorable(Some(slot.value)) then
          && sessionId == slot.value.id && startTime == slot.value.startTime.value
          && sessionData == RestoredData(slot.value) && isActive
        else
          && sessionId == old(sessionId) && startTime == old(startTime)
          && sessionData == old(sessionData) && isActive == old(isActive)
    {
      var current := store.GetCurrentSession();
      if current.Failure? {
        return Rejected;
      }
      outcome := Resolved;
      if Restorable(current.value) {
        var snapshot := current.value.value;
        sessionId := snapshot.id;
        startTime := snapshot.startTime.value;
        sessionData := RestoredData(snapshot);
        isActive := true;
        tremorIndex := LiveTremorIndex(sessionData);
      }
    }
  }

  /** Pausing and then resuming brings back the same id, start time and buffer, provided
      the session was started by StartSession (truthy id) at a non-zero time. */
  method PauseThenResume(hook: TremorSession)
    modifies hook, hook.store
    requires hook.Valid() && TruthyString(hook.sessionId) && hook.startTime != 0
    ensures hook.Valid()
    ensures hook.sessionId == old(hook.sessionId) && hook.startTime == old(hook.startTime)
    ensures hook.sessionData == old(hook.sessionData) && hook.isActive
  {
    var paused := hook.PauseSession(false);
    SnapshotRoundTrip(hook.sessionId.value, hook.startTime, hook.sessionData);
    var resumed := hook.ResumeSession();
  }

  /** Marking sessions for sync between a pause and a resume overwrites the snapshot, and
      the paused session can no longer be resumed: the hook stays inactive. */
  method PauseSyncResume(hook: TremorSession, ids: seq<string>)
    modifies hook, hook.store
    requires hook.Valid() && TruthyString(hook.sessionId)
    ensures hook.Valid()
    ensures !hook.isActive
    ensures hook.sessionData == old(hook.sessionData)
    ensures hook.store.currentEntry.Stored? && !Restorable(Some(hook.store.currentEntry.value))
  {
    var paused := hook.PauseSession(false);
    SyncService.MarkSessionsForSync(hook.store, ids, false);
    var resumed := hook.ResumeSession();
  }
}
