/** StorageService (src/services/storageService.ts): the collection of completed sessions
    and the single current-session slot, both kept in AsyncStorage. The two storage keys
    are the fields of a SessionStore object; JSON encoding is the identity, and a blob that
    cannot be read or parsed is the `Unreadable` entry. Every collection write is a
    read-modify-write of the whole collection. */
module StorageService {
  import opened Types
  import opened Seqs

  /** What one AsyncStorage key holds, as seen through JSON.parse. */
  datatype Entry<T> = Missing | Unreadable | Stored(value: T)

  /** A JSON text of a session array, as exportToJSON writes and importFromJSON reads;
      a text that does not parse is `Malformed`. */
  datatype JsonText = Encoded(sessions: seq<Session>) | Malformed

  // ---------------------------------------------------------------------------------
  // The predicates behind filter and find

  /** The filter callback of getFilteredSessions: each bound is applied only when it is
      truthy, so an undefined or 0 bound is ignored. */
  predicate MatchesFilters(filters: HistoryFilters, s: Session) {
    && !(TruthyNumber(filters.startDate) && s.startTime < filters.startDate.value)
    && !(TruthyNumber(filters.endDate) && s.endTime > filters.endDate.value)
    && !(TruthyNumber(filters.minTremorIndex) && s.tremorIndex < filters.minTremorIndex.value)
    && !(TruthyNumber(filters.maxTremorIndex) && s.tremorIndex > filters.maxTremorIndex.value)
    && !(filters.status.Some? && s.tremorStatus != filters.status.value.Label())
  }

  function MatchingFilters(filters: HistoryFilters): Session -> bool {
    s => MatchesFilters(filters, s)
  }

  /** The filter callback of deleteSession. */
  function WithoutId(id: string): Session -> bool {
    (s: Session) => s.id != id
  }

  /** `sessions.find(s => s.id === id) || null`. */
  function FindById(sessions: seq<Session>, id: string): (found: Option<Session>)
    ensures found.Some? ==> found.value in sessions && found.value.id == id
    ensures found.None? <==> forall k :: 0 <= k < |sessions| ==> sessions[k].id != id
    ensures found.Some? ==>
      (exists k :: 0 <= k < |sessions| && sessions[k] == found.value && (forall j :: 0 <= j < k ==> sessions[j].id != id))
  {
    if sessions == [] then None
    else if sessions[0].id == id then Some(sessions[0])
    else FindById(sessions[1..], id)
  }

  /** What getFilteredSessions returns is an order-preserving subsequence of the stored
      sessions holding exactly those that satisfy every truthy bound. */
  lemma FilteredSessionsSpec(sessions: seq<Session>, filters: HistoryFilters)
    ensures var result := Keep(sessions, MatchingFilters(filters));
      && IsSubsequence(result, sessions)
      && (forall s :: s in result <==> s in sessions && MatchesFilters(filters, s))
      && (forall s :: s in result && TruthyNumber(filters.startDate) ==> s.startTime >= filters.startDate.value)
      && (forall s :: s in result && TruthyNumber(filters.endDate) ==> s.endTime <= filters.endDate.value)
      && (forall s :: s in result && TruthyNumber(filters.minTremorIndex) ==>
            s.tremorIndex >= filters.minTremorIndex.value)
      && (forall s :: s in result && TruthyNumber(filters.maxTremorIndex) ==>
            s.tremorIndex <= filters.maxTremorIndex.value)
      && (forall s :: s in result && filters.status.Some? ==> s.tremorStatus == filters.status.value.Label())
  {
    KeepIsSubsequence(sessions, MatchingFilters(filters));
  }

  /** A filter without any truthy bound keeps every session. */
  lemma {:induction false} EmptyFilterKeepsAll(sessions: seq<Session>, filters: HistoryFilters)
    requires !TruthyNumber(filters.startDate) && !TruthyNumber(filters.endDate)
    requires !TruthyNumber(filters.minTremorIndex) && !TruthyNumber(filters.maxTremorIndex)
    requires filters.status.None?
    ensures Keep(sessions, MatchingFilters(filters)) == sessions
  {
    KeepAll(sessions, MatchingFilters(filters));
  }

  /** The filters with every bound that is 0 dropped. */
  function WithoutZeroBounds(filters: HistoryFilters): HistoryFilters
  {
    HistoryFilters(
      if filters.startDate == Some(0) then None else filters.startDate,
      if filters.endDate == Some(0) then None else filters.endDate,
      if filters.minTremorIndex == Some(0) then None else filters.minTremorIndex,
      if filters.maxTremorIndex == Some(0) then None else filters.maxTremorIndex,
      filters.status)
  }

  /** A bound of 0 is ignored like an undefined one: a maximum tremor index of 0 does not
      restrict the result at all. */
  lemma ZeroBoundsAreIgnored(sessions: seq<Session>, filters: HistoryFilters)
    ensures Keep(sessions, MatchingFilters(filters)) == Keep(sessions, MatchingFilters(WithoutZeroBounds(filters)))
    ensures filters.maxTremorIndex == Some(0) ==>
      forall s :: s in sessions && MatchesFilters(filters.(maxTremorIndex := None), s) ==>
        s in Keep(sessions, MatchingFilters(filters))
  {
    KeepSamePredicate(sessions, MatchingFilters(filters), MatchingFilters(WithoutZeroBounds(filters)));
  }

  /** Deleting keeps, in order, exactly the sessions with another id; deleting twice is
      deleting once. */
  lemma DeleteSpec(sessions: seq<Session>, id: string)
    ensures var remaining := Keep(sessions, WithoutId(id));
      && IsSubsequence(remaining, sessions)
      && (forall s :: s in remaining <==> s in sessions && s.id != id)
      && Keep(remaining, WithoutId(id)) == remaining
  {
    KeepIsSubsequence(sessions, WithoutId(id));
    KeepIdempotent(sessions, WithoutId(id));
  }

  // ---------------------------------------------------------------------------------
  // The store

  class SessionStore {
    /** The '@parkinson_sessions' key. */
    var sessionsEntry: Entry<seq<Session>>
    /** The '@current_session' key. */
    var currentEntry: Entry<CurrentSession>

    /** An empty AsyncStorage. */
    constructor()
      ensures sessionsEntry == Missing && currentEntry == Missing
    {
      sessionsEntry := Missing;
      currentEntry := Missing;
    }

    /** The collection as getAllSessions reads it: empty when nothing is stored or the
        blob cannot be read. */
    function Sessions(): seq<Session>
      reads this
    {
      if sessionsEntry.Stored? then sessionsEntry.value else []
    }

    /** saveSession: read the collection, append, write it back. A rejected write is
        rethrown and leaves the stored collection as it was. */
    method SaveSession(session: Session, writeFails: bool) returns (outcome: Outcome)
      modifies this
      ensures outcome == (if writeFails then Rejected else Resolved)
      ensures !writeFails ==> sessionsEntry == Stored(old(Sessions()) + [session])
      ensures writeFails ==> sessionsEntry == old(sessionsEntry)
      ensures currentEntry == old(currentEntry)
    {
      var sessions := GetAllSessions();
      sessions := sessions + [session];
      if writeFails {
        return Rejected;
      }
      sessionsEntry := Stored(sessions);
      outcome := Resolved;
    }

    /** getAllSessions: soft-fails to an empty collection. */
    method GetAllSessions() returns (sessions: seq<Session>)
      ensures sessions == Sessions()
      ensures !sessionsEntry.Stored? ==> sessions == []
    {
      match sessionsEntry
      case Stored(value) => sessions := value;
      case Missing => sessions := [];
      case Unreadable => sessions := [];
    }

    /** getFilteredSessions. */
    method GetFilteredSessions(filters: HistoryFilters) returns (result: seq<Session>)
      ensures result == Keep(Sessions(), MatchingFilters(filters))
      ensures IsSubsequence(result, Sessions())
    {
      var sessions := GetAllSessions();
      result := Keep(sessions, MatchingFilters(filters));
      FilteredSessionsSpec(sessions, filters);
    }

    /** getSessionById. */
    method GetSessionById(id: string) returns (found: Option<Session>)
      ensures found == FindById(Sessions(), id)
    {
      var sessions := GetAllSessions();
      found := FindById(sessions, id);
    }

    /** deleteSession: writes back the collection without that id. */
    method DeleteSession(id: string)
      modifies this
      ensures sessionsEntry == Stored(Keep(old(Sessions()), WithoutId(id)))
      ensures currentEntry == old(currentEntry)
    {
      var sessions := GetAllSessions();
      var filtered := Keep(sessions, WithoutId(id));
      sessionsEntry := Stored(filtered);
    }

    /** clearAllSessions: removes the key. */
    method ClearAllSessions()
      modifies this
      ensures sessionsEntry == Missing && Sessions() == []
      ensures currentEntry == old(currentEntry)
    {
      sessionsEntry := Missing;
    }

    /** saveCurrentSession: overwrites the single slot. */
    method SaveCurrentSession(current: CurrentSession, writeFails: bool) returns (outcome: Outcome)
      modifies this
      ensures outcome == (if writeFails then Rejected else Resolved)
      ensures currentEntry == if writeFails then old(currentEntry) else Stored(current)
      ensures sessionsEntry == old(sessionsEntry)
    {
      if writeFails {
        return Rejected;
      }
      currentEntry := Stored(current);
      outcome := Resolved;
    }

    /** getCurrentSession: null when the slot is empty; JSON.parse throws on a corrupt
        blob and the error is not caught here. */
    method GetCurrentSession() returns (current: Result<Option<CurrentSession>>)
      ensures currentEntry.Unreadable? <==> current.Failure?
      ensures currentEntry.Missing? ==> current == Success(None)
      ensures currentEntry.Stored? ==> current == Success(Some(currentEntry.value))
    {
      match currentEntry
      case Missing => current := Success(None);
      case Unreadable => current := Failure;
      case Stored(value) => current := Success(Some(value));
    }

    /** clearCurrentSession. */
    method ClearCurrentSession()
      modifies this
      ensures currentEntry == Missing
      ensures sessionsEntry == old(sessionsEntry)
    {
      currentEntry := Missing;
    }

    /** exportToJSON. */
    method ExportToJSON() returns (json: JsonText)
      ensures json == Encoded(Sessions())
    {
      var sessions := GetAllSessions();
      json := Encoded(sessions);
    }

    /** importFromJSON: replaces the whole collection, no merge; a text that does not parse
        or a rejected write is rethrown and changes nothing. */
    method ImportFromJSON(json: JsonText, writeFails: bool) returns (outcome: Outcome)
      modifies this
      ensures outcome == Rejected <==> json.Malformed? || writeFails
      ensures outcome == Resolved ==> sessionsEntry == Stored(json.sessions)
      ensures outcome == Rejected ==> sessionsEntry == old(sessionsEntry)
      ensures currentEntry == old(currentEntry)
    {
      if json.Malformed? || writeFails {
        return Rejected;
      }
      sessionsEntry := Stored(json.sessions);
      outcome := Resolved;
    }
  }

  /** The slot returns what was last saved in it, and nothing once it is cleared. */
  method CurrentSlotRoundTrip(store: SessionStore, current: CurrentSession)
      returns (afterSave: Result<Option<CurrentSession>>, afterClear: Result<Option<CurrentSession>>)
    modifies store
    ensures afterSave == Success(Some(current))
    ensures afterClear == Success(None)
    ensures store.currentEntry == Missing
    ensures store.sessionsEntry == old(store.sessionsEntry)
  {
    var outcome := store.SaveCurrentSession(current, false);
    afterSave := store.GetCurrentSession();
    store.ClearCurrentSession();
    afterClear := store.GetCurrentSession();
  }

  /** Exporting and importing the result back leaves the collection as it was, and a
      session saved afterwards is found by its id. */
  method ExportImportRoundTrip(store: SessionStore, session: Session)
      returns (reimported: seq<Session>, found: Option<Session>)
    modifies store
    ensures reimported == old(store.Sessions())
    ensures store.Sessions() == old(store.Sessions()) + [session]
    ensures found.Some? && found.value.id == session.id
  {
    var json := store.ExportToJSON();
    var outcome := store.ImportFromJSON(json, false);
    reimported := store.GetAllSessions();
    var before := reimported;
    outcome := store.SaveSession(session, false);
    var all := store.GetAllSessions();
    assert all == before + [session];
    found := store.GetSessionById(session.id);
    assert all[|before|].id == session.id;
  }
}
