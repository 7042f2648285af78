/** SyncService (src/services/syncService.ts): the watch-to-phone bookkeeping. The list of
    session ids still to transfer is kept in the current-session slot of the store, as a
    Partial<TremorSession> whose id is '@pending_sessions' and whose `readings` array holds
    the ids. The slot is shared with the pause flow, so the list read back may also hold the
    readings of a paused session. */
module SyncService {
  import opened Types
  import opened Numeric
  import opened Seqs
  import opened StorageService

  /** PENDING_KEY, the id written into the slot. */
  const PENDING_KEY: string := "@pending_sessions"

  /** The readings cap of prepareDataForTransfer. */
  const TRANSFER_MAX_READINGS: nat := 500

  // ---------------------------------------------------------------------------------
  // The pending list

  /** What getPendingSessions returns for a given slot content: the slot's `readings`
      array, or [] when the slot is empty, unreadable or has no such array. */
  function PendingOf(entry: Entry<CurrentSession>): seq<SlotItem>
  {
    if entry.Stored? && entry.value.readings.Some? then entry.value.readings.value else []
  }

  /** The session ids in a pending list. */
  function IdsIn(items: seq<SlotItem>): set<string>
  {
    set x | x in items && x.PendingId? :: x.id
  }

  /** The elements of a list of ids. */
  function SetOf(ids: seq<string>): set<string>
  {
    set i | 0 <= i < |ids| :: ids[i]
  }

  /** No id occurs twice in a pending list. */
  predicate NoDuplicateIds(items: seq<SlotItem>)
  {
    forall i, j :: 0 <= i < j < |items| && items[i].PendingId? && items[j].PendingId? ==>
      items[i].id != items[j].id
  }

  function IsSample(x: SlotItem): bool { x.Sample? }

  /** The readings a pending list carries, in order. */
  function SamplesIn(items: seq<SlotItem>): seq<SlotItem>
  {
    Keep(items, IsSample)
  }

  /** `[...new Set(items)]` for a list parsed from JSON: the Set keeps the first occurrence
      of each id string and every reading object, since parsed objects are all distinct.
      `seen` holds the ids already kept. */
  function Dedup(items: seq<SlotItem>, seen: set<string>): (r: seq<SlotItem>)
    ensures |r| <= |items|
  {
    if items == [] then []
    else
      match items[0]
      case Sample(_) => [items[0]] + Dedup(items[1..], seen)
      case PendingId(id) =>
        if id in seen then Dedup(items[1..], seen)
        else [items[0]] + Dedup(items[1..], seen + {id})
  }

  /** What the Set keeps: no id twice, every id not seen before, and every reading in its
      order. */
  lemma {:induction false} DedupSpec(items: seq<SlotItem>, seen: set<string>)
    ensures NoDuplicateIds(Dedup(items, seen))
    ensures IdsIn(Dedup(items, seen)) == IdsIn(items) - seen
    ensures SamplesIn(Dedup(items, seen)) == SamplesIn(items)
    ensures IsSubsequence(Dedup(items, seen), items)
    ensures Dedup(items, seen) == FirstOccurrences(items, seen)
  {
    DedupIsSubsequence(items, seen);
    DedupKeepsFirstOccurrences(items, seen);
    DedupSets(items, seen);
  }

  lemma {:induction false} DedupSets(items: seq<SlotItem>, seen: set<string>)
    ensures NoDuplicateIds(Dedup(items, seen))
    ensures IdsIn(Dedup(items, seen)) == IdsIn(items) - seen
    ensures SamplesIn(Dedup(items, seen)) == SamplesIn(items)
  {
    if items != [] {
      var rest := items[1..];
      IdsInConcat([items[0]], rest);
      assert items == [items[0]] + rest;
      match items[0]
      case Sample(_) =>
        DedupSets(rest, seen);
        var tail := Dedup(rest, seen);
        var r := [items[0]] + tail;
        IdsInConcat([items[0]], tail);
        assert r[1..] == tail;
        assert forall j :: 0 < j < |r| ==> r[j] == tail[j - 1];
      case PendingId(id) =>
        if id in seen {
          DedupSets(rest, seen);
        } else {
          DedupSets(rest, seen + {id});
          var tail := Dedup(rest, seen + {id});
          var r := [items[0]] + tail;
          IdsInConcat([items[0]], tail);
          assert r[1..] == tail;
          assert forall j :: 0 < j < |r| ==> r[j] == tail[j - 1];
          assert forall j :: 0 < j < |r| && r[j].PendingId? ==> r[j].id in IdsIn(tail);
        }
    }
  }

  /** The items a scan from the front keeps, defined from the back: every reading, and an
      id only at the first index where it appears, provided it was not seen before. */
  function FirstOccurrences(items: seq<SlotItem>, seen: set<string>): seq<SlotItem>
  {
    if items == [] then []
    else
      var init, last := items[..|items| - 1], items[|items| - 1];
      var repeated := last.PendingId? && (last.id in seen || last.id in IdsIn(init));
      FirstOccurrences(init, seen) + (if repeated then [] else [last])
  }

  /** Dedup keeps the first occurrence of each unseen id and every reading, in order. */
  lemma {:induction false} DedupKeepsFirstOccurrences(items: seq<SlotItem>, seen: set<string>)
    ensures Dedup(items, seen) == FirstOccurrences(items, seen)
    decreases |items|
  {
    if items != [] {
      var init, last := items[..|items| - 1], items[|items| - 1];
      assert items == init + [last];
      DedupConcat(init, [last], seen);
      DedupKeepsFirstOccurrences(init, seen);
      DedupStep([last], seen + IdsIn(init));
      assert [last][1..] == [];
      assert Emitted(last, seen + IdsIn(init)) + [] == Emitted(last, seen + IdsIn(init));
    }
  }

  /** Dedup only drops items: what it keeps is a subsequence of its input. */
  lemma {:induction false} DedupIsSubsequence(items: seq<SlotItem>, seen: set<string>)
    ensures IsSubsequence(Dedup(items, seen), items)
    decreases |items|
  {
    if items != [] {
      var x, rest := items[0], items[1..];
      var tail := Dedup(rest, SeenAfter(x, seen));
      DedupStep(items, seen);
      DedupIsSubsequence(rest, SeenAfter(x, seen));
      if Emitted(x, seen) == [x] {
        var r := [x] + tail;
        assert r[0] == x && r[1..] == tail;
      } else {
        assert Dedup(items, seen) == [] + tail;
        assert [] + tail == tail;
      }
    }
  }

  lemma IdsInConcat(a: seq<SlotItem>, b: seq<SlotItem>)
    ensures IdsIn(a + b) == IdsIn(a) + IdsIn(b)
  {
  }

  /** The ids of a list, as slot items. */
  function PendingIds(ids: seq<string>): (items: seq<SlotItem>)
    ensures |items| == |ids|
    ensures forall i :: 0 <= i < |ids| ==> items[i] == PendingId(ids[i])
  {
    seq(|ids|, i requires 0 <= i < |ids| => PendingId(ids[i]))
  }

  /** A list made of ids carries no reading. */
  lemma {:induction false} NoSamplesInIds(ids: seq<string>)
    ensures SamplesIn(PendingIds(ids)) == []
  {
    if ids != [] {
      assert PendingIds(ids)[1..] == PendingIds(ids[1..]);
      NoSamplesInIds(ids[1..]);
    }
  }

  /** The list markSessionsForSync writes: `[...new Set([...pending, ...sessionIds])]`. */
  function UnionPending(pending: seq<SlotItem>, ids: seq<string>): seq<SlotItem>
  {
    Dedup(pending + PendingIds(ids), {})
  }

  /** Deduplicating a concatenation is deduplicating the first part, then the second part
      against every id of the first. */
  lemma {:induction false} DedupConcat(a: seq<SlotItem>, b: seq<SlotItem>, seen: set<string>)
    ensures Dedup(a + b, seen) == Dedup(a, seen) + Dedup(b, seen + IdsIn(a))
  {
    if a == [] {
      assert a + b == b;
      assert IdsIn(a) == {};
      assert seen + IdsIn(a) == seen;
    } else {
      var x, rest := a[0], a[1..];
      var seen' := SeenAfter(x, seen);
      assert (a + b)[0] == x && (a + b)[1..] == rest + b;
      DedupStep(a + b, seen);
      DedupStep(a, seen);
      DedupConcat(rest, b, seen');
      assert a == [x] + rest;
      IdsInConcat([x], rest);
      SeenAfterIds(x, seen);
      assert seen' + IdsIn(rest) == seen + IdsIn(a);
      ConcatAssociative(Emitted(x, seen), Dedup(rest, seen'), Dedup(b, seen' + IdsIn(rest)));
    }
  }

  /** What Dedup emits for one item: nothing for an id already seen, the item otherwise. */
  function Emitted(x: SlotItem, seen: set<string>): seq<SlotItem>
  {
    if x.PendingId? && x.id in seen then [] else [x]
  }

  /** The ids seen after one item. */
  function SeenAfter(x: SlotItem, seen: set<string>): set<string>
  {
    if x.PendingId? then seen + {x.id} else seen
  }

  lemma DedupStep(items: seq<SlotItem>, seen: set<string>)
    requires items != []
    ensures Dedup(items, seen) == Emitted(items[0], seen) + Dedup(items[1..], SeenAfter(items[0], seen))
  {
    match items[0]
    case Sample(_) =>
    case PendingId(id) =>
      if id in seen {
        assert Emitted(items[0], seen) == [];
        assert [] + Dedup(items[1..], seen + {id}) == Dedup(items[1..], seen + {id});
        assert seen + {id} == seen;
      }
  }

  lemma SeenAfterIds(x: SlotItem, seen: set<string>)
    ensures SeenAfter(x, seen) == seen + IdsIn([x])
  {
    assert x in [x];
  }

  /** The tail of a list without duplicate ids has none either, and does not hold the
      head's id. */
  lemma TailOfDistinct(items: seq<SlotItem>)
    requires items != [] && NoDuplicateIds(items)
    ensures NoDuplicateIds(items[1..])
    ensures IdsIn(items[1..]) <= IdsIn(items)
    ensures items[0].PendingId? ==> items[0].id in IdsIn(items) && items[0].id !in IdsIn(items[1..])
  {
    var rest := items[1..];
    forall i, j | 0 <= i < j < |rest| && rest[i].PendingId? && rest[j].PendingId?
      ensures rest[i].id != rest[j].id
    {
      assert rest[i] == items[i + 1] && rest[j] == items[j + 1];
    }
    assert items == [items[0]] + rest;
    IdsInConcat([items[0]], rest);
    if items[0].PendingId? {
      forall x | x in IdsIn(rest)
        ensures x != items[0].id
      {
        var y :| y in rest && y.PendingId? && y.id == x;
        var j :| 0 <= j < |rest| && rest[j] == y;
        assert items[j + 1] == y;
      }
    }
  }

  /** A list without duplicate ids and without already-seen ids is kept as it is. */
  lemma {:induction false} DedupOfDistinct(items: seq<SlotItem>, seen: set<string>)
    requires NoDuplicateIds(items)
    requires IdsIn(items) !! seen
    ensures Dedup(items, seen) == items
  {
    if items != [] {
      var rest := items[1..];
      TailOfDistinct(items);
      assert items == [items[0]] + rest;
      match items[0]
      case Sample(_) =>
        DedupOfDistinct(rest, seen);
      case PendingId(id) =>
        DedupOfDistinct(rest, seen + {id});
    }
  }

  /** A list of ids that are all seen already contributes nothing. */
  lemma {:induction false} DedupOfSeenIds(ids: seq<string>, seen: set<string>)
    requires forall i :: 0 <= i < |ids| ==> ids[i] in seen
    ensures Dedup(PendingIds(ids), seen) == []
  {
    if ids != [] {
      assert PendingIds(ids)[1..] == PendingIds(ids[1..]);
      DedupOfSeenIds(ids[1..], seen);
    }
  }

  /** markSessionsForSync's list: no id twice, the ids of both lists, the readings of the
      old list untouched, and, when the old list had no duplicates, the old list first and
      unchanged. */
  lemma UnionPendingSpec(pending: seq<SlotItem>, ids: seq<string>)
    ensures var updated := UnionPending(pending, ids);
      && NoDuplicateIds(updated)
      && IdsIn(updated) == IdsIn(pending) + SetOf(ids)
      && SamplesIn(updated) == SamplesIn(pending)
    ensures NoDuplicateIds(pending) ==>
      var updated := UnionPending(pending, ids);
      |pending| <= |updated| && updated[..|pending|] == pending
    ensures NoDuplicateIds(pending) ==>
      UnionPending(pending, ids) == pending + FirstOccurrences(PendingIds(ids), IdsIn(pending))
  {
    UnionPendingContents(pending, ids);
    if NoDuplicateIds(pending) {
      UnionOfDistinct(pending, ids);
    }
  }

  lemma UnionPendingContents(pending: seq<SlotItem>, ids: seq<string>)
    ensures var updated := UnionPending(pending, ids);
      && NoDuplicateIds(updated)
      && IdsIn(updated) == IdsIn(pending) + SetOf(ids)
      && SamplesIn(updated) == SamplesIn(pending)
  {
    DedupSpec(pending + PendingIds(ids), {});
    assert IdsIn(pending + PendingIds(ids)) == IdsIn(pending) + IdsIn(PendingIds(ids));
    assert IdsIn(PendingIds(ids)) == SetOf(ids) by {
      forall x | x in SetOf(ids)
        ensures x in IdsIn(PendingIds(ids))
      {
        var i :| 0 <= i < |ids| && ids[i] == x;
        assert PendingIds(ids)[i] == PendingId(x);
      }
    }
    KeepConcat(pending, PendingIds(ids), IsSample);
    NoSamplesInIds(ids);
    assert pending + PendingIds(ids) == pending + PendingIds(ids) + [];
  }

  /** When the pending list has no repeated id, marking keeps it as it is and appends the
      new ids, each once, in the order they first appear. */
  lemma UnionOfDistinct(pending: seq<SlotItem>, ids: seq<string>)
    requires NoDuplicateIds(pending)
    ensures UnionPending(pending, ids) == pending + FirstOccurrences(PendingIds(ids), IdsIn(pending))
  {
    DedupConcat(pending, PendingIds(ids), {});
    DedupOfDistinct(pending, {});
    assert {} + IdsIn(pending) == IdsIn(pending);
    DedupKeepsFirstOccurrences(PendingIds(ids), IdsIn(pending));
  }

  /** Marking the same ids twice leaves the list as marking them once. */
  lemma MarkingTwiceIsMarkingOnce(pending: seq<SlotItem>, ids: seq<string>)
    ensures UnionPending(UnionPending(pending, ids), ids) == UnionPending(pending, ids)
  {
    var once := UnionPending(pending, ids);
    UnionPendingSpec(pending, ids);
    DedupSpec(pending + PendingIds(ids), {});
    DedupConcat(once, PendingIds(ids), {});
    DedupOfDistinct(once, {});
    assert forall i :: 0 <= i < |ids| ==> ids[i] in {} + IdsIn(once);
    DedupOfSeenIds(ids, {} + IdsIn(once));
    assert once + [] == once;
  }

  /** The filter callback of markAsSynced: ids among `synced` go, everything else stays
      (a reading object is never `includes`-equal to an id string). */
  function NotSyncedBy(synced: seq<string>): SlotItem -> bool
  {
    (x: SlotItem) => !(x.PendingId? && x.id in synced)
  }

  /** The list markAsSynced writes. */
  function Unsynced(pending: seq<SlotItem>, synced: seq<string>): seq<SlotItem>
  {
    Keep(pending, NotSyncedBy(synced))
  }

  /** markAsSynced removes exactly the synced ids and keeps the rest of the list in order,
      so after marking `marked` and syncing `synced` the ids left are the old ones plus
      `marked`, minus `synced`. */
  lemma UnsyncedSpec(pending: seq<SlotItem>, marked: seq<string>, synced: seq<string>)
    ensures IsSubsequence(Unsynced(pending, synced), pending)
    ensures IdsIn(Unsynced(pending, synced)) == IdsIn(pending) - SetOf(synced)
    ensures SamplesIn(Unsynced(pending, synced)) == SamplesIn(pending)
    ensures IdsIn(Unsynced(UnionPending(pending, marked), synced))
      == (IdsIn(pending) + SetOf(marked)) - SetOf(synced)
  {
    KeepIsSubsequence(pending, NotSyncedBy(synced));
    UnsyncedIds(pending, synced);
    UnsyncedSamples(pending, synced);
    UnionPendingSpec(pending, marked);
    UnsyncedIds(UnionPending(pending, marked), synced);
  }

  lemma UnsyncedIds(pending: seq<SlotItem>, synced: seq<string>)
    ensures IdsIn(Unsynced(pending, synced)) == IdsIn(pending) - SetOf(synced)
  {
    var kept := Unsynced(pending, synced);
    forall id | id in SetOf(synced) ensures id in synced {
      var i :| 0 <= i < |synced| && synced[i] == id;
    }
    forall id | id in synced ensures id in SetOf(synced) {
      var i :| 0 <= i < |synced| && synced[i] == id;
    }
  }

  lemma UnsyncedSamples(pending: seq<SlotItem>, synced: seq<string>)
    ensures SamplesIn(Unsynced(pending, synced)) == SamplesIn(pending)
  {
    KeepTwice(pending, NotSyncedBy(synced), IsSample, IsSample);
    KeepTwice(pending, IsSample, NotSyncedBy(synced), IsSample);
    KeepAll(Keep(pending, IsSample), NotSyncedBy(synced));
  }

  /** The filter callback of getSessionsToSync: `pendingIds.includes(session.id)`. */
  function IsPendingIn(pending: seq<SlotItem>): Session -> bool
  {
    (s: Session) => PendingId(s.id) in pending
  }

  /** getSessionsToSync returns the stored sessions whose id is in the pending list, in
      storage order. */
  lemma SessionsToSyncSpec(sessions: seq<Session>, pending: seq<SlotItem>)
    ensures var result := Keep(sessions, IsPendingIn(pending));
      && IsSubsequence(result, sessions)
      && forall s :: s in result <==> s in sessions && s.id in IdsIn(pending)
  {
    KeepIsSubsequence(sessions, IsPendingIn(pending));
    forall s | s in sessions
      ensures IsPendingIn(pending)(s) <==> s.id in IdsIn(pending)
    {
      if s.id in IdsIn(pending) {
        var x :| x in pending && x.PendingId? && x.id == s.id;
        assert x == PendingId(s.id);
      }
    }
  }

  // ---------------------------------------------------------------------------------
  // Down-sampling for transfer

  /** The index sampleReadings picks for the `k`-th sample: floor(k * n / maxCount). */
  function SampleIndex(k: nat, n: nat, maxCount: nat): nat
    requires maxCount > 0
  {
    k * n / maxCount
  }

  /** The `k`-th sample, for `k` below maxCount, lies inside the list. */
  lemma SampleIndexInRange(k: nat, n: nat, maxCount: nat)
    requires k < maxCount
    ensures n > 0 ==> SampleIndex(k, n, maxCount) < n
  {
    if n > 0 {
      assert k * n < maxCount * n;
      DivBelow(k * n, n, maxCount);
    }
  }

  /** a < m * n gives a / m < n. */
  lemma DivBelow(a: nat, n: nat, m: nat)
    requires m > 0 && a < m * n
    ensures a / m < n
  {
    var q, r := a / m, a % m;
    assert a == q * m + r;
  }

  /** Adding at least `m` to a numerator adds at least one to the quotient by `m`. */
  lemma DivStep(a: nat, n: nat, m: nat)
    requires m > 0 && n >= m
    ensures (a + n) / m > a / m
  {
    var q, r := a / m, a % m;
    var q', r' := (a + n) / m, (a + n) % m;
    assert a == q * m + r && a + n == q' * m + r';
    assert q' * m > q * m;
  }

  /** `readings.length <= maxCount ? readings : ` the samples taken at every `step =
      length / maxCount`, computed over exact rationals. */
  function Sampled<T>(s: seq<T>, maxCount: nat): (r: seq<T>)
    ensures |s| <= maxCount ==> r == s
    ensures |s| > maxCount ==> |r| == maxCount
  {
    if |s| <= maxCount then s
    else
      seq(maxCount, k requires 0 <= k < maxCount =>
        SampleIndexInRange(k, |s|, maxCount);
        s[SampleIndex(k, |s|, maxCount)])
  }

  /** A down-sampled list starts with the first reading, takes its samples in increasing
      position and never takes the same reading twice. */
  lemma SampledSpec<T>(s: seq<T>, maxCount: nat)
    requires |s| > maxCount > 0
    ensures Sampled(s, maxCount)[0] == s[0]
    ensures forall k :: 0 <= k < maxCount ==>
      SampleIndex(k, |s|, maxCount) < |s| && Sampled(s, maxCount)[k] == s[SampleIndex(k, |s|, maxCount)]
    ensures forall k, l :: 0 <= k < l < maxCount ==>
      SampleIndex(k, |s|, maxCount) < SampleIndex(l, |s|, maxCount)
  {
    var r := Sampled(s, maxCount);
    assert SampleIndex(0, |s|, maxCount) == 0 by {
      assert 0 * |s| == 0;
    }
    forall k | 0 <= k < maxCount
      ensures SampleIndex(k, |s|, maxCount) < |s| && r[k] == s[SampleIndex(k, |s|, maxCount)]
    {
      SampleIndexInRange(k, |s|, maxCount);
    }
    forall k, l | 0 <= k < l < maxCount
      ensures SampleIndex(k, |s|, maxCount) < SampleIndex(l, |s|, maxCount)
    {
      SampleIndexIncreasing(k, l, |s|, maxCount);
    }
  }

  lemma {:induction false} SampleIndexIncreasing(k: nat, l: nat, n: nat, maxCount: nat)
    requires k < l && n >= maxCount > 0
    ensures SampleIndex(k, n, maxCount) < SampleIndex(l, n, maxCount)
    decreases l - k
  {
    MultiplyOneMore(k, n);
    DivStep(k * n, n, maxCount);
    if k + 1 < l {
      SampleIndexIncreasing(k + 1, l, n, maxCount);
    }
  }

  /** The loop position after `k` steps of `n / m`, over exact rationals. */
  function Position(k: nat, n: nat, m: nat): real
    requires m > 0
  {
    k as real * (n as real / m as real)
  }

  lemma PositionStep(k: nat, n: nat, m: nat)
    requires m > 0
    ensures Position(k + 1, n, m) == Position(k, n, m) + n as real / m as real
  {
  }

  /** Over exact rationals, `Math.floor(k * (n / m))` is the integer quotient `k * n / m`. */
  lemma FloorOfStep(k: nat, n: nat, m: nat)
    requires m > 0
    ensures (k as real * (n as real / m as real)).Floor == k * n / m
  {
    var a := k * n;
    var q, r := a / m, a % m;
    assert a == q * m + r;
    assert k as real * (n as real / m as real) == a as real / m as real;
    assert a as real / m as real == q as real + r as real / m as real;
    assert 0.0 <= r as real / m as real < 1.0;
  }

  /** Over exact rationals, `k * (n / m) < n` holds exactly while `k < m`. */
  lemma StepBelowLength(k: nat, n: nat, m: nat)
    requires m > 0 && n > 0
    ensures k as real * (n as real / m as real) < n as real <==> k < m
  {
    var x := n as real / m as real;
    assert x > 0.0;
    assert m as real * x == n as real;
    if k < m {
      assert k as real * x < m as real * x;
    } else {
      assert k as real * x >= m as real * x;
    }
  }

  /** sampleReadings: walk the list with a fractional step of length / maxCount, take the
      reading at the floor of each position, keep the first maxCount. The step is added
      up over exact rationals here. */
  method SampleReadings<T>(readings: seq<T>, maxCount: nat) returns (sampled: seq<T>)
    ensures sampled == Sampled(readings, maxCount)
  {
    if |readings| <= maxCount {
      return readings;
    }
    if maxCount == 0 {
      // The step is Infinity: one sample is taken, then slice(0, 0) drops it.
      return [];
    }
    var n := |readings|;
    var step: real := n as real / maxCount as real;
    var i: real := 0.0;
    ghost var k: nat := 0;
    ghost var target := Sampled(readings, maxCount);
    sampled := [];
    while i < n as real
      invariant k <= maxCount
      invariant i == Position(k, n, maxCount) && step == n as real / maxCount as real
      invariant sampled == target[..k]
      decreases maxCount - k
    {
      SampleAtStep(readings, maxCount, k, i);
      sampled := sampled + [readings[i.Floor]];
      assert target[..k + 1] == target[..k] + [target[k]];
      PositionStep(k, n, maxCount);
      i := i + step;
      k := k + 1;
    }
    SampleAtStep(readings, maxCount, k, i);
    assert target[..maxCount] == target;
    sampled := sampled[..maxCount];
  }

  /** While the running position `k * step` is below the length, `k` is below maxCount and
      the reading at its floor is the `k`-th sample. */
  lemma SampleAtStep<T>(s: seq<T>, maxCount: nat, k: nat, pos: real)
    requires |s| > maxCount > 0
    requires pos == Position(k, |s|, maxCount)
    ensures pos < |s| as real <==> k < maxCount
    ensures pos < |s| as real ==> 0 <= pos.Floor < |s| && s[pos.Floor] == Sampled(s, maxCount)[k]
  {
    var n := |s|;
    StepBelowLength(k, n, maxCount);
    FloorOfStep(k, n, maxCount);
    if k < maxCount {
      assert pos.Floor == SampleIndex(k, n, maxCount);
      SampleIndexInRange(k, n, maxCount);
      assert Sampled(s, maxCount)[k] == s[SampleIndex(k, n, maxCount)];
    }
  }

  /** One session as prepareDataForTransfer sends it: more than 500 readings are
      down-sampled to 500, everything else is copied. */
  function Compressed(session: Session): (c: Session)
    ensures |c.readings| <= TRANSFER_MAX_READINGS || c.readings == session.readings
    ensures c.(readings := session.readings) == session
  {
    if |session.readings| > TRANSFER_MAX_READINGS
    then session.(readings := Sampled(session.readings, TRANSFER_MAX_READINGS))
    else session
  }

  /** Every session sent carries at most 500 readings, and the same fields otherwise. */
  lemma CompressedIsBounded(session: Session)
    ensures |Compressed(session).readings| <= TRANSFER_MAX_READINGS
    ensures Compressed(session).id == session.id
    ensures |session.readings| <= TRANSFER_MAX_READINGS ==> Compressed(session) == session
  {
  }

  function CompressAll(sessions: seq<Session>): (r: seq<Session>)
    ensures |r| == |sessions|
    ensures forall i :: 0 <= i < |sessions| ==> r[i] == Compressed(sessions[i])
  {
    seq(|sessions|, i requires 0 <= i < |sessions| => Compressed(sessions[i]))
  }

  // ---------------------------------------------------------------------------------
  // The operations on the store

  /** getPendingSessions: a read failure is swallowed into []. */
  method GetPendingSessions(store: SessionStore) returns (pending: seq<SlotItem>)
    ensures pending == PendingOf(store.currentEntry)
    ensures store.currentEntry.Unreadable? ==> pending == []
  {
    var data := store.GetCurrentSession();
    if data.Failure? {
      return [];
    }
    match data.value
    case None => pending := [];
    case Some(current) =>
      pending := if current.readings.Some? then current.readings.value else [];
  }

  /** markSessionsForSync: overwrites the slot with the merged list under PENDING_KEY; a
      failed write is logged and swallowed. */
  method MarkSessionsForSync(store: SessionStore, sessionIds: seq<string>, writeFails: bool)
    modifies store
    ensures store.currentEntry == if writeFails then old(store.currentEntry) else
      Stored(CurrentSession(Some(PENDING_KEY), None, Some(UnionPending(PendingOf(old(store.currentEntry)), sessionIds))))
    ensures store.sessionsEntry == old(store.sessionsEntry)
  {
    var pending := GetPendingSessions(store);
    var updated := UnionPending(pending, sessionIds);
    var outcome := store.SaveCurrentSession(CurrentSession(Some(PENDING_KEY), None, Some(updated)), writeFails);
  }

  /** getSessionsToSync. */
  method GetSessionsToSync(store: SessionStore) returns (sessions: seq<Session>)
    ensures sessions == Keep(store.Sessions(), IsPendingIn(PendingOf(store.currentEntry)))
    ensures forall s :: s in sessions <==> s in store.Sessions() && s.id in IdsIn(PendingOf(store.currentEntry))
  {
    var pendingIds := GetPendingSessions(store);
    var allSessions := store.GetAllSessions();
    sessions := Keep(allSessions, IsPendingIn(pendingIds));
    SessionsToSyncSpec(allSessions, pendingIds);
  }

  /** The callback that prepareDataForTransfer maps over the sessions: a session with more
      than 500 readings is sent with a sample of them, any other as it is. */
  method CompressForTransfer(session: Session) returns (compressed: Session)
    ensures compressed == Compressed(session)
    ensures |compressed.readings| <= TRANSFER_MAX_READINGS
  {
    compressed := session;
    if |session.readings| > TRANSFER_MAX_READINGS {
      var sampled := SampleReadings(session.readings, TRANSFER_MAX_READINGS);
      compressed := session.(readings := sampled);
    }
  }

  /** `sessions.map(...)` in prepareDataForTransfer. */
  method CompressSessions(sessions: seq<Session>) returns (transfer: seq<Session>)
    ensures transfer == CompressAll(sessions)
  {
    transfer := [];
    for j := 0 to |sessions|
      invariant |transfer| == j
      invariant forall i :: 0 <= i < j ==> transfer[i] == Compressed(sessions[i])
    {
      var compressed := CompressForTransfer(sessions[j]);
      transfer := transfer + [compressed];
    }
  }

  /** prepareDataForTransfer: the sessions to sync, each with its readings down-sampled to
      at most 500; the JSON text is the identity encoding of this list. */
  method PrepareDataForTransfer(store: SessionStore) returns (transfer: seq<Session>)
    ensures transfer == CompressAll(Keep(store.Sessions(), IsPendingIn(PendingOf(store.currentEntry))))
    ensures forall i :: 0 <= i < |transfer| ==> |transfer[i].readings| <= TRANSFER_MAX_READINGS
  {
    var sessions := GetSessionsToSync(store);
    transfer := CompressSessions(sessions);
    forall i | 0 <= i < |transfer|
      ensures |transfer[i].readings| <= TRANSFER_MAX_READINGS
    {
      CompressedIsBounded(sessions[i]);
    }
  }

  /** markAsSynced: writes back the list without the synced ids; a failed write is
      rethrown. */
  method MarkAsSynced(store: SessionStore, sessionIds: seq<string>, writeFails: bool) returns (outcome: Outcome)
    modifies store
    ensures outcome == (if writeFails then Rejected else Resolved)
    ensures store.currentEntry == if writeFails then old(store.currentEntry) else
      Stored(CurrentSession(Some(PENDING_KEY), None, Some(Unsynced(PendingOf(old(store.currentEntry)), sessionIds))))
    ensures store.sessionsEntry == old(store.sessionsEntry)
  {
    var pending := GetPendingSessions(store);
    var updated := Unsynced(pending, sessionIds);
    outcome := store.SaveCurrentSession(CurrentSession(Some(PENDING_KEY), None, Some(updated)), writeFails);
  }

  /** The stored sessions whose id is not among `ids`. */
  function NotAmong(ids: seq<string>): Session -> bool
  {
    (s: Session) => s.id !in ids
  }

  /** Deleting one more id from a collection already filtered by the earlier ids filters
      the original collection by all of them. */
  lemma DeleteOneMore(original: seq<Session>, ids: seq<string>, j: nat)
    requires j < |ids|
    ensures j == 0 ==> Keep(original, WithoutId(ids[0])) == Keep(original, NotAmong(ids[..1]))
    ensures j > 0 ==>
      Keep(Keep(original, NotAmong(ids[..j])), WithoutId(ids[j])) == Keep(original, NotAmong(ids[..j + 1]))
  {
    assert ids[..j + 1] == ids[..j] + [ids[j]];
    if j == 0 {
      KeepSamePredicate(original, WithoutId(ids[0]), NotAmong(ids[..1]));
    } else {
      KeepTwice(original, NotAmong(ids[..j]), WithoutId(ids[j]), NotAmong(ids[..j + 1]));
    }
  }

  /** cleanupSyncedData: deletes the given ids one at a time; with at least one id the
      collection ends up holding exactly the sessions with none of them. */
  method CleanupSyncedData(store: SessionStore, sessionIds: seq<string>)
    modifies store
    ensures sessionIds == [] ==> store.sessionsEntry == old(store.sessionsEntry)
    ensures sessionIds != [] ==> store.sessionsEntry == Stored(Keep(old(store.Sessions()), NotAmong(sessionIds)))
    ensures forall s :: s in store.Sessions() <==> s in old(store.Sessions()) && s.id !in sessionIds
    ensures IsSubsequence(store.Sessions(), old(store.Sessions()))
    ensures store.currentEntry == old(store.currentEntry)
  {
    ghost var original := store.Sessions();
    for j := 0 to |sessionIds|
      invariant j == 0 ==> store.sessionsEntry == old(store.sessionsEntry)
      invariant j > 0 ==> store.sessionsEntry == Stored(Keep(original, NotAmong(sessionIds[..j])))
      invariant store.currentEntry == old(store.currentEntry)
    {
      store.DeleteSession(sessionIds[j]);
      DeleteOneMore(original, sessionIds, j);
    }
    assert sessionIds[..|sessionIds|] == sessionIds;
    if sessionIds != [] {
      KeepIsSubsequence(original, NotAmong(sessionIds));
    } else {
      SubsequenceOfItself(original);
    }
  }
}
