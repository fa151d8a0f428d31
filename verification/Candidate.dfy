/** Which remembered packet the recovery loop replays next, if any. */
module Candidate {
  import opened Options
  import opened Channel
  import opened Clock

  const USIZE_MAX := 0xFFFF_FFFF

  predicate SentLongAgo(s: State, id: nat, now: nat) {
    id in s.pending && s.pending[id].sentAt.Some? && Since(now, s.pending[id].sentAt.value) >= REPLAY_REQUEST
  }

  predicate Receiving(s: State, id: nat) {
    id in s.pending && s.pending[id].receiving
  }

  /** The overdue test by which the entries are sorted. */
  predicate OverdueForSort(s: State, now: nat, e: Entry) {
    e.retired || exists id | id in e.originals :: SentLongAgo(s, id, now) && !Receiving(s, id)
  }

  /** The overdue test by which they are then filtered. */
  predicate OverdueForFilter(s: State, now: nat, e: Entry) {
    e.retired || exists id | id in e.originals :: SentLongAgo(s, id, now)
  }

  predicate IsNewest(s: State, e: Entry) {
    |s.history| > 0 && s.history[|s.history| - 1].sequence == e.sequence
  }

  function AttemptLimit(s: State, e: Entry): nat {
    if e.originals != {} || e.retired || IsNewest(s, e) then REPLAY_MAX_ATTEMPTS else 0
  }

  /** The filters that do not depend on being overdue. */
  predicate Admissible(s: State, now: nat, e: Entry) {
    && Since(now, e.sentAt) <= REPLAY_MAX_AGE
    && e.attempts < AttemptLimit(s, e)
    && e.pending.None?
    && (e.lastAttempt.Some? ==> Since(now, e.lastAttempt.value) >= REPLAY_RETRY)
    && !exists id | id in e.originals :: Receiving(s, id)
  }

  /** Nothing of the channel's own is outstanding and nothing has moved for a while. */
  predicate Idle(s: State, now: nat) {
    && (forall id | id in s.pending :: s.pending[id].replay)
    && (s.lastProgress.Some? ==> Since(now, s.lastProgress.value) >= REPLAY_IDLE)
  }

  predicate Wanted(s: State, now: nat, e: Entry) {
    Admissible(s, now, e) && (OverdueForFilter(s, now, e) || (IsNewest(s, e) && Idle(s, now)))
  }

  function Replays(s: State): set<nat> {
    set id | id in s.pending && s.pending[id].replay
  }

  predicate MayReplay(s: State) {
    s.terminal.None? && s.replyBytes == 0 && !s.delivering && |Replays(s)| < MAX_CHANNEL_REPLAYS
  }

  function SortKey(s: State, now: nat, e: Entry): (bool, int) {
    var overdue := OverdueForSort(s, now, e);
    (!overdue, if overdue then e.sequence else USIZE_MAX - e.sequence)
  }

  predicate NotAfter(a: (bool, int), b: (bool, int)) {
    (!a.0 && b.0) || (a.0 == b.0 && a.1 <= b.1)
  }

  function Insert(s: State, now: nat, e: Entry, sorted: seq<Entry>): seq<Entry> {
    if |sorted| == 0 || !NotAfter(SortKey(s, now, sorted[0]), SortKey(s, now, e)) then [e] + sorted
    else [sorted[0]] + Insert(s, now, e, sorted[1..])
  }

  function SortEntries(s: State, now: nat, entries: seq<Entry>): seq<Entry> {
    if |entries| == 0 then []
    else Insert(s, now, entries[|entries| - 1], SortEntries(s, now, entries[..|entries| - 1]))
  }

  function FirstWanted(s: State, now: nat, entries: seq<Entry>): Option<Entry> {
    if |entries| == 0 then None
    else if Wanted(s, now, entries[0]) then Some(entries[0])
    else FirstWanted(s, now, entries[1..])
  }

  function Choose(s: State, now: nat): Option<Entry> {
    if MayReplay(s) then FirstWanted(s, now, SortEntries(s, now, s.history)) else None
  }

  // ---------------------------------------------------------------- correctness

  ghost predicate Sorted(s: State, now: nat, entries: seq<Entry>) {
    forall i, j | 0 <= i < j < |entries| :: NotAfter(SortKey(s, now, entries[i]), SortKey(s, now, entries[j]))
  }

  /** The entries that sort alike, in their order. */
  ghost function Alike(s: State, now: nat, key: (bool, int), entries: seq<Entry>): seq<Entry> {
    if |entries| == 0 then []
    else (if SortKey(s, now, entries[0]) == key then [entries[0]] else []) + Alike(s, now, key, entries[1..])
  }

  lemma {:induction false} AlikeAppend(s: State, now: nat, key: (bool, int), entries: seq<Entry>, e: Entry)
    ensures Alike(s, now, key, entries + [e])
         == Alike(s, now, key, entries) + if SortKey(s, now, e) == key then [e] else []
  {
    hide SortKey;
    if |entries| == 0 {
      assert entries + [e] == [e] && [e][1..] == [];
    } else {
      AlikeAppend(s, now, key, entries[1..], e);
      assert (entries + [e])[1..] == entries[1..] + [e];
    }
  }

  lemma {:induction false} NoneAlike(s: State, now: nat, key: (bool, int), entries: seq<Entry>)
    requires forall e | e in entries :: SortKey(s, now, e) != key
    ensures Alike(s, now, key, entries) == []
  {
    hide SortKey;
    if |entries| > 0 {
      NoneAlike(s, now, key, entries[1..]);
    }
  }

  lemma AlikeFirst(s: State, now: nat, key: (bool, int), e: Entry, rest: seq<Entry>)
    ensures Alike(s, now, key, [e] + rest) == (if SortKey(s, now, e) == key then [e] else []) + Alike(s, now, key, rest)
  {
    hide SortKey;
    assert ([e] + rest)[1..] == rest;
  }

  lemma {:induction false} InsertKeepsAll(s: State, now: nat, e: Entry, sorted: seq<Entry>)
    ensures multiset(Insert(s, now, e, sorted)) == multiset(sorted) + multiset{e}
  {
    hide SortKey, NotAfter;
    if |sorted| > 0 && NotAfter(SortKey(s, now, sorted[0]), SortKey(s, now, e)) {
      InsertKeepsAll(s, now, e, sorted[1..]);
      assert sorted == [sorted[0]] + sorted[1..];
    }
  }

  /** An entry goes in after all that sort like it. */
  lemma {:induction false} InsertIsStable(s: State, now: nat, e: Entry, sorted: seq<Entry>, key: (bool, int))
    requires Sorted(s, now, sorted)
    ensures Alike(s, now, key, Insert(s, now, e, sorted)) == Alike(s, now, key, sorted + [e])
  {
    AlikeAppend(s, now, key, sorted, e);
    if |sorted| > 0 && NotAfter(SortKey(s, now, sorted[0]), SortKey(s, now, e)) {
      hide SortKey, NotAfter;
      InsertIsStable(s, now, e, sorted[1..], key);
      AlikeAppend(s, now, key, sorted[1..], e);
      AlikeFirst(s, now, key, sorted[0], Insert(s, now, e, sorted[1..]));
      AlikeFirst(s, now, key, sorted[0], sorted[1..]);
      hide Alike;
      assert sorted == [sorted[0]] + sorted[1..];
    } else {
      hide SortKey, Alike;
      AlikeFirst(s, now, key, e, sorted);
      if SortKey(s, now, e) == key {
        forall x | x in sorted ensures SortKey(s, now, x) != key {
          var i :| 0 <= i < |sorted| && sorted[i] == x;
          assert i > 0 ==> NotAfter(SortKey(s, now, sorted[0]), SortKey(s, now, sorted[i]));
        }
        NoneAlike(s, now, key, sorted);
      }
    }
  }

  lemma {:induction false} InsertSorts(s: State, now: nat, e: Entry, sorted: seq<Entry>)
    requires Sorted(s, now, sorted)
    ensures Sorted(s, now, Insert(s, now, e, sorted))
    ensures forall x :: x in Insert(s, now, e, sorted) <==> x == e || x in sorted
  {
    if |sorted| > 0 && NotAfter(SortKey(s, now, sorted[0]), SortKey(s, now, e)) {
      InsertSorts(s, now, e, sorted[1..]);
      var rest := Insert(s, now, e, sorted[1..]);
      assert forall x | x in sorted :: x == sorted[0] || x in sorted[1..];
      assert forall x | x in rest :: NotAfter(SortKey(s, now, sorted[0]), SortKey(s, now, x));
    }
  }

  lemma {:induction false} SortSorts(s: State, now: nat, entries: seq<Entry>)
    ensures Sorted(s, now, SortEntries(s, now, entries))
    ensures multiset(SortEntries(s, now, entries)) == multiset(entries)
    ensures forall x :: x in SortEntries(s, now, entries) <==> x in entries
    ensures forall key :: Alike(s, now, key, SortEntries(s, now, entries)) == Alike(s, now, key, entries)
  {
    if |entries| > 0 {
      var front, last := entries[..|entries| - 1], entries[|entries| - 1];
      SortSorts(s, now, front);
      var sorted := SortEntries(s, now, front);
      InsertSorts(s, now, last, sorted);
      assert entries == front + [last];
      forall key ensures Alike(s, now, key, SortEntries(s, now, entries)) == Alike(s, now, key, entries) {
        InsertIsStable(s, now, last, sorted, key);
        AlikeAppend(s, now, key, sorted, last);
        AlikeAppend(s, now, key, front, last);
      }
      InsertKeepsAll(s, now, last, sorted);
    }
  }

  lemma {:induction false} FirstWantedIsFirst(s: State, now: nat, entries: seq<Entry>)
    requires Sorted(s, now, entries)
    ensures var r := FirstWanted(s, now, entries);
      match r
      case None => (forall e | e in entries :: !Wanted(s, now, e))
      case Some(c) => (
        && c in entries && Wanted(s, now, c)
        && forall e | e in entries && Wanted(s, now, e) :: NotAfter(SortKey(s, now, c), SortKey(s, now, e)))
  {
    if |entries| > 0 {
      assert entries == [entries[0]] + entries[1..];
      FirstWantedIsFirst(s, now, entries[1..]);
    }
  }

  /** The sort ignores a receiving original where the filter does not ask; on an entry that passes
      the receiving filter the two tests are the same. */
  lemma OverdueTestsAgree(s: State, now: nat, e: Entry)
    requires !exists id | id in e.originals :: Receiving(s, id)
    ensures OverdueForSort(s, now, e) == OverdueForFilter(s, now, e)
  {
    if OverdueForFilter(s, now, e) && !e.retired {
      var id :| id in e.originals && SentLongAgo(s, id, now);
      assert !Receiving(s, id);
    }
  }

  /** Elsewhere they can differ: an overdue original whose response has begun. */
  lemma OverdueTestsDiffer()
    ensures exists s, now, e :: OverdueForSort(s, now, e) != OverdueForFilter(s, now, e)
  {
    var e := Entry(0, [], 1, 0, None, None, {1}, false, None);
    var s := Fresh(0).(pending := map[1 := Pending(false, Some(1), Some(0), true, None)]);
    assert 1 in e.originals && SentLongAgo(s, 1, 3_000);
    assert OverdueForFilter(s, 3_000, e);
    assert !OverdueForSort(s, 3_000, e);
  }

  /** What is chosen: the oldest overdue entry that may be replayed; failing that, the newest entry of
      an idle channel; and nothing only when the channel may not replay or no entry is wanted. */
  lemma ChooseIsPrioritised(s: State, now: nat)
    ensures match Choose(s, now)
      case None => MayReplay(s) ==> forall e | e in s.history :: !Wanted(s, now, e)
      case Some(c) =>
        && MayReplay(s) && c in s.history && Wanted(s, now, c)
        && (OverdueForFilter(s, now, c) ==>
              forall e | e in s.history && Wanted(s, now, e) && OverdueForFilter(s, now, e) :: c.sequence <= e.sequence)
        && (!OverdueForFilter(s, now, c) ==>
              IsNewest(s, c) && Idle(s, now)
              && forall e | e in s.history && Wanted(s, now, e) :: !OverdueForFilter(s, now, e))
  {
    if MayReplay(s) {
      SortSorts(s, now, s.history);
      FirstWantedIsFirst(s, now, SortEntries(s, now, s.history));
      forall e | e in s.history && Wanted(s, now, e)
        ensures OverdueForSort(s, now, e) == OverdueForFilter(s, now, e)
      {
        OverdueTestsAgree(s, now, e);
      }
    }
  }
}
