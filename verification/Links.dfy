/** Every section of the channel keeps pending requests and history entries naming each other. */
module Links {
  import opened Bytes
  import opened Options
  import opened Budgets
  import opened Channel
  import opened Eviction

  lemma FreshLinked(now: nat)
    ensures Linked(Fresh(now))
  {
  }

  /** Entries rewritten in place: sequences, bodies and so the shape of the history stay. */
  lemma SameShape(before: State, after: State)
    requires Linked(before)
    requires |after.history| == |before.history| && after.replayKey == before.replayKey
    requires forall i | 0 <= i < |before.history| ::
      after.history[i].sequence == before.history[i].sequence && after.history[i].body == before.history[i].body
    ensures Increasing(after.history) && DistinctBodies(after.history)
    ensures Keyed(after.history, after.replayKey) && Fits(after.history)
  {
    BodyBytesSame(before.history, after.history);
  }

  lemma FinishLinked(s: State, request: nat)
    requires Linked(s)
    ensures Linked(Finish(s, request))
  {
    if request in s.pending {
      var after := Finish(s, request);
      SameShape(s, after);
      forall i: int, id: nat | 0 <= i < |s.history|
        ensures id in after.history[i].originals <==> IsOriginal(after, id, after.history[i].sequence)
        ensures after.history[i].pending == Some(id) <==> IsReplay(after, id, after.history[i].sequence)
      {
        var q := s.history[i].sequence;
        assert id in s.history[i].originals <==> IsOriginal(s, id, q);
        assert s.history[i].pending == Some(id) <==> IsReplay(s, id, q);
        assert request in s.history[i].originals <==> IsOriginal(s, request, q);
        assert s.history[i].pending == Some(request) <==> IsReplay(s, request, q);
      }
    }
  }

  lemma RetireLinked(s: State, request: nat)
    requires Linked(s)
    ensures Linked(Retire(s, request))
  {
    if request in s.pending {
      SameLinks(s, Retire(s, request));
    }
  }

  /** Nothing that names anything changed. */
  lemma SameNames(before: State, after: State)
    requires Mutual(before) && |after.history| == |before.history|
    requires after.pending.Keys == before.pending.Keys
    requires forall id | id in before.pending ::
      after.pending[id].replay == before.pending[id].replay && after.pending[id].entry == before.pending[id].entry
    requires forall i | 0 <= i < |before.history| ::
      && after.history[i].sequence == before.history[i].sequence
      && after.history[i].originals == before.history[i].originals
      && after.history[i].pending == before.history[i].pending
    ensures Mutual(after)
  {
    forall i: int, id: nat | 0 <= i < |after.history|
      ensures id in after.history[i].originals <==> IsOriginal(after, id, after.history[i].sequence)
      ensures after.history[i].pending == Some(id) <==> IsReplay(after, id, after.history[i].sequence)
    {
      assert id in before.history[i].originals <==> IsOriginal(before, id, before.history[i].sequence);
      assert before.history[i].pending == Some(id) <==> IsReplay(before, id, before.history[i].sequence);
    }
  }

  lemma SameLinks(before: State, after: State)
    requires Linked(before) && |after.history| == |before.history|
    requires after.replayKey == before.replayKey && after.nextRequest == before.nextRequest
    requires after.pending.Keys == before.pending.Keys
    requires forall id | id in before.pending ::
      after.pending[id].replay == before.pending[id].replay && after.pending[id].entry == before.pending[id].entry
    requires forall i | 0 <= i < |before.history| ::
      && after.history[i].sequence == before.history[i].sequence
      && after.history[i].body == before.history[i].body
      && after.history[i].originals == before.history[i].originals
      && after.history[i].pending == before.history[i].pending
    ensures Linked(after)
  {
    SameShape(before, after);
    SameNames(before, after);
  }

  lemma MarkSentLinked(s: State, request: nat, now: nat)
    requires Linked(s)
    ensures Linked(MarkSent(s, request, now))
  {
    SameLinks(s, MarkSent(s, request, now));
  }

  lemma MarkStartedLinked(s: State, request: nat, generation: nat)
    requires Linked(s)
    ensures Linked(MarkStarted(s, request, generation))
  {
    SameLinks(s, MarkStarted(s, request, generation));
  }

  lemma MarkReceivingLinked(s: State, request: nat, now: nat)
    requires Linked(s)
    ensures Linked(MarkReceiving(s, request, now))
  {
    SameLinks(s, MarkReceiving(s, request, now));
  }

  lemma FailLinked(s: State, terminal: Terminal)
    requires Linked(s)
    ensures Linked(Fail(s, terminal))
  {
  }

  lemma DeliverLinked(s: State, closed: bool, request: nat, prefix: seq<byte>, length: nat, now: nat)
    requires Linked(s)
    ensures var d := Deliver(s, closed, request, prefix, length, now); d.Dropped? || Linked(d.state)
  {
    var d := Deliver(s, closed, request, prefix, length, now);
    if !d.Dropped? {
      SameLinks(s, d.state);
    }
  }

  // ---------------------------------------------------------------- purge

  lemma EmbedsHead(rest: seq<Entry>, history: seq<Entry>, at: seq<nat>)
    requires |history| > 0 && Embeds(rest, history, at) && forall i | 0 <= i < |at| :: at[i] > 0
    ensures Embeds([history[0]] + rest, history, [0] + at)
  {
  }

  lemma ThinnedTail(rest: seq<Entry>, history: seq<Entry>)
    requires |history| > 0 && Thinned(rest, history[1..])
    ensures Thinned(rest, history) && Thinned([history[0]] + rest, history)
  {
    var at :| Embeds(rest, history[1..], at);
    var shifted := seq(|at|, i requires 0 <= i < |at| => at[i] + 1);
    assert Embeds(rest, history, shifted);
    EmbedsHead(rest, history, shifted);
  }

  lemma {:induction false} LivingThinned(history: seq<Entry>, now: nat)
    ensures Thinned(Living(history, now), history)
  {
    if |history| == 0 {
      ThinnedSelf(history);
    } else {
      LivingThinned(history[1..], now);
      ThinnedTail(Living(history[1..], now), history);
      assert [] + Living(history[1..], now) == Living(history[1..], now);
    }
  }

  /** The purge keeps exactly the entries that are still wanted. */
  lemma {:induction false} LivingExactly(history: seq<Entry>, now: nat)
    ensures forall e :: e in Living(history, now) <==> e in history && Lives(e, now)
    ensures BodyBytes(Living(history, now)) <= BodyBytes(history)
  {
    if |history| > 0 {
      LivingExactly(history[1..], now);
      assert Living(history, now)
          == (if Lives(history[0], now) then [history[0]] else []) + Living(history[1..], now);
      BodyBytesConcat(if Lives(history[0], now) then [history[0]] else [], Living(history[1..], now));
      assert history == [history[0]] + history[1..];
      BodyBytesConcat([history[0]], history[1..]);
    }
  }

  /** Leaving entries out cannot break the naming of those that stay. */
  lemma ThinnedMutual(before: State, after: State)
    requires Mutual(before) && Thinned(after.history, before.history) && after.pending == before.pending
    ensures Mutual(after)
  {
    var at :| Embeds(after.history, before.history, at);
    forall i: int, id: nat | 0 <= i < |after.history|
      ensures id in after.history[i].originals <==> IsOriginal(after, id, after.history[i].sequence)
      ensures after.history[i].pending == Some(id) <==> IsReplay(after, id, after.history[i].sequence)
    {
      assert id in before.history[at[i]].originals <==> IsOriginal(before, id, before.history[at[i]].sequence);
      assert before.history[at[i]].pending == Some(id) <==> IsReplay(before, id, before.history[at[i]].sequence);
    }
  }

  lemma PurgeLinked(s: State, now: nat)
    requires Linked(s)
    ensures Linked(Purge(s, now))
  {
    var after := Purge(s, now);
    LivingThinned(s.history, now);
    LivingExactly(s.history, now);
    ThinnedKeeps(after.history, s.history, s.replayKey);
    ThinnedMutual(s, after);
    var at :| Embeds(after.history, s.history, at);
    StrictlyEmbeddedIsShort(at, |s.history|);
  }

  lemma {:induction false} StrictlyEmbeddedIsShort(at: seq<nat>, bound: nat)
    requires forall i | 0 <= i < |at| :: at[i] < bound
    requires forall i, j | 0 <= i < j < |at| :: at[i] < at[j]
    ensures |at| <= bound
    decreases |at|
  {
    if |at| > 0 {
      StrictlyEmbeddedIsShort(at[..|at| - 1], at[|at| - 1]);
    }
  }

  // ---------------------------------------------------------------- remember and launch

  lemma LaunchReplayMutual(s: State, sequence: nat, request: nat, now: nat, i: nat, id: nat)
    requires Linked(s) && Eligible(s, sequence) && request == s.nextRequest + 1 && i < |s.history|
    ensures var entry := StartReplay(s.history[i], sequence, request, now);
      var pending := s.pending[request := Pending(true, Some(sequence), None, false, None)];
      && (id in entry.originals <==>
           id in pending && !pending[id].replay && pending[id].entry == Some(entry.sequence))
      && (entry.pending == Some(id) <==>
           id in pending && pending[id].replay && pending[id].entry == Some(entry.sequence))
  {
    var k :| 0 <= k < |s.history| && s.history[k].sequence == sequence && s.history[k].pending.None?;
    assert id in s.history[i].originals <==> IsOriginal(s, id, s.history[i].sequence);
    assert s.history[i].pending == Some(id) <==> IsReplay(s, id, s.history[i].sequence);
    assert request !in s.pending;
    assert s.history[i].sequence == sequence ==> i == k;
  }

  lemma LaunchReplayLinked(s: State, foreign: BudgetState, body: seq<byte>, sequence: nat, now: nat)
    requires Linked(s)
    ensures var l := Launch(s, false, foreign, body, Some(sequence), now); l.Refused? || Linked(l.state)
  {
    var l := Launch(s, false, foreign, body, Some(sequence), now);
    if l.Launched? {
      SameShape(s, l.state);
      forall i: int, id: nat | 0 <= i < |s.history|
        ensures id in l.state.history[i].originals <==> IsOriginal(l.state, id, l.state.history[i].sequence)
        ensures l.state.history[i].pending == Some(id) <==> IsReplay(l.state, id, l.state.history[i].sequence)
      {
        LaunchReplayMutual(s, sequence, l.request, now, i, id);
      }
    }
  }

  /** The history `remember` works on, before any entry is evicted. */
  function Kept(s: State, body: seq<byte>): seq<Entry>
    requires Replayable(body)
  {
    if s.replayKey == Some(body[..8]) then s.history else []
  }

  /** The history after the request was noted, before the eviction loop. */
  function Noted(s: State, foreign: BudgetState, body: seq<byte>, request: nat, now: nat): seq<Entry>
    requires Replayable(body)
  {
    var kept := Kept(s, body);
    match FindBody(kept, body)
    case Some(i) => kept[i := kept[i].(originals := kept[i].originals + {request})]
    case None =>
      if HasRoom(foreign, kept, |body|) then kept + [NewEntry(body, request, now)] else kept
  }

  /** The state as `remember` would leave it if it evicted nothing. */
  function NotedState(s: State, foreign: BudgetState, body: seq<byte>, now: nat): State
    requires Replayable(body)
  {
    var request := s.nextRequest + 1;
    s.(nextRequest := request, history := Noted(s, foreign, body, request, now), replayKey := Some(body[..8]),
       pending := s.pending[request := Pending(false, Remember(s, foreign, body, request, now).entry, None, false,
           None)])
  }

  lemma KeptLinked(s: State, body: seq<byte>)
    requires Linked(s) && Replayable(body)
    ensures Linked(s.(history := Kept(s, body), replayKey := Some(body[..8])))
  {
  }

  lemma EvictIdle(history: seq<Entry>, now: nat)
    requires Fits(history)
    ensures Evict(history, now) == history
  {
  }

  lemma AddOriginalFits(kept: seq<Entry>, index: nat, request: nat)
    requires index < |kept|
    ensures BodyBytes(kept[index := kept[index].(originals := kept[index].originals + {request})]) == BodyBytes(kept)
  {
    BodyBytesSame(kept, kept[index := kept[index].(originals := kept[index].originals + {request})]);
  }

  lemma RememberIsEvictedNoted(s: State, foreign: BudgetState, body: seq<byte>, request: nat, now: nat)
    requires Linked(s) && Replayable(body)
    ensures Remember(s, foreign, body, request, now).history == Evict(Noted(s, foreign, body, request, now), now)
    ensures Remember(s, foreign, body, request, now).replayKey == Some(body[..8])
  {
    KeptLinked(s, body);
    EvictIdle(Kept(s, body), now);
  }

  /** One entry and one id, before and after the request was noted. */
  lemma NotedPair(s: State, foreign: BudgetState, body: seq<byte>, now: nat, i: nat, id: nat)
    requires Linked(s) && Replayable(body) && i < |Kept(s, body)|
    ensures var after := NotedState(s, foreign, body, now);
      && |after.history| >= |Kept(s, body)|
      && (id in after.history[i].originals <==> IsOriginal(after, id, after.history[i].sequence))
      && (after.history[i].pending == Some(id) <==> IsReplay(after, id, after.history[i].sequence))
  {
    var request := s.nextRequest + 1;
    assert request !in s.pending;
    assert id in s.history[i].originals <==> IsOriginal(s, id, s.history[i].sequence);
    assert s.history[i].pending == Some(id) <==> IsReplay(s, id, s.history[i].sequence);
    assert request in s.history[i].originals <==> IsOriginal(s, request, s.history[i].sequence);
  }

  /** The entry that was pushed is named by the new request alone. */
  lemma PushedPair(s: State, foreign: BudgetState, body: seq<byte>, now: nat, i: nat, id: nat)
    requires Linked(s) && Replayable(body) && |Kept(s, body)| <= i < |NotedState(s, foreign, body, now).history|
    ensures var after := NotedState(s, foreign, body, now);
      && (id in after.history[i].originals <==> IsOriginal(after, id, after.history[i].sequence))
      && (after.history[i].pending == Some(id) <==> IsReplay(after, id, after.history[i].sequence))
  {
    var after := NotedState(s, foreign, body, now);
    assert after.history[i] == NewEntry(body, after.nextRequest, now);
  }

  lemma NotedMutual(s: State, foreign: BudgetState, body: seq<byte>, now: nat)
    requires Linked(s) && Replayable(body)
    ensures Mutual(NotedState(s, foreign, body, now))
  {
    var after := NotedState(s, foreign, body, now);
    forall i: int, id: nat | 0 <= i < |after.history|
      ensures id in after.history[i].originals <==> IsOriginal(after, id, after.history[i].sequence)
      ensures after.history[i].pending == Some(id) <==> IsReplay(after, id, after.history[i].sequence)
    {
      if i < |Kept(s, body)| {
        NotedPair(s, foreign, body, now, i, id);
      } else {
        PushedPair(s, foreign, body, now, i, id);
      }
    }
  }

  lemma AppendShape(kept: seq<Entry>, last: Entry, key: Option<seq<byte>>)
    requires Increasing(kept) && DistinctBodies(kept) && Keyed(kept, key)
    requires forall i | 0 <= i < |kept| :: kept[i].sequence < last.sequence && kept[i].body != last.body
    requires Replayable(last.body) && key == Some(last.body[..8])
    ensures Increasing(kept + [last]) && DistinctBodies(kept + [last]) && Keyed(kept + [last], key)
  {
  }

  lemma UpdateShape(kept: seq<Entry>, index: nat, entry: Entry, key: Option<seq<byte>>)
    requires Increasing(kept) && DistinctBodies(kept) && Keyed(kept, key) && index < |kept|
    requires entry.sequence == kept[index].sequence && entry.body == kept[index].body
    ensures Increasing(kept[index := entry]) && DistinctBodies(kept[index := entry])
    ensures Keyed(kept[index := entry], key)
  {
  }

  lemma KeptShape(s: State, body: seq<byte>)
    requires Linked(s) && Replayable(body)
    ensures var kept := Kept(s, body);
      && Increasing(kept) && DistinctBodies(kept) && Keyed(kept, Some(body[..8]))
      && forall i | 0 <= i < |kept| :: kept[i].sequence < s.nextRequest + 1
  {
  }

  lemma NotedShape(s: State, foreign: BudgetState, body: seq<byte>, request: nat, now: nat)
    requires Linked(s) && Replayable(body) && request == s.nextRequest + 1
    ensures var noted := Noted(s, foreign, body, request, now);
      Increasing(noted) && DistinctBodies(noted) && Keyed(noted, Some(body[..8]))
  {
    KeptShape(s, body);
    var kept, key := Kept(s, body), Some(body[..8]);
    match FindBody(kept, body)
    case Some(i) => UpdateShape(kept, i, kept[i].(originals := kept[i].originals + {request}), key);
    case None => AppendShape(kept, NewEntry(body, request, now), key);
  }

  lemma NotedNumbered(s: State, foreign: BudgetState, body: seq<byte>, now: nat)
    requires Linked(s) && Replayable(body)
    ensures Numbered(NotedState(s, foreign, body, now))
  {
    assert Numbered(s);
    hide Linked, HasRoom, Evict, Replayable;
  }

  /** Everything `Linked` asks for but the size. */
  ghost predicate LinkedButLarge(s: State) {
    Increasing(s.history) && DistinctBodies(s.history) && Keyed(s.history, s.replayKey) && Numbered(s) && Mutual(s)
  }

  lemma EvictedLinked(before: State, now: nat)
    requires LinkedButLarge(before)
    ensures Linked(before.(history := Evict(before.history, now)))
  {
    var after := before.(history := Evict(before.history, now));
    EvictFits(before.history, now);
    hide Evict, Mutual;
    ThinnedKeeps(after.history, before.history, before.replayKey);
    ThinnedMutual(before, after);
  }

  lemma NotedLinked(s: State, foreign: BudgetState, body: seq<byte>, now: nat)
    requires Linked(s) && Replayable(body)
    ensures LinkedButLarge(NotedState(s, foreign, body, now))
  {
    hide Noted, Remember, Linked, Mutual, Numbered, Increasing, DistinctBodies, Keyed;
    NotedMutual(s, foreign, body, now);
    NotedShape(s, foreign, body, s.nextRequest + 1, now);
    NotedNumbered(s, foreign, body, now);
  }

  lemma LaunchOriginalLinked(s: State, foreign: BudgetState, body: seq<byte>, now: nat)
    requires Linked(s)
    ensures var l := Launch(s, false, foreign, body, None, now); l.Refused? || Linked(l.state)
  {
    var l := Launch(s, false, foreign, body, None, now);
    if l.Launched? && Replayable(body) {
      RememberIsEvictedNoted(s, foreign, body, l.request, now);
      NotedLinked(s, foreign, body, now);
      var noted := NotedState(s, foreign, body, now);
      EvictedLinked(noted, now);
      hide Linked, Remember, Noted, Evict;
      assert l.state == noted.(history := Evict(noted.history, now));
    } else if l.Launched? {
      PlainLaunchLinked(s, l.state);
    }
  }

  /** A packet that cannot be replayed is pending without naming any entry. */
  lemma PlainLaunchLinked(s: State, after: State)
    requires Linked(s)
    requires after == s.(nextRequest := s.nextRequest + 1,
                         pending := s.pending[s.nextRequest + 1 := Pending(false, None, None, false, None)])
    ensures Linked(after)
  {
    forall i: int, id: nat | 0 <= i < |s.history|
      ensures id in after.history[i].originals <==> IsOriginal(after, id, after.history[i].sequence)
      ensures after.history[i].pending == Some(id) <==> IsReplay(after, id, after.history[i].sequence)
    {
      assert id in s.history[i].originals <==> IsOriginal(s, id, s.history[i].sequence);
      assert s.history[i].pending == Some(id) <==> IsReplay(s, id, s.history[i].sequence);
      assert s.nextRequest + 1 !in s.pending;
    }
  }

  lemma RememberedAgain(s: State, foreign: BudgetState, body: seq<byte>, request: nat, now: nat)
    requires Linked(s) && Replayable(body) && FindBody(Kept(s, body), body).Some?
    ensures var r := Remember(s, foreign, body, request, now);
      var i := FindBody(Kept(s, body), body).value;
      && i < |r.history| && r.entry == Some(r.history[i].sequence)
      && r.history[i].body == body && request in r.history[i].originals
  {
    KeptLinked(s, body);
    var kept := Kept(s, body);
    var i := FindBody(kept, body).value;
    AddOriginalFits(kept, i, request);
    hide Linked;
    EvictIdle(kept[i := kept[i].(originals := kept[i].originals + {request})], now);
  }

  lemma RememberedNew(s: State, foreign: BudgetState, body: seq<byte>, request: nat, now: nat)
    requires Replayable(body) && FindBody(Kept(s, body), body).None?
    ensures var r := Remember(s, foreign, body, request, now);
      r.entry.Some? ==>
          |r.history| > 0 && r.history[|r.history| - 1] == NewEntry(body, request, now) && r.entry.value == request
  {
    EvictKeepsNewest(Kept(s, body) + [NewEntry(body, request, now)], now);
  }

  /** `remember` never evicts the entry it returns, and that entry holds this packet and this request. */
  lemma RememberedStays(s: State, foreign: BudgetState, body: seq<byte>, now: nat)
    requires Linked(s)
    ensures var request := s.nextRequest + 1;
      var r := Remember(s, foreign, body, request, now);
      r.entry.Some? ==> exists i :: 0 <= i < |r.history| && r.history[i].sequence == r.entry.value
                                    && r.history[i].body == body && request in r.history[i].originals
  {
    var request := s.nextRequest + 1;
    var r := Remember(s, foreign, body, request, now);
    if r.entry.Some? {
      if FindBody(Kept(s, body), body).Some? {
        RememberedAgain(s, foreign, body, request, now);
        hide Remember, FindBody, Linked;
        assert r.history[FindBody(Kept(s, body), body).value].body == body;
      } else {
        RememberedNew(s, foreign, body, request, now);
        hide Remember, FindBody, Linked;
        assert r.history[|r.history| - 1].body == body;
      }
    }
  }
}
