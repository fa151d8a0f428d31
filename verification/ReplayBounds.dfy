/** How often a packet can be replayed, over every run with a clock that never goes back. */
module ReplayBounds {
  import opened Bytes
  import opened Options
  import opened Budgets
  import opened Channel
  import opened Clock
  import opened Eviction
  import opened Links
  import opened Candidate
  import opened ChannelRuns
  import opened FailProtocol
  import opened Totals

  const LIFETIME_REPLAYS := 16

  /** Replays of one entry are spaced, so the n-th is at least (n - 1) retries after the entry was sent. */
  ghost predicate Paced(w: World, e: Entry) {
    var n := Get(w.launches, e.sequence);
    && e.sentAt <= w.clock
    && e.attempts == Get(w.streak, e.sequence) <= REPLAY_MAX_ATTEMPTS
    && (e.lastAttempt.None? <==> n == 0)
    && (e.lastAttempt.Some? ==> e.sentAt + REPLAY_RETRY * (n - 1) <= e.lastAttempt.value <= w.clock)
  }

  /** What the recovery loop checked about the entry it chose and is about to replay. */
  ghost predicate Ready(w: World, e: Entry) {
    w.recovery.Chose? && e.sequence == w.recovery.sequence ==>
      && e.attempts < REPLAY_MAX_ATTEMPTS
      && Since(w.recovery.now, e.sentAt) <= REPLAY_MAX_AGE
      && (e.lastAttempt.Some? ==> Since(w.recovery.now, e.lastAttempt.value) >= REPLAY_RETRY)
      && e.sentAt <= w.recovery.at
  }

  ghost predicate Bounded(w: World) {
    && (forall e | e in w.s.history :: Paced(w, e) && Ready(w, e))
    && (forall q | q in w.launches :: w.launches[q] <= LIFETIME_REPLAYS && q <= w.s.nextRequest)
    && (forall q | q in w.streak :: q <= w.s.nextRequest)
    && |Replays(w.s)| <= MAX_CHANNEL_REPLAYS
    && (w.recovery.Scanned? ==> w.recovery.now <= w.clock)
    && (w.recovery.Chose? ==>
          |Replays(w.s)| < MAX_CHANNEL_REPLAYS && w.recovery.now <= w.recovery.at <= w.clock
          && w.recovery.sequence <= w.s.nextRequest)
  }

  /** The parts of an entry that its replays depend on. */
  predicate SamePace(a: Entry, b: Entry) {
    a.sequence == b.sequence && a.sentAt == b.sentAt && a.attempts == b.attempts && a.lastAttempt == b.lastAttempt
  }

  /** Entries may go, and change in other ways, without any replay being launched. */
  lemma PaceKept(w: World, v: World)
    requires Bounded(w)
    requires forall e | e in v.s.history :: exists b :: b in w.s.history && SamePace(b, e)
    requires v.launches == w.launches && v.streak == w.streak && v.s.nextRequest >= w.s.nextRequest
    requires v.clock >= w.clock && Replays(v.s) <= Replays(w.s)
    requires v.recovery == w.recovery || v.recovery.Asleep? || (v.recovery.Scanned? && v.recovery.now <= v.clock)
    ensures Bounded(v)
  {
    SubsetSize(Replays(v.s), Replays(w.s));
  }

  lemma QuietReplays(w: World, step: Step)
    requires Enabled(w, step) && Quiet(step)
    ensures Do(w, step).launches == w.launches && Do(w, step).streak == w.streak && Do(w, step).clock >= w.clock
    ensures !step.Pick? ==> Do(w, step).recovery == w.recovery
  {
  }

  lemma QuietBounded(w: World, step: Step)
    requires Bounded(w) && Enabled(w, step) && Quiet(step) && !step.Pick?
    ensures Bounded(Do(w, step))
  {
    QuietKeepsHistory(w, step);
    QuietReplays(w, step);
    assert forall e | e in w.s.history :: SamePace(e, e);
    PaceKept(w, Do(w, step));
  }

  lemma PickedBounded(w: World, c: Entry)
    requires Bounded(w) && Linked(w.s) && w.recovery.Scanned? && Choose(w.s, w.recovery.now) == Some(c)
    ensures Bounded(Do(w, Pick))
  {
    ChooseIsPrioritised(w.s, w.recovery.now);
    var v := Do(w, Pick);
    assert c.sequence <= w.s.nextRequest;
    forall e | e in v.s.history ensures Paced(v, e) && Ready(v, e) {
      assert Paced(w, e);
      assert e.sequence == c.sequence ==> e == c;
    }
  }

  lemma PickBounded(w: World)
    requires Bounded(w) && Linked(w.s) && w.recovery.Scanned?
    ensures Bounded(Do(w, Pick))
  {
    match Choose(w.s, w.recovery.now)
    case None =>
      assert forall e | e in w.s.history :: SamePace(e, e);
      PaceKept(w, Do(w, Pick));
    case Some(c) => PickedBounded(w, c);
  }

  lemma InPlaceBounded(w: World, s: State)
    requires Bounded(w) && |s.history| == |w.s.history| && s.nextRequest == w.s.nextRequest
    requires forall i | 0 <= i < |s.history| :: SamePace(w.s.history[i], s.history[i])
    requires Replays(s) <= Replays(w.s)
    ensures Bounded(w.(s := s))
  {
    PaceKept(w, w.(s := s));
  }

  lemma MarksBounded(w: World, request: nat, generation: nat, now: nat)
    requires Bounded(w)
    ensures Bounded(w.(s := MarkSent(w.s, request, now)))
    ensures Bounded(w.(s := MarkStarted(w.s, request, generation)))
    ensures Bounded(w.(s := MarkReceiving(w.s, request, now)))
  {
    InPlaceBounded(w, MarkSent(w.s, request, now));
    InPlaceBounded(w, MarkStarted(w.s, request, generation));
    InPlaceBounded(w, MarkReceiving(w.s, request, now));
  }

  lemma GuardDropBounded(w: World, request: nat)
    requires Bounded(w)
    ensures Bounded(w.(s := Finish(w.s, request))) && Bounded(w.(s := Retire(w.s, request)))
  {
    InPlaceBounded(w, Finish(w.s, request));
    InPlaceBounded(w, Retire(w.s, request));
  }

  lemma IrrelevantBounded(w: World, v: World)
    requires Bounded(w) && v.s == w.s && v.clock == w.clock && v.recovery == w.recovery
    requires v.launches == w.launches && v.streak == w.streak
    ensures Bounded(v)
  {
  }

  lemma ScanBounded(w: World, now: nat)
    requires Bounded(w) && now <= w.clock
    ensures Bounded(w.(s := Purge(w.s, now), recovery := Scanned(now)))
  {
    LivingExactly(w.s.history, now);
    assert forall e | e in w.s.history :: SamePace(e, e);
    PaceKept(w, w.(s := Purge(w.s, now), recovery := Scanned(now)));
  }

  lemma FailBounded(w: World, terminal: Terminal)
    requires Bounded(w)
    ensures Bounded(w.(s := Fail(w.s, terminal)))
  {
    PaceKept(w, w.(s := Fail(w.s, terminal)));
  }

  // ---------------------------------------------------------------- delivering

  lemma ChangedPrefix(s: State, request: nat, prefix: seq<byte>, i: nat)
    requires Increasing(s.history) && i < |s.history|
    ensures PrefixChanged(s, request, prefix) == Some(s.history[i].sequence)
       <==> EntryOf(s, request) == Some(s.history[i].sequence) && s.history[i].replyId != Some(prefix)
  {
  }

  /** A reset of the attempts and a reset of the streak go together. */
  lemma ResetPaced(w: World, v: World, e: Entry, changed: Option<nat>, sequence: Option<nat>, prefix: seq<byte>)
    requires Paced(w, e) && Ready(w, e)
    requires v.clock == w.clock && v.launches == w.launches && v.recovery == w.recovery
    requires v.streak == if changed.Some? then w.streak[changed.value := 0] else w.streak
    requires changed == Some(e.sequence) <==> sequence == Some(e.sequence) && e.replyId != Some(prefix)
    ensures Paced(v, ResetAttempts(e, sequence, prefix)) && Ready(v, ResetAttempts(e, sequence, prefix))
  {
  }

  lemma DeliveredBounded(w: World, v: World, changed: Option<nat>, request: nat, prefix: seq<byte>)
    requires Bounded(w) && Increasing(w.s.history)
    requires changed == PrefixChanged(w.s, request, prefix)
    requires changed.Some? ==> changed.value <= w.s.nextRequest
    requires v.clock == w.clock && v.launches == w.launches && v.recovery == w.recovery
    requires v.streak == if changed.Some? then w.streak[changed.value := 0] else w.streak
    requires v.s.nextRequest == w.s.nextRequest && v.s.pending == w.s.pending && |v.s.history| == |w.s.history|
    requires forall i | 0 <= i < |w.s.history| ::
      v.s.history[i] == ResetAttempts(w.s.history[i], EntryOf(w.s, request), prefix)
    ensures Bounded(v)
  {
    forall e | e in v.s.history ensures Paced(v, e) && Ready(v, e) {
      var i :| 0 <= i < |v.s.history| && v.s.history[i] == e;
      ChangedPrefix(w.s, request, prefix, i);
      ResetPaced(w, v, w.s.history[i], changed, EntryOf(w.s, request), prefix);
    }
    assert Replays(v.s) == Replays(w.s);
  }

  lemma DeliverBounded(w: World, request: nat, prefix: seq<byte>, length: nat, now: nat, closed: bool)
    requires Bounded(w) && Linked(w.s)
    ensures Bounded(DoDeliver(w, request, prefix, length, now, closed))
  {
    if !closed && w.s.terminal.None? {
      DeliveredBounded(w, DoDeliver(w, request, prefix, length, now, closed), PrefixChanged(w.s, request, prefix),
          request, prefix);
    }
  }

  // ---------------------------------------------------------------- launching

  /** Entries after an original launch are old ones, as far as pace goes, or the new one. */
  lemma NotedPace(s: State, foreign: BudgetState, body: seq<byte>, request: nat, now: nat, e: Entry)
    requires Linked(s) && Channel.Replayable(body) && e in Noted(s, foreign, body, request, now)
    ensures e == NewEntry(body, request, now) || exists b :: b in s.history && SamePace(b, e)
  {
    var noted, kept := Noted(s, foreign, body, request, now), Kept(s, body);
    var i :| 0 <= i < |noted| && noted[i] == e;
    if i < |kept| {
      assert kept[i] in s.history && SamePace(kept[i], e);
    }
  }

  lemma RememberPace(s: State, foreign: BudgetState, body: seq<byte>, request: nat, now: nat, e: Entry)
    requires Linked(s) && e in Remember(s, foreign, body, request, now).history
    ensures e == NewEntry(body, request, now) || exists b :: b in s.history && SamePace(b, e)
  {
    if Channel.Replayable(body) {
      var noted := Noted(s, foreign, body, request, now);
      hide Noted, Remember, Evict, Linked;
      RememberIsEvictedNoted(s, foreign, body, request, now);
      EvictFits(noted, now);
      ThinnedKeeps(Evict(noted, now), noted, None);
      NotedPace(s, foreign, body, request, now, e);
    } else {
      assert SamePace(e, e);
    }
  }

  lemma SendBounded(w: World, body: seq<byte>, foreign: BudgetState, now: nat, closed: bool)
    requires Bounded(w) && Linked(w.s) && now <= w.clock
    ensures Bounded(DoLaunch(w, Launch(w.s, closed, foreign, body, None, now)))
  {
    var l := Launch(w.s, closed, foreign, body, None, now);
    if l.Launched? {
      var v := DoLaunch(w, l);
      forall e | e in v.s.history ensures Paced(v, e) && Ready(v, e) {
        RememberPace(w.s, foreign, body, l.request, now, e);
        if e == NewEntry(body, l.request, now) {
          assert Get(w.launches, l.request) == 0 && Get(w.streak, l.request) == 0;
        }
      }
      assert l.request !in w.s.pending;
      assert Replays(v.s) == Replays(w.s);
    }
  }

  /** Sixteen spaced attempts are all that fit in the entry's age window. */
  lemma LifetimeBound(sentAt: nat, last: nat, n: nat, now: nat)
    requires sentAt + REPLAY_RETRY * (n - 1) <= last
    requires Since(now, last) >= REPLAY_RETRY && Since(now, sentAt) <= REPLAY_MAX_AGE
    ensures sentAt + REPLAY_RETRY * n <= now
    ensures n + 1 <= LIFETIME_REPLAYS
  {
  }

  lemma ReplayPaced(w: World, now: nat, closed: bool, i: nat)
    requires Bounded(w) && Linked(w.s) && w.recovery.Chose? && w.recovery.at <= now <= w.clock && i < |w.s.history|
    requires Launch(w.s, closed, NOTHING, w.recovery.body, Some(w.recovery.sequence), now).Launched?
    ensures var v := DoReplay(w, true, now, closed);
      |v.s.history| == |w.s.history| && Paced(v, v.s.history[i]) && Ready(v, v.s.history[i])
    ensures w.s.history[i].sequence == w.recovery.sequence ==>
        Get(w.launches, w.recovery.sequence) + 1 <= LIFETIME_REPLAYS
  {
    var e := w.s.history[i];
    assert Paced(w, e) && Ready(w, e);
    var n := Get(w.launches, e.sequence);
    if e.sequence == w.recovery.sequence && n > 0 {
      LifetimeBound(e.sentAt, e.lastAttempt.value, n, w.recovery.now);
    }
  }

  lemma ReplayAdded(s: State, after: State, request: nat)
    requires request !in s.pending && request in after.pending && after.pending[request].replay
    requires after.pending - {request} == s.pending
    ensures |Replays(after)| == |Replays(s)| + 1
  {
    assert Replays(after) == Replays(s) + {request} by {
      forall id ensures id in Replays(after) <==> id in Replays(s) + {request} {
        assert id != request ==> (id in after.pending <==> id in after.pending - {request});
      }
    }
  }

  lemma ReplayCounts(s: State, closed: bool, foreign: BudgetState, body: seq<byte>, sequence: nat, now: nat)
    requires Linked(s)
    ensures var l := Launch(s, closed, foreign, body, Some(sequence), now);
      l.Launched? ==> |Replays(l.state)| == |Replays(s)| + 1
  {
    var l := Launch(s, closed, foreign, body, Some(sequence), now);
    if l.Launched? {
      assert l.request !in s.pending;
      hide Linked, Replays, Eligible;
      assert l.state.pending - {l.request} == s.pending;
      ReplayAdded(s, l.state, l.request);
    }
  }

  lemma ReplayLaunchedBounded(w: World, now: nat, closed: bool)
    requires Bounded(w) && Linked(w.s) && w.recovery.Chose? && w.recovery.at <= now <= w.clock
    requires Launch(w.s, closed, NOTHING, w.recovery.body, Some(w.recovery.sequence), now).Launched?
    ensures Bounded(DoReplay(w, true, now, closed))
  {
    var v := DoReplay(w, true, now, closed);
    forall e | e in v.s.history ensures Paced(v, e) && Ready(v, e) {
      var i :| 0 <= i < |v.s.history| && v.s.history[i] == e;
      ReplayPaced(w, now, closed, i);
    }
    var k :| 0 <= k < |w.s.history| && w.s.history[k].sequence == w.recovery.sequence;
    ReplayPaced(w, now, closed, k);
    ReplayCounts(w.s, closed, NOTHING, w.recovery.body, w.recovery.sequence, now);
  }

  lemma ReplayBounded(w: World, granted: bool, now: nat, closed: bool)
    requires Bounded(w) && Linked(w.s) && w.recovery.Chose? && w.recovery.at <= now <= w.clock
    ensures Bounded(DoReplay(w, granted, now, closed))
  {
    if granted && Launch(w.s, closed, NOTHING, w.recovery.body, Some(w.recovery.sequence), now).Launched? {
      ReplayLaunchedBounded(w, now, closed);
    } else {
      assert forall e | e in w.s.history :: SamePace(e, e);
      PaceKept(w, w.(recovery := Asleep));
    }
  }

  lemma StepKeepsBounded(w: World, step: Step)
    requires Bounded(w) && Linked(w.s) && Enabled(w, step)
    ensures Bounded(Do(w, step))
  {
    match step
    case Send(body, foreign, now, early) => SendBounded(w, body, foreign, now, w.closed && !early);
    case Started(request, generation) => MarksBounded(w, request, generation, 0);
    case Sent(request, now) => MarksBounded(w, request, 0, now);
    case Headers(request, now) => MarksBounded(w, request, 0, now);
    case DeliverLocked(request, prefix, length, now, early) =>
      DeliverBounded(w, request, prefix, length, now, w.closed && !early);
    case DropGuard(request) =>
      GuardDropBounded(w, request);
      IrrelevantBounded(w.(s := Finish(w.s, request)), Do(w, step));
    case FailLocked =>
      FailBounded(w, w.failing.value);
      IrrelevantBounded(w.(s := Fail(w.s, w.failing.value)), Do(w, step));
    case RetireAndAbort(request) =>
      GuardDropBounded(w, request);
      IrrelevantBounded(w.(s := Retire(w.s, request)), Do(w, step));
    case Scan(now) => ScanBounded(w, now);
    case Pick => PickBounded(w);
    case Replay(granted, now, early) => ReplayBounded(w, granted, now, w.closed && !early);
    case _ => QuietBounded(w, step);
  }

  lemma {:induction false} RunsAreBounded(ws: seq<World>, steps: seq<Step>, at: nat)
    requires FromStart(ws) && IsRun(ws, steps) && at < |ws|
    ensures Bounded(ws[at])
    decreases at
  {
    if at > 0 {
      RunsAreBounded(ws, steps, at - 1);
      RunsAreSound(ws, steps, at - 1);
      StepKeepsBounded(ws[at - 1], steps[at - 1]);
    } else {
      assert Replays(ws[0].s) == {};
    }
  }

  lemma OneReplayPerEntry(s: State)
    requires Mutual(s)
    ensures forall a: nat, b: nat, e | e in s.history && IsReplay(s, a, e.sequence) && IsReplay(s, b, e.sequence) ::
        a == b
  {
    forall a: nat, b: nat, e | e in s.history && IsReplay(s, a, e.sequence) && IsReplay(s, b, e.sequence)
      ensures a == b
    {
      var i :| 0 <= i < |s.history| && s.history[i] == e;
      assert s.history[i].pending == Some(a) && s.history[i].pending == Some(b);
    }
  }

  /** The four bounds, in every state of every run. */
  lemma ReplaysAreBounded(ws: seq<World>, steps: seq<Step>, at: nat)
    requires FromStart(ws) && IsRun(ws, steps) && at < |ws|
    ensures |Replays(ws[at].s)| <= 2
    ensures forall a: nat, b: nat, e | e in ws[at].s.history
              && IsReplay(ws[at].s, a, e.sequence) && IsReplay(ws[at].s, b, e.sequence) :: a == b
    ensures forall e | e in ws[at].s.history :: Get(ws[at].streak, e.sequence) <= 3
    ensures forall q | q in ws[at].launches :: ws[at].launches[q] <= 16
  {
    RunsAreBounded(ws, steps, at);
    RunsAreSound(ws, steps, at);
    OneReplayPerEntry(ws[at].s);
    forall e | e in ws[at].s.history ensures Get(ws[at].streak, e.sequence) <= 3 {
      assert Paced(ws[at], e);
    }
  }
}
