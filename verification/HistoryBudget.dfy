/** Many channels and the one history budget they share. The mutex of a channel keeps its sections apart,
    but the budget has a mutex of its own, taken anew for every permit that is granted or given back: between
    two of them other channels move the counters. A section is therefore a walk here, permit by permit. */
module HistoryBudget {
  import opened Bytes
  import opened Options
  import opened Budgets
  import opened Totals
  import opened Channel
  import opened Eviction
  import opened Links
  import opened ChannelRuns
  import opened FailProtocol
  import opened ReplayBounds

  predicate NoMore(a: BudgetState, b: BudgetState) {
    a.requests <= b.requests && a.bytes <= b.bytes
  }

  lemma {:induction false} EvictReleases(history: seq<Entry>, now: nat)
    ensures NoMore(Usage(Evict(history, now)), Usage(history))
    decreases |history|
  {
    if !Fits(history) && |history| > 0 {
      var victim := Victim(history, now);
      BodyBytesWithout(history, victim);
      EvictReleases(Without(history, victim), now);
    }
  }

  // ---------------------------------------------------------------- the process

  /** Where a section that moves the history has come to. */
  datatype Work =
    | Wanting(body: seq<byte>, now: nat)     // `remember` has settled the key and is about to look for the body
    | Pushing(body: seq<byte>, now: nat, foreign: BudgetState)   // it has a permit and no entry for it yet
    | Evicting(body: seq<byte>, now: nat, foreign: BudgetState, entry: nat)
    | Purging(now: nat)
    | Failing(terminal: Terminal)
    | Leaving                                // the channel itself is being dropped

  /** The history as the section has it by now, and entries it took out whose permits it still has. */
  datatype Hold = Hold(work: Work, history: seq<Entry>, replayKey: Option<seq<byte>>, hand: seq<Entry>)

  /** A channel as it was before the section under way. */
  datatype Chan = Chan(w: World, hold: Option<Hold>)

  datatype Process = Process(channels: map<nat, Chan>, budget: BudgetState)

  datatype Move =
    | Open(channel: nat, now: nat)
    | Run(channel: nat, step: Step)          // a section that leaves the history budget alone, or none at all
    | BeginSend(channel: nat, body: seq<byte>, now: nat, early: bool)
    | BeginPurge(channel: nat, now: nat)
    | BeginFail(channel: nat)
    | BeginLeave(channel: nat)
    | GiveBack(channel: nat)                 // one entry taken out is dropped, and its permit with it
    | Acquire(channel: nat)
    | Push(channel: nat)
    | EvictOne(channel: nat)
    | Finish(channel: nat)

  /** What needs no lock of the channel may happen in the middle of its sections. */
  predicate LockFree(step: Step) {
    step.Tick? || step.FailSwap? || step.DeliverSend? || step.TakeReply?
  }

  predicate InPlace(step: Step) {
    !step.Send? && !step.Scan? && !step.FailLocked?
  }

  predicate Begins(m: Move) {
    m.BeginSend? || m.BeginPurge? || m.BeginFail? || m.BeginLeave?
  }

  predicate CanBegin(c: Chan, m: Move)
    requires Begins(m)
  {
    c.hold.None? &&
    match m
    case BeginSend(_, _, now, early) => now <= c.w.clock && MayBe(c.w, early)
    case BeginPurge(_, now) => c.w.recovery.Asleep? && now <= c.w.clock
    case BeginFail(_) => c.w.failing.Some?
    case BeginLeave(_) => true
  }

  predicate AtEnd(h: Hold) {
    |h.hand| == 0 && (h.work.Purging? || h.work.Failing? || h.work.Leaving? || (h.work.Evicting? && Fits(h.history)))
  }

  predicate CanGoOn(h: Hold, m: Move) {
    match m
    case GiveBack(_) => |h.hand| > 0
    case Acquire(_) => h.work.Wanting? && |h.hand| == 0
    case Push(_) => h.work.Pushing?
    case EvictOne(_) => h.work.Evicting? && |h.hand| == 0 && !Fits(h.history)
    case Finish(_) => AtEnd(h)
    case _ => false
  }

  predicate CanMove(c: Chan, m: Move) {
    if m.Run? then Enabled(c.w, m.step) && (LockFree(m.step) || (c.hold.None? && InPlace(m.step)))
    else if Begins(m) then CanBegin(c, m)
    else c.hold.Some? && CanGoOn(c.hold.value, m)
  }

  predicate Possible(p: Process, m: Move) {
    if m.Open? then m.channel !in p.channels
    else m.channel in p.channels && CanMove(p.channels[m.channel], m)
  }

  function Dead(history: seq<Entry>, now: nat): seq<Entry> {
    if |history| == 0 then []
    else (if Lives(history[0], now) then [] else [history[0]]) + Dead(history[1..], now)
  }

  function Begin(c: Chan, m: Move): Chan
    requires Begins(m) && CanBegin(c, m)
  {
    var s := c.w.s;
    match m
    case BeginSend(_, body, now, early) =>
      if (c.w.closed && !early) || s.terminal.Some? then c
      else if !Replayable(body) then c.(w := Sent(c.w, s.history, s.replayKey, None))
      else if s.replayKey == Some(body[..8]) then c.(hold := Some(Hold(Wanting(body, now), s.history, s.replayKey, [])))
      else c.(hold := Some(Hold(Wanting(body, now), [], Some(body[..8]), s.history)))
    case BeginPurge(_, now) =>
      c.(hold := Some(Hold(Purging(now), Living(s.history, now), s.replayKey, Dead(s.history, now))))
    case BeginFail(_) => c.(hold := Some(Hold(Failing(c.w.failing.value), [], s.replayKey, s.history)))
    case BeginLeave(_) => c.(hold := Some(Hold(Leaving, [], s.replayKey, s.history)))
  }

  /** What `launch` leaves behind when `remember` is through. */
  function Sent(w: World, history: seq<Entry>, key: Option<seq<byte>>, entry: Option<nat>): World {
    var n := w.s.nextRequest + 1;
    w.(s := w.s.(nextRequest := n, history := history, replayKey := key,
                 pending := w.s.pending[n := Pending(false, entry, None, false, None)]),
       guards := w.guards + {n})
  }

  function GoOn(c: Chan, budget: BudgetState, m: Move): (Chan, BudgetState)
    requires c.hold.Some? && CanGoOn(c.hold.value, m) && !m.Finish?
  {
    var h := c.hold.value;
    match m
    case GiveBack(_) => (c.(hold := Some(h.(hand := h.hand[1..]))), budget.Minus(BudgetState(1, |h.hand[0].body|)))
    case Acquire(_) => Ask(c, budget)
    case Push(_) =>
      var n := c.w.s.nextRequest + 1;
      (c.(hold := Some(h.(work := Evicting(h.work.body, h.work.now, h.work.foreign, n),
                          history := h.history + [NewEntry(h.work.body, n, h.work.now)]))), budget)
    case EvictOne(_) =>
      var victim := Victim(h.history, h.work.now);
      (c.(hold := Some(h.(history := Without(h.history, victim), hand := [h.history[victim]]))), budget)
  }

  /** What the budget holds beside this history. */
  function OthersHold(budget: BudgetState, history: seq<Entry>): BudgetState {
    BudgetState(if budget.requests < |history| then 0 else budget.requests - |history|,
                if budget.bytes < BodyBytes(history) then 0 else budget.bytes - BodyBytes(history))
  }

  /** The body is in the history, or there is room for it, or the request goes without an entry. */
  function Ask(c: Chan, budget: BudgetState): (Chan, BudgetState)
    requires c.hold.Some? && c.hold.value.work.Wanting?
  {
    var h, n := c.hold.value, c.w.s.nextRequest + 1;
    match FindBody(h.history, h.work.body)
    case Some(i) =>
      var entry := h.history[i].(originals := h.history[i].originals + {n});
      var work := Evicting(h.work.body, h.work.now, NOTHING, entry.sequence);
      (c.(hold := Some(h.(work := work, history := h.history[i := entry]))), budget)
    case None =>
      if budget.Admits(HISTORY_LIMITS, |h.work.body|)
      then (c.(hold := Some(h.(work := Pushing(h.work.body, h.work.now, OthersHold(budget, h.history))))),
            budget.Plus(BudgetState(1, |h.work.body|)))
      else (c.(w := Sent(c.w, h.history, h.replayKey, None), hold := None), budget)
  }

  /** The channel after the section. */
  function Finished(c: Chan): World
    requires c.hold.Some?
  {
    var h, w := c.hold.value, c.w;
    match h.work
    case Evicting(_, _, _, entry) => Sent(w, h.history, h.replayKey, Some(entry))
    case Purging(now) =>
      w.(s := w.s.(history := h.history, replayKey := if |h.history| == 0 then None else h.replayKey),
         recovery := Scanned(now))
    case Failing(t) =>
      w.(s := w.s.(terminal := Some(t), history := h.history, waitingUpload := None), failing := None,
         recorded := w.recorded + [t], aborts := w.aborts + w.s.pending.Keys)
    case _ => w
  }

  /** The last of a channel that is dropped. */
  predicate Ends(c: Chan, m: Move) {
    m.Finish? && c.hold.Some? && c.hold.value.work.Leaving?
  }

  /** The channel and the budget after a move. */
  function Moved(c: Chan, budget: BudgetState, m: Move): (Chan, BudgetState)
    requires CanMove(c, m) && !Ends(c, m)
  {
    if m.Run? then (c.(w := Do(c.w, m.step)), budget)
    else if Begins(m) then (Begin(c, m), budget)
    else if m.Finish? then (Chan(Finished(c), None), budget)
    else GoOn(c, budget, m)
  }

  function Perform(p: Process, m: Move): Process
    requires Possible(p, m)
  {
    if m.Open? then p.(channels := p.channels[m.channel := Chan(Initial(m.now), None)])
    else if Ends(p.channels[m.channel], m) then p.(channels := p.channels - {m.channel})
    else
      var (after, budget) := Moved(p.channels[m.channel], p.budget, m);
      Process(p.channels[m.channel := after], budget)
  }

  // ---------------------------------------------------------------- each section does what it should

  /** The channel, before the section, admits the request. */
  predicate Sending(w: World, body: seq<byte>, now: nat) {
    Replayable(body) && w.s.terminal.None? && (w.closed ==> w.failing.Some?) && now <= w.clock
  }

  /** The section under way, carried to its end without more from the others, does what its function says. */
  predicate OnCourse(c: Chan) {
    c.hold.Some? ==>
      var h, w := c.hold.value, c.w;
      match h.work
      case Wanting(body, now) => Sending(w, body, now) && h.history == Kept(w.s, body) && h.replayKey == Some(body[..8])
      case Pushing(body, now, foreign) =>
        && Sending(w, body, now) && h.history == Kept(w.s, body) && h.replayKey == Some(body[..8])
        && |h.hand| == 0 && FindBody(h.history, body).None? && HasRoom(foreign, h.history, |body|)
      case Evicting(body, now, foreign, entry) =>
        && Sending(w, body, now)
        && Remember(w.s, foreign, body, w.s.nextRequest + 1, now)
           == Remembered(Evict(h.history, now), h.replayKey, Some(entry))
      case Purging(now) =>
        h.history == Living(w.s.history, now) && h.replayKey == w.s.replayKey && w.recovery.Asleep? && now <= w.clock
      case Failing(t) => w.failing == Some(t) && h.history == []
      case Leaving => h.history == []
  }

  lemma BeginIsOnCourse(c: Chan, m: Move)
    requires Begins(m) && CanBegin(c, m) && OnCourse(c)
    ensures OnCourse(Begin(c, m))
  {
  }

  lemma AskIsOnCourse(c: Chan, budget: BudgetState)
    requires c.hold.Some? && c.hold.value.work.Wanting? && |c.hold.value.hand| == 0 && OnCourse(c)
    requires NoMore(Usage(c.hold.value.history), budget)
    ensures OnCourse(Ask(c, budget).0)
  {
  }

  lemma GoOnIsOnCourse(c: Chan, budget: BudgetState, m: Move)
    requires c.hold.Some? && CanGoOn(c.hold.value, m) && !m.Finish? && OnCourse(c)
    requires NoMore(Usage(c.hold.value.history), budget)
    ensures OnCourse(GoOn(c, budget, m).0)
  {
    if m.Acquire? {
      AskIsOnCourse(c, budget);
    }
  }

  lemma LockFreeKeeps(w: World, step: Step)
    requires Enabled(w, step) && LockFree(step) && (w.failing.Some? ==> w.closed)
    ensures var v := Do(w, step); v.s == w.s && v.recovery == w.recovery && v.clock >= w.clock
    ensures var v := Do(w, step);
        (w.failing.Some? ==> v.failing == w.failing) && (v.closed ==> v.failing.Some? || w.closed)
  {
  }

  lemma RunIsOnCourse(c: Chan, step: Step)
    requires Enabled(c.w, step) && (LockFree(step) || c.hold.None?) && OnCourse(c)
    requires c.w.failing.Some? ==> c.w.closed
    ensures OnCourse(c.(w := Do(c.w, step)))
  {
    if LockFree(step) {
      LockFreeKeeps(c.w, step);
      hide Do, Enabled;
    }
  }

  // ---------------------------------------------------------------- a channel among others runs as one alone

  /** Some run of the channel alone leads to this state. */
  ghost predicate Reached(w: World) {
    exists ws, steps :: FromStart(ws) && IsRun(ws, steps) && ws[|steps|] == w
  }

  lemma ReachedNext(w: World, step: Step)
    requires Reached(w) && Enabled(w, step)
    ensures Reached(Do(w, step))
  {
    var ws, steps :| FromStart(ws) && IsRun(ws, steps) && ws[|steps|] == w;
    var vs, more := ws + [Do(w, step)], steps + [step];
    assert vs[0] == ws[0];
    assert FromStart(vs);
    assert IsRun(vs, more);
    assert vs[|more|] == Do(w, step);
  }

  lemma ReachedFirst(now: nat)
    ensures Reached(Initial(now))
  {
    var ws, steps: seq<Step> := [Initial(now)], [];
    assert FromStart(ws) && IsRun(ws, steps) && ws[|steps|] == Initial(now);
  }

  lemma SentIsSend(w: World, body: seq<byte>, foreign: BudgetState, now: nat, early: bool, r: Remembered)
    requires w.s.terminal.None? && now <= w.clock && MayBe(w, early) && (w.closed ==> early)
    requires Remember(w.s, foreign, body, w.s.nextRequest + 1, now) == r
    ensures var step := Send(body, foreign, now, early);
      Enabled(w, step) && Do(w, step) == Sent(w, r.history, r.replayKey, r.entry)
  {
  }

  lemma BeginReaches(c: Chan, m: Move)
    requires Begins(m) && CanBegin(c, m) && Reached(c.w)
    ensures Reached(Begin(c, m).w)
  {
    if m.BeginSend? && !(c.w.closed && !m.early) && c.w.s.terminal.None? && !Replayable(m.body) {
      SentIsSend(c.w, m.body, NOTHING, m.now, m.early && c.w.closed, Remembered(c.w.s.history, c.w.s.replayKey, None));
      ReachedNext(c.w, Send(m.body, NOTHING, m.now, m.early && c.w.closed));
    }
  }

  lemma AskReaches(c: Chan, budget: BudgetState)
    requires c.hold.Some? && c.hold.value.work.Wanting? && OnCourse(c) && Reached(c.w)
    requires NoMore(Usage(c.hold.value.history), budget)
    ensures Reached(Ask(c, budget).0.w)
  {
    var h, w := c.hold.value, c.w;
    if FindBody(h.history, h.work.body).None? && !budget.Admits(HISTORY_LIMITS, |h.work.body|) {
      var foreign := OthersHold(budget, h.history);
      SentIsSend(w, h.work.body, foreign, h.work.now, w.closed, Remembered(h.history, h.replayKey, None));
      ReachedNext(w, Send(h.work.body, foreign, h.work.now, w.closed));
    }
  }

  lemma FinishReaches(c: Chan)
    requires c.hold.Some? && AtEnd(c.hold.value) && OnCourse(c) && Reached(c.w)
    ensures Reached(Finished(c))
  {
    var h, w := c.hold.value, c.w;
    match h.work
    case Evicting(body, now, foreign, entry) =>
      SentIsSend(w, body, foreign, now, w.closed, Remembered(h.history, h.replayKey, Some(entry)));
      ReachedNext(w, Send(body, foreign, now, w.closed));
    case Purging(now) =>
      assert Finished(c) == Do(w, Scan(now));
      ReachedNext(w, Scan(now));
    case Failing(t) =>
      assert Finished(c) == Do(w, FailLocked);
      ReachedNext(w, FailLocked);
    case Leaving =>
  }

  // ---------------------------------------------------------------- the books

  /** Permits the channel has: its entries', those it is giving back, and one that has no entry yet. */
  function Held(c: Chan): BudgetState {
    match c.hold
    case None => Usage(c.w.s.history)
    case Some(h) =>
      BudgetState(|h.history| + |h.hand| + (if h.work.Pushing? then 1 else 0),
                  BodyBytes(h.history) + BodyBytes(h.hand) + (if h.work.Pushing? then |h.work.body| else 0))
  }

  function HeldRequests(): Chan -> nat { (c: Chan) => Held(c).requests }
  function HeldBytes(): Chan -> nat { (c: Chan) => Held(c).bytes }

  /** The budget is the sum of what the channels weigh. */
  ghost predicate Adds<C>(channels: map<nat, C>, budget: BudgetState, count: C -> nat, size: C -> nat) {
    budget.requests == Total(channels, count) && budget.bytes == Total(channels, size)
  }

  /** The budget counts and weighs exactly the permits of all channels, within its limits. */
  ghost predicate Balanced(p: Process) {
    Adds(p.channels, p.budget, HeldRequests(), HeldBytes()) && p.budget.Within(HISTORY_LIMITS)
  }

  predicate SameMove(a: BudgetState, b: BudgetState, budget: BudgetState, after: BudgetState) {
    after.requests + a.requests == budget.requests + b.requests && after.bytes + a.bytes == budget.bytes + b.bytes
  }

  /** A channel that gains or loses what the budget does keeps the sum. */
  lemma AddsChanged<C>(channels: map<nat, C>, budget: BudgetState, after: BudgetState, k: nat, c: C, count: C -> nat,
      size: C -> nat)
    requires Adds(channels, budget, count, size) && k in channels
    requires after.requests + count(channels[k]) == budget.requests + count(c)
    requires after.bytes + size(channels[k]) == budget.bytes + size(c)
    ensures Adds(channels[k := c], after, count, size)
  {
    TotalUpdate(channels, count, k, c);
    TotalUpdate(channels, size, k, c);
  }

  /** One that holds nothing may come and go. */
  lemma AddsNothing<C>(channels: map<nat, C>, budget: BudgetState, k: nat, c: C, count: C -> nat, size: C -> nat)
    requires Adds(channels, budget, count, size) && count(c) == size(c) == 0
    ensures k !in channels ==> Adds(channels[k := c], budget, count, size)
    ensures k in channels && channels[k] == c ==> Adds(channels - {k}, budget, count, size)
  {
    if k in channels {
      TotalRemove(channels, count, k);
      TotalRemove(channels, size, k);
    } else {
      TotalUpdate(channels, count, k, c);
      TotalUpdate(channels, size, k, c);
    }
  }

  lemma AddsBounds<C>(channels: map<nat, C>, budget: BudgetState, k: nat, count: C -> nat, size: C -> nat)
    requires Adds(channels, budget, count, size) && k in channels
    ensures count(channels[k]) <= budget.requests && size(channels[k]) <= budget.bytes
  {
    TotalBounds(channels, count, k);
    TotalBounds(channels, size, k);
  }

  lemma LivingAndDead(history: seq<Entry>, now: nat)
    ensures |Living(history, now)| + |Dead(history, now)| == |history|
    ensures BodyBytes(Living(history, now)) + BodyBytes(Dead(history, now)) == BodyBytes(history)
  {
    hide Lives;
    if |history| > 0 {
      LivingAndDead(history[1..], now);
      PutFirst(history[0], Living(history[1..], now));
      PutFirst(history[0], Dead(history[1..], now));
    }
  }

  lemma PutFirst(e: Entry, rest: seq<Entry>)
    ensures BodyBytes([e] + rest) == |e.body| + BodyBytes(rest) && [] + rest == rest
  {
    assert ([e] + rest)[1..] == rest;
  }

  lemma TakenOut(w: World, work: Work, history: seq<Entry>, key: Option<seq<byte>>, hand: seq<Entry>)
    requires !work.Pushing? && |history| + |hand| == |w.s.history|
    requires BodyBytes(history) + BodyBytes(hand) == BodyBytes(w.s.history)
    ensures Held(Chan(w, Some(Hold(work, history, key, hand)))) == Held(Chan(w, None))
  {
  }

  lemma BeginHolds(c: Chan, m: Move)
    requires Begins(m) && CanBegin(c, m)
    ensures Held(Begin(c, m)) == Held(c)
  {
    var s, v := c.w.s, Begin(c, m);
    if m.BeginPurge? {
      LivingAndDead(s.history, m.now);
    }
    if v.hold.Some? {
      var h := v.hold.value;
      TakenOut(c.w, h.work, h.history, h.replayKey, h.hand);
    }
  }

  lemma AskHolds(c: Chan, budget: BudgetState)
    requires c.hold.Some? && c.hold.value.work.Wanting? && |c.hold.value.hand| == 0 && budget.Within(HISTORY_LIMITS)
    ensures var (after, b) := Ask(c, budget); SameMove(Held(c), Held(after), budget, b) && b.Within(HISTORY_LIMITS)
  {
    var h := c.hold.value;
    if FindBody(h.history, h.work.body).Some? {
      AddOriginalFits(h.history, FindBody(h.history, h.work.body).value, c.w.s.nextRequest + 1);
    }
    hide FindBody;
  }

  lemma GoOnHolds(c: Chan, budget: BudgetState, m: Move)
    requires c.hold.Some? && CanGoOn(c.hold.value, m) && !m.Finish? && NoMore(Held(c), budget)
        && budget.Within(HISTORY_LIMITS)
    requires c.hold.value.work.Pushing? ==> |c.hold.value.hand| == 0
    ensures var (after, b) := GoOn(c, budget, m); SameMove(Held(c), Held(after), budget, b) && b.Within(HISTORY_LIMITS)
  {
    var h, n := c.hold.value, c.w.s.nextRequest + 1;
    match m
    case GiveBack(_) =>
    case Acquire(_) => AskHolds(c, budget);
    case Push(_) =>
      BodyBytesConcat(h.history, [NewEntry(h.work.body, n, h.work.now)]);
      assert [NewEntry(h.work.body, n, h.work.now)][1..] == [];
    case EvictOne(_) =>
      var victim := Victim(h.history, h.work.now);
      BodyBytesWithout(h.history, victim);
      assert [h.history[victim]][1..] == [];
  }

  /** Sections that change entries in place leave every body where it is. */
  lemma InPlaceHolds(w: World, step: Step)
    requires Enabled(w, step) && InPlace(step)
    ensures Usage(Do(w, step).s.history) == Usage(w.s.history)
  {
    if Quiet(step) {
      QuietKeepsHistory(w, step);
    } else {
      BodyBytesSame(Do(w, step).s.history, w.s.history);
    }
  }

  // ---------------------------------------------------------------- runs

  ghost predicate Fine(c: Chan) {
    OnCourse(c) && Reached(c.w)
  }

  ghost predicate Good(p: Process) {
    Balanced(p) && forall k | k in p.channels :: Fine(p.channels[k])
  }

  /** What is proved of a channel alone holds of each among others. */
  lemma ReachedIsSound(w: World)
    requires Reached(w)
    ensures Sound(w) && Bounded(w) && (w.failing.Some? ==> w.closed)
  {
    var ws, steps :| FromStart(ws) && IsRun(ws, steps) && ws[|steps|] == w;
    RunsAreSound(ws, steps, |steps|);
    RunsAreBounded(ws, steps, |steps|);
    hide Bounded, Linked, Guarded, Aborted;
  }

  lemma RunIsFine(c: Chan, step: Step)
    requires Enabled(c.w, step) && (LockFree(step) || c.hold.None?) && Fine(c)
    ensures Fine(c.(w := Do(c.w, step)))
  {
    hide Do, Enabled;
    ReachedIsSound(c.w);
    RunIsOnCourse(c, step);
    ReachedNext(c.w, step);
  }

  lemma GoOnIsFine(c: Chan, budget: BudgetState, m: Move)
    requires c.hold.Some? && CanGoOn(c.hold.value, m) && !m.Finish? && Fine(c)
    requires NoMore(Usage(c.hold.value.history), budget)
    ensures Fine(GoOn(c, budget, m).0)
  {
    GoOnIsOnCourse(c, budget, m);
    if m.Acquire? {
      AskReaches(c, budget);
    }
    hide OnCourse, Reached;
  }

  lemma OpenIsFine(now: nat)
    ensures Fine(Chan(Initial(now), None))
  {
    ReachedFirst(now);
  }

  lemma FinishIsFine(c: Chan)
    requires c.hold.Some? && AtEnd(c.hold.value) && Fine(c)
    ensures Fine(Chan(Finished(c), None))
  {
    FinishReaches(c);
    hide Reached, Finished;
  }

  lemma BeginIsFine(c: Chan, m: Move)
    requires Begins(m) && CanBegin(c, m) && Fine(c)
    ensures Fine(Begin(c, m))
  {
    BeginIsOnCourse(c, m);
    BeginReaches(c, m);
    hide Reached, OnCourse;
  }

  lemma MovedIsFine(c: Chan, budget: BudgetState, m: Move)
    requires CanMove(c, m) && !Ends(c, m) && Fine(c)
    requires c.hold.Some? ==> NoMore(Usage(c.hold.value.history), budget)
    ensures Fine(Moved(c, budget, m).0)
  {
    hide Do, Enabled, Fine, Usage, CanBegin, AtEnd, Fits;
    if m.Run? {
      RunIsFine(c, m.step);
    } else if Begins(m) {
      BeginIsFine(c, m);
    } else if m.Finish? {
      FinishIsFine(c);
    } else {
      GoOnIsFine(c, budget, m);
    }
  }

  lemma EmptyHanded(c: Chan)
    requires c.hold.Some? && |c.hold.value.hand| == 0 && !c.hold.value.work.Pushing?
    ensures Held(c) == Usage(c.hold.value.history)
  {
    var h := c.hold.value;
    assert BodyBytes(h.hand) == 0;
    hide BodyBytes;
  }

  lemma LeavingHoldsNothing(c: Chan)
    requires c.hold.Some? && c.hold.value.work.Leaving? && AtEnd(c.hold.value) && OnCourse(c)
    ensures Held(c) == NOTHING
  {
    EmptyHanded(c);
    hide Held, Fits;
  }

  lemma FinishedHolds(c: Chan)
    requires c.hold.Some? && !c.hold.value.work.Leaving? && AtEnd(c.hold.value)
    ensures Held(Chan(Finished(c), None)) == Held(c)
  {
    EmptyHanded(c);
    hide Fits, BodyBytes;
  }

  lemma MovedHolds(c: Chan, budget: BudgetState, m: Move)
    requires CanMove(c, m) && !Ends(c, m) && OnCourse(c) && NoMore(Held(c), budget) && budget.Within(HISTORY_LIMITS)
    ensures var (after, b) := Moved(c, budget, m); SameMove(Held(c), Held(after), budget, b) && b.Within(HISTORY_LIMITS)
  {
    PushingIsEmptyHanded(c);
    hide Held, Do, Enabled, GoOn, Begin, Finished, OnCourse, AtEnd, CanBegin, Fits;
    if m.Run? {
      RunHolds(c, m.step);
    } else if Begins(m) {
      BeginHolds(c, m);
    } else if m.Finish? {
      FinishedHolds(c);
    } else {
      GoOnHolds(c, budget, m);
    }
  }

  lemma PushingIsEmptyHanded(c: Chan)
    requires OnCourse(c)
    ensures c.hold.Some? && c.hold.value.work.Pushing? ==> |c.hold.value.hand| == 0
  {
  }

  lemma RunHolds(c: Chan, step: Step)
    requires Enabled(c.w, step) && (LockFree(step) || (c.hold.None? && InPlace(step)))
    ensures Held(c.(w := Do(c.w, step))) == Held(c)
  {
    if c.hold.None? {
      InPlaceHolds(c.w, step);
    }
    hide Do, Enabled;
  }

  ghost predicate IsProcess(ps: seq<Process>, moves: seq<Move>) {
    && |ps| == |moves| + 1 && ps[0] == Process(map[], NOTHING)
    && (forall i {:trigger moves[i]} | 0 <= i < |moves| ::
         Possible(ps[i], moves[i]) && ps[i + 1] == Perform(ps[i], moves[i]))
  }

  lemma OpenHoldsNothing(now: nat)
    ensures Held(Chan(Initial(now), None)) == NOTHING
  {
  }

  lemma OpenIsGood(p: Process, k: nat, now: nat)
    requires Good(p) && k !in p.channels
    ensures Good(p.(channels := p.channels[k := Chan(Initial(now), None)]))
  {
    OpenIsFine(now);
    OpenHoldsNothing(now);
    hide Fine, Held, Adds;
    AddsNothing(p.channels, p.budget, k, Chan(Initial(now), None), HeldRequests(), HeldBytes());
  }

  lemma EndHoldsNothing(c: Chan, m: Move)
    requires CanMove(c, m) && Ends(c, m) && OnCourse(c)
    ensures Held(c) == NOTHING
  {
    LeavingHoldsNothing(c);
    hide Held, OnCourse;
  }

  lemma ChangeIsGood(p: Process, k: nat, after: Chan, budget: BudgetState)
    requires Good(p) && k in p.channels && Fine(after) && budget.Within(HISTORY_LIMITS)
    requires SameMove(Held(p.channels[k]), Held(after), p.budget, budget)
    ensures Good(Process(p.channels[k := after], budget))
  {
    hide Fine, Held, Adds;
    AddsChanged(p.channels, p.budget, budget, k, after, HeldRequests(), HeldBytes());
  }

  lemma HeldIsCounted(p: Process, k: nat)
    requires Good(p) && k in p.channels
    ensures NoMore(Held(p.channels[k]), p.budget) && p.budget.Within(HISTORY_LIMITS) && Fine(p.channels[k])
  {
    hide Fine, Held, Adds;
    AddsBounds(p.channels, p.budget, k, HeldRequests(), HeldBytes());
  }

  lemma MoveIsGood(p: Process, m: Move)
    requires Possible(p, m) && Good(p)
    ensures Good(Perform(p, m))
  {
    hide Adds, Held, Usage, CanMove, Moved, Fine, OnCourse, Reached, Sent, Initial;
    if m.Open? {
      OpenIsGood(p, m.channel, m.now);
    } else {
      var c := p.channels[m.channel];
      HeldIsCounted(p, m.channel);
      FineIsOnCourse(c);
      if Ends(c, m) {
        EndHoldsNothing(c, m);
        AddsNothing(p.channels, p.budget, m.channel, c, HeldRequests(), HeldBytes());
      } else {
        if c.hold.Some? {
          HoldIsHeld(c);
        }
        MovedIsFine(c, p.budget, m);
        MovedHolds(c, p.budget, m);
        var (after, budget) := Moved(c, p.budget, m);
        ChangeIsGood(p, m.channel, after, budget);
      }
    }
  }

  lemma FineIsOnCourse(c: Chan)
    requires Fine(c)
    ensures OnCourse(c)
  {
  }

  /** What is in the history and in the hand is held. */
  lemma HoldIsHeld(c: Chan)
    requires c.hold.Some?
    ensures NoMore(Usage(c.hold.value.history), Held(c))
    ensures |c.hold.value.hand| > 0 ==> NoMore(BudgetState(1, |c.hold.value.hand[0].body|), Held(c))
  {
  }

  lemma NothingIsGood()
    ensures Good(Process(map[], NOTHING))
  {
  }

  lemma {:induction false} RunsAreGood(ps: seq<Process>, moves: seq<Move>, at: nat)
    requires IsProcess(ps, moves) && at < |ps|
    ensures Good(ps[at])
    decreases at
  {
    hide Perform, Possible, Good;
    if at == 0 {
      NothingIsGood();
    } else {
      RunsAreGood(ps, moves, at - 1);
      MoveIsGood(ps[at - 1], moves[at - 1]);
    }
  }

  function EntryCount(): Chan -> nat { (c: Chan) => |c.w.s.history| }
  function EntryBytes(): Chan -> nat { (c: Chan) => BodyBytes(c.w.s.history) }

  /** In every run the process budget counts and weighs exactly the permits of all channels, within its limits;
      when no section is under way these are the entries of their histories and nothing else. */
  lemma RunsStayWithin(ps: seq<Process>, moves: seq<Move>, at: nat)
    requires IsProcess(ps, moves) && at < |ps|
    ensures Balanced(ps[at])
    ensures (forall k | k in ps[at].channels :: ps[at].channels[k].hold.None?) ==>
              ps[at].budget == BudgetState(Total(ps[at].channels, EntryCount()), Total(ps[at].channels, EntryBytes()))
  {
    RunsAreGood(ps, moves, at);
    var channels := ps[at].channels;
    if forall k | k in channels :: channels[k].hold.None? {
      TotalMonotone(channels, EntryCount(), HeldRequests());
      TotalMonotone(channels, HeldRequests(), EntryCount());
      TotalMonotone(channels, EntryBytes(), HeldBytes());
      TotalMonotone(channels, HeldBytes(), EntryBytes());
    }
  }

  /** No release in any run takes the counters below zero. */
  lemma NeverSaturates(ps: seq<Process>, moves: seq<Move>, at: nat)
    requires IsProcess(ps, moves) && at < |moves| && moves[at].GiveBack?
    ensures var h := ps[at].channels[moves[at].channel].hold.value;
      ps[at].budget == ps[at + 1].budget.Plus(BudgetState(1, |h.hand[0].body|))
  {
    RunsAreGood(ps, moves, at);
    HeldIsCounted(ps[at], moves[at].channel);
    HoldIsHeld(ps[at].channels[moves[at].channel]);
    hide Good, Held, Fine, OnCourse, Reached;
  }

  /** However the permits of others come and go, each channel goes through states it could reach alone, and the
      section it is in will do what its function says. So all that is proved of a channel's runs holds here. */
  lemma ChannelsRunAsAlone(ps: seq<Process>, moves: seq<Move>, at: nat, k: nat)
    requires IsProcess(ps, moves) && at < |ps| && k in ps[at].channels
    ensures OnCourse(ps[at].channels[k])
    ensures exists ws, steps :: FromStart(ws) && IsRun(ws, steps) && ws[|steps|] == ps[at].channels[k].w
    ensures Linked(ps[at].channels[k].w.s) && Fits(ps[at].channels[k].w.s.history)
  {
    RunsAreGood(ps, moves, at);
    assert Fine(ps[at].channels[k]);
    ReachedIsSound(ps[at].channels[k].w);
  }
}
