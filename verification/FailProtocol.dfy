/** `fail` against concurrent `launch`, `deliver` and `receive`, over every run of a channel. */
module FailProtocol {
  import opened Bytes
  import opened Options
  import opened Budgets
  import opened Channel
  import opened Links
  import opened ChannelRuns

  /** One terminal at most is ever stored, and it is the one whose caller flipped `closed`. */
  ghost predicate OneTerminal(w: World) {
    && (w.closed <==> w.failing.Some? || |w.recorded| == 1)
    && |w.recorded| == (if w.closed && w.failing.None? then 1 else 0)
    && (w.s.terminal.Some? ==> w.recorded == [w.s.terminal.value])
  }

  /** A pending record exists exactly as long as its task's guard, and each guard lives once. */
  ghost predicate Guarded(w: World) {
    && w.s.pending.Keys == w.guards
    && w.guards !! w.finished
    && (forall r: nat :: r in w.guards || r in w.finished <==> 0 < r <= w.s.nextRequest)
  }

  /** Once `fail` has run its locked section every request still pending is in its abort list. */
  ghost predicate Aborted(w: World) {
    |w.recorded| > 0 ==> w.s.pending.Keys <= w.aborts && w.s.history == []
  }

  ghost predicate Sound(w: World) {
    Linked(w.s) && OneTerminal(w) && Guarded(w) && Aborted(w)
  }

  lemma LaunchLinked(w: World, l: Launched)
    requires Linked(w.s) && (l.Refused? || Linked(l.state))
    ensures Linked(DoLaunch(w, l).s)
  {
  }

  lemma ReplayLinked(w: World, granted: bool, now: nat, closed: bool)
    requires Linked(w.s) && w.recovery.Chose?
    ensures Linked(DoReplay(w, granted, now, closed).s)
  {
    if !closed {
      LaunchReplayLinked(w.s, NOTHING, w.recovery.body, w.recovery.sequence, now);
    }
  }

  lemma DeliveryLinked(w: World, request: nat, prefix: seq<byte>, length: nat, now: nat, closed: bool)
    requires Linked(w.s)
    ensures Linked(DoDeliver(w, request, prefix, length, now, closed).s)
  {
    DeliverLinked(w.s, closed, request, prefix, length, now);
  }

  /** A step that only looks, or only changes what no link mentions. */
  predicate Quiet(step: Step) {
    match step
    case Send(_, _, _, _) => false
    case Started(_, _) => false
    case Sent(_, _) => false
    case Headers(_, _) => false
    case DeliverLocked(_, _, _, _, _) => false
    case DropGuard(_) => false
    case FailLocked => false
    case RetireAndAbort(_) => false
    case Scan(_) => false
    case Replay(_, _, _) => false
    case _ => true
  }

  lemma QuietKeepsHistory(w: World, step: Step)
    requires Enabled(w, step) && Quiet(step)
    ensures var s := Do(w, step).s;
      s.history == w.s.history && s.pending == w.s.pending && s.replayKey == w.s.replayKey
          && s.nextRequest == w.s.nextRequest
  {
  }

  lemma StepKeepsLinked(w: World, step: Step)
    requires Linked(w.s) && Enabled(w, step)
    ensures Linked(Do(w, step).s)
  {
    if Quiet(step) {
      QuietKeepsHistory(w, step);
      SameLinks(w.s, Do(w, step).s);
    } else {
      match step
      case Send(body, foreign, now, early) =>
        if !w.closed || early { LaunchOriginalLinked(w.s, foreign, body, now); }
        LaunchLinked(w, Launch(w.s, w.closed && !early, foreign, body, None, now));
      case Started(request, generation) => MarkStartedLinked(w.s, request, generation);
      case Sent(request, now) => MarkSentLinked(w.s, request, now);
      case Headers(request, now) => MarkReceivingLinked(w.s, request, now);
      case DeliverLocked(request, prefix, length, now, early) =>
        DeliveryLinked(w, request, prefix, length, now, w.closed && !early);
      case DropGuard(request) => FinishLinked(w.s, request);
      case FailLocked => FailLinked(w.s, w.failing.value);
      case RetireAndAbort(request) => RetireLinked(w.s, request);
      case Scan(now) => PurgeLinked(w.s, now);
      case Replay(granted, now, early) => ReplayLinked(w, granted, now, w.closed && !early);
    }
  }

  lemma LaunchInserts(s: State, closed: bool, foreign: BudgetState, body: seq<byte>, replay: Option<nat>, now: nat)
    ensures var l := Launch(s, closed, foreign, body, replay, now);
      && (l.Refused? <==> closed || s.terminal.Some? || (replay.Some? && !Eligible(s, replay.value)))
      && (l.Launched? ==> l.request == l.state.nextRequest == s.nextRequest + 1
                          && l.state.pending.Keys == s.pending.Keys + {l.request}
                          && l.state.terminal == s.terminal)
  {
  }

  lemma QuietTerminal(w: World, step: Step)
    requires OneTerminal(w) && Enabled(w, step) && Quiet(step)
    ensures OneTerminal(Do(w, step))
    ensures w.recorded <= Do(w, step).recorded && (w.closed ==> Do(w, step).closed)
    ensures w.failing.Some? ==> Do(w, step).failing == w.failing || Do(w, step).recorded == [w.failing.value]
  {
  }

  lemma StepKeepsTerminal(w: World, step: Step)
    requires OneTerminal(w) && Enabled(w, step)
    ensures OneTerminal(Do(w, step))
    ensures w.recorded <= Do(w, step).recorded && (w.closed ==> Do(w, step).closed)
    ensures w.failing.Some? ==> Do(w, step).failing == w.failing || Do(w, step).recorded == [w.failing.value]
  {
    if Quiet(step) {
      QuietTerminal(w, step);
    } else if step.Send? {
      LaunchInserts(w.s, w.closed && !step.early, step.foreign, step.body, None, step.now);
    } else if step.Replay? {
      LaunchInserts(w.s, w.closed && !step.early, NOTHING, w.recovery.body, Some(w.recovery.sequence), step.now);
    }
  }

  lemma LaunchGuarded(w: World, l: Launched)
    requires Guarded(w)
    requires l.Launched? ==> l.request == l.state.nextRequest == w.s.nextRequest + 1
                             && l.state.pending.Keys == w.s.pending.Keys + {l.request}
    ensures Guarded(DoLaunch(w, l))
  {
  }

  lemma QuietGuarded(w: World, step: Step)
    requires Guarded(w) && Enabled(w, step) && Quiet(step)
    ensures Guarded(Do(w, step))
  {
  }

  lemma RecordGuarded(w: World, step: Step)
    requires Guarded(w) && Enabled(w, step) && !Quiet(step) && !step.Send? && !step.Replay?
    ensures Guarded(Do(w, step))
    ensures step.DropGuard? ==> step.request !in w.finished
  {
  }

  lemma StepKeepsGuards(w: World, step: Step)
    requires Guarded(w) && Enabled(w, step)
    ensures Guarded(Do(w, step))
    ensures step.DropGuard? ==> step.request !in w.finished
  {
    if step.Send? {
      LaunchInserts(w.s, w.closed && !step.early, step.foreign, step.body, None, step.now);
      LaunchGuarded(w, Launch(w.s, w.closed && !step.early, step.foreign, step.body, None, step.now));
    } else if step.Replay? {
      LaunchInserts(w.s, w.closed && !step.early, NOTHING, w.recovery.body, Some(w.recovery.sequence), step.now);
      LaunchGuarded(
        w, Launch(w.s, w.closed && !step.early, NOTHING, w.recovery.body, Some(w.recovery.sequence), step.now));
    } else if Quiet(step) {
      QuietGuarded(w, step);
    } else {
      RecordGuarded(w, step);
    }
    hide Guarded, Launch, DoLaunch, DoDeliver, Quiet;
  }

  lemma QuietAborted(w: World, step: Step)
    requires Aborted(w) && Enabled(w, step) && Quiet(step)
    ensures Aborted(Do(w, step))
  {
  }

  lemma StepKeepsAborted(w: World, step: Step)
    requires Sound(w) && Enabled(w, step)
    ensures Aborted(Do(w, step))
  {
    if Quiet(step) {
      QuietAborted(w, step);
    } else if step.Scan? {
      LivingExactly(w.s.history, step.now);
    }
  }

  lemma StepKeepsSound(w: World, step: Step)
    requires Sound(w) && Enabled(w, step)
    ensures Sound(Do(w, step))
  {
    StepKeepsLinked(w, step);
    StepKeepsTerminal(w, step);
    StepKeepsGuards(w, step);
    StepKeepsAborted(w, step);
  }

  /** Every state of every run is sound. */
  lemma {:induction false} RunsAreSound(ws: seq<World>, steps: seq<Step>, at: nat)
    requires FromStart(ws) && IsRun(ws, steps) && at < |ws|
    ensures Sound(ws[at])
    decreases at
  {
    if at > 0 {
      RunsAreSound(ws, steps, at - 1);
      StepKeepsSound(ws[at - 1], steps[at - 1]);
    }
  }

  /** The first terminal wins: what is stored once is the only one stored in the rest of the run. */
  lemma {:induction false} FirstTerminalWins(ws: seq<World>, steps: seq<Step>, start: nat, end: nat)
    requires FromStart(ws) && IsRun(ws, steps) && start <= end < |ws|
    ensures ws[start].recorded <= ws[end].recorded && |ws[end].recorded| <= 1
    ensures ws[start].failing.Some? && ws[end].failing.None? ==> ws[end].recorded == [ws[start].failing.value]
    ensures ws[start].failing.Some? && ws[end].failing.Some? ==> ws[end].failing == ws[start].failing
    decreases end
  {
    hide Do, Enabled, Linked, Guarded, Aborted;
    RunsAreSound(ws, steps, end);
    if end != start {
      FirstTerminalWins(ws, steps, start, end - 1);
      RunsAreSound(ws, steps, end - 1);
      StepKeepsTerminal(ws[end - 1], steps[end - 1]);
      assert ws[end - 1].closed ==> ws[end].closed;
      RunsAreSound(ws, steps, start);
    }
  }

  lemma RecordedAddsNothing(w: World, step: Step)
    requires Sound(w) && Enabled(w, step) && |w.recorded| > 0
    ensures Do(w, step).s.nextRequest == w.s.nextRequest && Do(w, step).s.pending.Keys <= w.s.pending.Keys
  {
  }

  /** After `fail` has run its locked section no request is ever inserted again: an insertion has either been
      seen and aborted by it, or is refused. */
  lemma {:induction false} NoLaunchAfterFail(ws: seq<World>, steps: seq<Step>, start: nat, end: nat)
    requires FromStart(ws) && IsRun(ws, steps) && start <= end < |ws| && |ws[start].recorded| > 0
    ensures ws[end].s.nextRequest == ws[start].s.nextRequest
    ensures ws[end].s.pending.Keys <= ws[start].s.pending.Keys <= ws[start].aborts
    decreases end
  {
    hide Do, Enabled, Linked, Guarded;
    RunsAreSound(ws, steps, end);
    if end != start {
      NoLaunchAfterFail(ws, steps, start, end - 1);
      FirstTerminalWins(ws, steps, start, end - 1);
      RunsAreSound(ws, steps, end - 1);
      RecordedAddsNothing(ws[end - 1], steps[end - 1]);
    }
  }

  /** Between the flip and that section one may still follow, by a caller that had read the flag. */
  lemma InsertionFollowsFlip(body: seq<byte>, t: Terminal) returns (ws: seq<World>, steps: seq<Step>)
    ensures FromStart(ws) && IsRun(ws, steps) && |ws| == 3
    ensures ws[1].closed && ws[1].s.pending == map[] && ws[2].s.pending.Keys == {1}
    ensures Enabled(ws[2], FailLocked) && Do(ws[2], FailLocked).aborts == {1}
  {
    var w0 := Initial(0);
    steps := [FailSwap(t), Send(body, NOTHING, 0, true)];
    var w1 := Do(w0, steps[0]);
    var w2 := Do(w1, steps[1]);
    LaunchInserts(w1.s, false, NOTHING, body, None, 0);
    ws := [w0, w1, w2];
  }

  lemma TerminalStays(w: World, step: Step)
    requires Sound(w) && Enabled(w, step) && w.s.terminal.Some? && !Takes(w, step)
    ensures Do(w, step).s.terminal == w.s.terminal && !Yields(w, step)
  {
    assert w.failing.None?;
  }

  /** From when the terminal is stored until the receiver takes it, no packet is handed on. */
  lemma {:induction false} NoPacketBeforeTerminal(ws: seq<World>, steps: seq<Step>, start: nat, end: nat)
    requires FromStart(ws) && IsRun(ws, steps) && start <= end < |ws|
    requires ws[start].s.terminal.Some?
    requires forall k {:trigger steps[k]} | start <= k < end :: !Takes(ws[k], steps[k])
    ensures ws[end].s.terminal == ws[start].s.terminal
    ensures forall k {:trigger steps[k]} | start <= k < end :: !Yields(ws[k], steps[k])
    decreases end
  {
    if end != start {
      NoPacketBeforeTerminal(ws, steps, start, end - 1);
      RunsAreSound(ws, steps, end - 1);
      TerminalStays(ws[end - 1], steps[end - 1]);
    }
  }

  /** Each request is inserted once and removed at most once; what is not yet removed still has the
      guard that will remove it. */
  lemma {:induction false} RemovedOnce(ws: seq<World>, steps: seq<Step>, first: nat, second: nat)
    requires FromStart(ws) && IsRun(ws, steps) && first < second < |steps|
    requires steps[first].DropGuard? && steps[second].DropGuard?
    ensures steps[first].request != steps[second].request
    ensures steps[first].request in ws[first].s.pending && steps[second].request in ws[second].s.pending
  {
    RunsAreSound(ws, steps, first);
    RunsAreSound(ws, steps, second);
    FinishedStays(ws, steps, first + 1, second);
  }

  lemma {:induction false} FinishedStays(ws: seq<World>, steps: seq<Step>, start: nat, end: nat)
    requires IsRun(ws, steps) && start <= end < |ws|
    ensures ws[start].finished <= ws[end].finished
    decreases end
  {
    if end != start {
      FinishedStays(ws, steps, start, end - 1);
      FinishedGrows(ws[end - 1], steps[end - 1]);
    }
  }

  lemma FinishedGrows(w: World, step: Step)
    requires Enabled(w, step)
    ensures w.finished <= Do(w, step).finished
  {
  }
}
