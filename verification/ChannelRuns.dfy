/** Whole runs of one channel: senders, request tasks, the receiver, `fail` and the recovery loop
    interleave at the boundaries of the sections that the channel's mutex protects. */
module ChannelRuns {
  import opened Bytes
  import opened Options
  import opened Budgets
  import opened Channel
  import opened Candidate

  /** Where the recovery loop is: asleep, past the purge, or holding a packet it means to replay. */
  datatype Recovery =
    | Asleep
    | Scanned(now: nat)
    | Chose(now: nat, at: nat, sequence: nat, body: seq<byte>)

  datatype World = World(
    s: State,
    clock: nat,
    closed: bool,
    failing: Option<Terminal>,  // the caller that flipped `closed` and has not yet run its locked section
    recorded: seq<Terminal>,    // every terminal ever stored
    guards: set<nat>,           // request tasks whose guard is alive
    finished: set<nat>,         // request tasks whose guard has been dropped
    aborts: set<nat>,           // requests whose abort handle has been collected
    sending: multiset<nat>,     // replies charged to the channel but not yet queued
    queue: seq<nat>,
    held: Option<nat>,          // a reply the receiver has taken off the queue and not yet passed on
    recovery: Recovery,
    launches: map<nat, nat>,    // replays ever launched, by entry sequence
    streak: map<nat, nat>)      // replays launched since the entry's reply prefix last changed

  /** A section is `early` when it read `closed` before the flip. The flip is outside the mutex, so such a
      section may still run after it, though not after the locked section of the `fail` that flipped. `foreign`
      is what the other channels held of the history budget when the section asked it for room. */
  datatype Step =
    | Tick(to: nat)
    | WaitForUpload(upload: Option<(nat, nat)>)
    | Send(body: seq<byte>, foreign: BudgetState, now: nat, early: bool)
    | Started(request: nat, generation: nat)
    | Sent(request: nat, now: nat)
    | Headers(request: nat, now: nat)
    | Progress(now: nat)
    | DeliverLocked(request: nat, prefix: seq<byte>, length: nat, now: nat, early: bool)
    | DeliverSend(request: nat)
    | DropGuard(request: nat)
    | FailSwap(terminal: Terminal)
    | FailLocked
    | TakeTerminal
    | TakeReply
    | PassOn
    | RetireAndAbort(request: nat)
    | NativeWrite(pending: bool)
    | DropReply(length: nat)
    | Scan(now: nat)
    | Pick
    | Replay(granted: bool, now: nat, early: bool)

  function Get(m: map<nat, nat>, k: nat): nat {
    if k in m then m[k] else 0
  }

  predicate MayBe(w: World, early: bool) {
    early ==> w.failing.Some?
  }

  predicate Enabled(w: World, step: Step) {
    match step
    case Tick(to) => w.clock <= to
    case Send(_, _, now, early) => now <= w.clock && MayBe(w, early)
    case Started(request, _) => request in w.guards
    case Sent(request, now) => request in w.guards && now <= w.clock
    case Headers(request, now) => request in w.guards && now <= w.clock
    case Progress(now) => now <= w.clock
    case DeliverLocked(request, _, _, now, early) => request in w.guards && now <= w.clock && MayBe(w, early)
    case DeliverSend(request) => request in w.sending
    case DropGuard(request) => request in w.guards
    case FailSwap(_) => true
    case FailLocked => w.failing.Some?
    case TakeReply => |w.queue| > 0 && w.held.None?
    case PassOn => w.held.Some?
    case Scan(now) => w.recovery.Asleep? && now <= w.clock
    case Pick => w.recovery.Scanned?
    case Replay(_, now, early) => w.recovery.Chose? && w.recovery.at <= now <= w.clock && MayBe(w, early)
    case _ => true
  }

  /** A launch inserts the pending record and creates the task's guard under one lock. */
  function DoLaunch(w: World, l: Launched): World {
    if l.Refused? then w else w.(s := l.state, guards := w.guards + {l.request})
  }

  const NOTHING := BudgetState(0, 0)

  function DoReplay(w: World, granted: bool, now: nat, closed: bool): World
    requires w.recovery.Chose?
  {
    var q := w.recovery.sequence;
    var awake := w.(recovery := Asleep);
    if !granted then awake
    else
      var l := Launch(w.s, closed, NOTHING, w.recovery.body, Some(q), now);
      if l.Refused? then awake
      else DoLaunch(awake, l).(launches := w.launches[q := Get(w.launches, q) + 1],
                               streak := w.streak[q := Get(w.streak, q) + 1])
  }

  /** The entry whose reply prefix this delivery changes, if any. */
  function PrefixChanged(s: State, request: nat, prefix: seq<byte>): Option<nat> {
    var q := EntryOf(s, request);
    if q.Some? && exists i ::
        0 <= i < |s.history| && s.history[i].sequence == q.value && s.history[i].replyId != Some(prefix)
    then q else None
  }

  function DoDeliver(w: World, request: nat, prefix: seq<byte>, length: nat, now: nat, closed: bool): World {
    var d := Deliver(w.s, closed, request, prefix, length, now);
    if d.Dropped? then w
    else
      var q := PrefixChanged(w.s, request, prefix);
      var streak := if q.Some? then w.streak[q.value := 0] else w.streak;
      w.(s := d.state, streak := streak,
         sending := if d.Accepted? then w.sending + multiset{request} else w.sending)
  }

  function Do(w: World, step: Step): World
    requires Enabled(w, step)
  {
    match step
    case Tick(to) => w.(clock := to)
    case WaitForUpload(upload) => w.(s := w.s.(waitingUpload := upload))
    case Send(body, foreign, now, early) => DoLaunch(w, Launch(w.s, w.closed && !early, foreign, body, None, now))
    case Started(request, generation) => w.(s := MarkStarted(w.s, request, generation))
    case Sent(request, now) => w.(s := MarkSent(w.s, request, now))
    case Headers(request, now) => w.(s := MarkReceiving(w.s, request, now))
    case Progress(now) => w.(s := w.s.(lastProgress := Some(now)))
    case DeliverLocked(request, prefix, length, now, early) =>
      DoDeliver(w, request, prefix, length, now, w.closed && !early)
    case DeliverSend(request) =>
      w.(sending := w.sending - multiset{request}, queue := if |w.queue| < 16 then w.queue + [request] else w.queue)
    case DropGuard(request) =>
      w.(s := Finish(w.s, request), guards := w.guards - {request}, finished := w.finished + {request})
    case FailSwap(terminal) => if w.closed then w else w.(closed := true, failing := Some(terminal))
    case FailLocked =>
      w.(s := Fail(w.s, w.failing.value), failing := None, recorded := w.recorded + [w.failing.value],
         aborts := w.aborts + w.s.pending.Keys)
    case TakeTerminal => w.(s := w.s.(terminal := None))
    case TakeReply => w.(queue := w.queue[1..], held := Some(w.queue[0]))
    case PassOn => w.(s := w.s.(terminal := None), held := None)
    case RetireAndAbort(request) =>
      w.(s := Retire(w.s, request), aborts := if request in w.s.pending then w.aborts + {request} else w.aborts)
    case NativeWrite(pending) => w.(s := w.s.(delivering := pending))
    case DropReply(length) => w.(s := ReleaseReply(w.s, length))
    case Scan(now) => w.(s := Purge(w.s, now), recovery := Scanned(now))
    case Pick =>
      (match Choose(w.s, w.recovery.now)
       case None => w.(recovery := Asleep)
       case Some(e) => w.(recovery := Chose(w.recovery.now, w.clock, e.sequence, e.body)))
    case Replay(granted, now, early) => DoReplay(w, granted, now, w.closed && !early)
  }

  /** The receiver hands a packet to the native side: it holds one and finds no terminal. */
  predicate Yields(w: World, step: Step) {
    step.PassOn? && w.s.terminal.None?
  }

  predicate Takes(w: World, step: Step) {
    (step.TakeTerminal? || step.PassOn?) && w.s.terminal.Some?
  }

  function Initial(now: nat): World {
    World(Fresh(now), now, false, None, [], {}, {}, {}, multiset{}, [], None, Asleep, map[], map[])
  }

  ghost predicate IsRun(ws: seq<World>, steps: seq<Step>) {
    && |ws| == |steps| + 1
    && (forall i {:trigger steps[i]} | 0 <= i < |steps| :: Enabled(ws[i], steps[i]) && ws[i + 1] == Do(ws[i], steps[i]))
  }

  ghost predicate FromStart(ws: seq<World>) {
    && |ws| > 0
    && exists now :: ws[0] == Initial(now)
  }
}
