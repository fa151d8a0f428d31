/** Closing one lane while its connection is still being made, lost or replaced, and while its channels still
    launch requests and fail. Each step is one section under the connection lock, the lock of the retired
    connection tasks, a channel's lock or the lock of the request tasks, or one change of an atomic flag. */
module LaneClose {
  import opened Options
  import opened Totals

  /** How far a closer has come; several may be at it. */
  datatype Phase =
    | Stored               // the closed flag is set
    | Unpublished          // the sender is gone and the current connection task is cancelled
    | DriversAborted       // the retired ones are cancelled as well
    | ChannelsFailed       // `fail` was called on every channel of the lane
    | RequestsAborted      // every registered request task is cancelled
    | DriverTaken          // the current connection task is in the closer's hands
    | DriversTaken         // and the retired ones
    | Drained              // and the request tasks; what is left is to wait for them

  /** `fail` first swaps a flag; the winner then owes its locked section. */
  datatype Fate =
    | Running
    | Failing(owner: Option<nat>)    // swapped by this closer, or by a task of the channel
    | Failed

  /** Which closer has taken the handle of a task, if any has and still holds it. */
  type Hands = nat -> Option<nat>

  /** Connection tasks, numbered as they are started. */
  datatype Drivers = Drivers(
    sender: bool,
    driver: Option<nat>,
    retired: set<nat>,
    spawned: nat,
    finished: set<nat>,
    aborted: set<nat>,
    awaited: Hands)

  /** Request tasks, numbered as they are started, and the channels they belong to. */
  datatype Requests = Requests(
    channels: map<nat, Fate>,
    launching: set<nat>,         // in `launch`, having found the flag not set
    registered: set<nat>,
    launched: nat,
    channelOf: map<nat, nat>,
    done: set<nat>,
    cancelled: set<nat>,
    gathered: Hands)

  datatype Lane = Lane(
    closed: bool,
    drivers: Drivers,
    requests: Requests,
    closers: map<nat, Phase>,
    abandoned: set<nat>)         // closers that were dropped while they waited, and their handles with them

  datatype Step =
    | Publish                    // the last section of a connect
    | Invalidate                 // of the current generation
    | SenderLost                 // the current task told the lane that it ended
    | Finish(task: nat)
    | ForgetFinished
    | OpenChannel(channel: nat)
    | LaunchCheck(channel: nat)
    | LaunchRegister(channel: nat)
    | FailSwap(channel: nat, owner: Option<nat>)
    | FailLocked(channel: nat)
    | RequestEnds(request: nat)
    | StartClose(closer: nat)
    | Proceed(closer: nat)
    | Abandon(closer: nat)

  function Fresh(): Lane {
    Lane(false, Drivers(false, None, {}, 0, {}, {}, Nobody()), Requests(map[], {}, {}, 0, map[], {}, {}, Nobody()),
        map[], {})
  }

  function Current(d: Drivers): set<nat> {
    if d.driver.Some? then {d.driver.value} else {}
  }

  /** The closer has called `fail` on every channel: it lost the swap, or has run its locked section. */
  predicate AllFailed(r: Requests, c: nat) {
    forall ch | ch in r.channels :: !r.channels[ch].Running? && r.channels[ch] != Failing(Some(c))
  }

  predicate OfDrivers(step: Step) {
    step.Publish? || step.Invalidate? || step.SenderLost? || step.Finish? || step.ForgetFinished?
  }

  predicate OfCloser(step: Step) {
    step.StartClose? || step.Proceed? || step.Abandon?
  }

  /** `launch` holds the channel's lock from its check on, and the locked section of `fail` waits for it; the
      swap of the flag does not. No channel is opened on a lane that is being closed: the pool gives out open
      lanes only. A closer takes all it takes without waiting in between, so it is dropped before or after. */
  predicate Enabled(lane: Lane, step: Step) {
    var r := lane.requests;
    match step
    case Finish(task) => task < lane.drivers.spawned
    case RequestEnds(request) => request < r.launched
    case OpenChannel(ch) => ch !in r.channels && !lane.closed
    case LaunchCheck(ch) => ch in r.channels && ch !in r.launching
    case LaunchRegister(ch) => ch in r.launching
    case FailSwap(ch, owner) =>
      ch in r.channels && (owner.Some? ==> owner.value in lane.closers && lane.closers[owner.value] == DriversAborted)
    case FailLocked(ch) => ch in r.channels && r.channels[ch].Failing? && ch !in r.launching
    case StartClose(c) => c !in lane.closers
    case Proceed(c) =>
      c in lane.closers && lane.closers[c] != Drained && (lane.closers[c] == DriversAborted ==> AllFailed(r, c))
    case Abandon(c) => c in lane.closers && lane.closers[c] == Drained && c !in lane.abandoned
    case _ => true
  }

  function Next(phase: Phase): Phase {
    match phase
    case Stored => Unpublished
    case Unpublished => DriversAborted
    case DriversAborted => ChannelsFailed
    case ChannelsFailed => RequestsAborted
    case RequestsAborted => DriverTaken
    case DriverTaken => DriversTaken
    case _ => Drained
  }

  function Nobody(): Hands {
    (t: nat) => None
  }

  function Handed(hands: Hands, tasks: set<nat>, c: nat): Hands {
    (t: nat) => if t in tasks then Some(c) else hands(t)
  }

  function Dropped(hands: Hands, c: nat): Hands {
    (t: nat) => if hands(t) == Some(c) then None else hands(t)
  }

  function CloseDrivers(d: Drivers, phase: Phase, c: nat): Drivers {
    match phase
    case Stored => d.(sender := false, aborted := d.aborted + Current(d))
    case Unpublished => d.(aborted := d.aborted + d.retired)
    case RequestsAborted => d.(driver := None, awaited := Handed(d.awaited, Current(d), c))
    case DriverTaken => d.(retired := {}, awaited := Handed(d.awaited, d.retired, c))
    case _ => d
  }

  function CloseRequests(r: Requests, phase: Phase, c: nat): Requests {
    match phase
    case ChannelsFailed => r.(cancelled := r.cancelled + r.registered)
    case DriversTaken => r.(registered := {}, gathered := Handed(r.gathered, r.registered, c))
    case _ => r
  }

  function DoDriver(d: Drivers, closed: bool, step: Step): Drivers
    requires OfDrivers(step)
  {
    match step
    case Publish =>
      if closed then d
      else
        d.(sender := true, driver := Some(d.spawned), spawned := d.spawned + 1,
           retired := d.retired - (if d.driver.Some? then d.finished else {}) + Current(d))
    case Invalidate =>
      if d.driver.None? then d.(sender := false)
      else
        d.(sender := false, driver := None, aborted := d.aborted + Current(d),
           retired := d.retired - d.finished + Current(d))
    case SenderLost => d.(sender := false)
    case Finish(task) => d.(finished := d.finished + {task})
    case ForgetFinished => d.(retired := d.retired - d.finished)
  }

  /** The request tasks of a channel. */
  function Of(r: Requests, ch: nat): set<nat> {
    set q | q in r.channelOf && r.channelOf[q] == ch
  }

  function DoChannel(r: Requests, step: Step): Requests
    requires !OfDrivers(step) && !OfCloser(step)
    requires (step.LaunchCheck? || step.FailSwap? || step.FailLocked?) ==> step.channel in r.channels
  {
    match step
    case OpenChannel(ch) => r.(channels := r.channels[ch := Running])
    case LaunchCheck(ch) => if r.channels[ch].Running? then r.(launching := r.launching + {ch}) else r
    case LaunchRegister(ch) =>
      r.(launching := r.launching - {ch}, registered := r.registered - r.done + {r.launched},
         channelOf := r.channelOf[r.launched := ch], launched := r.launched + 1)
    case FailSwap(ch, owner) => if r.channels[ch].Running? then r.(channels := r.channels[ch := Failing(owner)]) else r
    case FailLocked(ch) => r.(channels := r.channels[ch := Failed], cancelled := r.cancelled + Of(r, ch))
    case RequestEnds(request) => r.(done := r.done + {request})
  }

  function Do(lane: Lane, step: Step): Lane
    requires Enabled(lane, step)
  {
    if OfDrivers(step) then lane.(drivers := DoDriver(lane.drivers, lane.closed, step))
    else if !OfCloser(step) then lane.(requests := DoChannel(lane.requests, step))
    else match step
      case StartClose(c) => lane.(closed := true, closers := lane.closers[c := Stored])
      case Proceed(c) =>
        lane.(drivers := CloseDrivers(lane.drivers, lane.closers[c], c),
              requests := CloseRequests(lane.requests, lane.closers[c], c),
              closers := lane.closers[c := Next(lane.closers[c])])
      case Abandon(c) =>
        lane.(drivers := lane.drivers.(awaited := Dropped(lane.drivers.awaited, c)),
              requests := lane.requests.(gathered := Dropped(lane.requests.gathered, c)),
              abandoned := lane.abandoned + {c})
  }

  function Rank(phase: Phase): nat {
    match phase
    case Stored => 0
    case Unpublished => 1
    case DriversAborted => 2
    case ChannelsFailed => 3
    case RequestsAborted => 4
    case DriverTaken => 5
    case DriversTaken => 6
    case Drained => 7
  }

  /** How far the farthest closer has come: some closer is at this rank or beyond. */
  ghost predicate Reached(lane: Lane, rank: nat) {
    exists c :: c in lane.closers && Rank(lane.closers[c]) >= rank
  }

  lemma ReachedAfter(lane: Lane, step: Step, rank: nat)
    requires Enabled(lane, step) && rank > 0
    ensures Reached(Do(lane, step), rank) <==>
      Reached(lane, rank) || (step.Proceed? && Rank(Next(lane.closers[step.closer])) >= rank)
    ensures step.Proceed? && Rank(lane.closers[step.closer]) >= rank ==> Reached(lane, rank)
  {
    var v := Do(lane, step);
    if Reached(v, rank) {
      var b :| b in v.closers && Rank(v.closers[b]) >= rank;
      if step.Proceed? && b == step.closer {
      } else {
        assert b in lane.closers && lane.closers[b] == v.closers[b];
      }
    }
    if Reached(lane, rank) {
      var b :| b in lane.closers && Rank(lane.closers[b]) >= rank;
      assert b in v.closers && Rank(v.closers[b]) >= rank;
    }
    if step.Proceed? && Rank(Next(lane.closers[step.closer])) >= rank {
      assert v.closers[step.closer] == Next(lane.closers[step.closer]);
    }
  }

  lemma ReachedLess(lane: Lane, far: nat, near: nat)
    requires near <= far
    ensures Reached(lane, far) ==> Reached(lane, near)
  {
  }

  // ---------------------------------------------------------------- what holds whatever happens

  /** Of the connection tasks, when the farthest closer is past the first five ranks or not. */
  ghost predicate DriversGood(d: Drivers, unpublished: bool, aborted: bool, driverTaken: bool, driversTaken: bool) {
    && (forall t: nat | t < d.spawned :: t in d.finished || d.driver == Some(t) || t in d.retired || t in d.aborted)
    && (forall t: nat | d.awaited(t).Some? :: t < d.spawned && t in d.aborted)
    && (forall t | t in d.retired :: t < d.spawned)
    && (d.driver.Some? ==> d.driver.value < d.spawned)
    && (unpublished ==> !d.sender && Current(d) <= d.aborted)
    && (aborted ==> d.retired <= d.aborted)
    && (driverTaken ==> d.driver.None?)
    && (driversTaken ==> d.retired == {})
  }

  /** Of the request tasks: those of a channel whose `fail` is over are cancelled, and none is being launched
      there. */
  ghost predicate RequestsGood(r: Requests, failed: bool) {
    && (forall q: nat :: q < r.launched <==> q in r.channelOf)
    && (forall q | q in r.channelOf :: r.channelOf[q] in r.channels)
    && (forall q | q in r.registered :: q < r.launched)
    && (forall q | q in r.done :: q < r.launched)
    && (forall q: nat | r.gathered(q).Some? :: q < r.launched)
    && (forall ch | ch in r.launching :: ch in r.channels && r.channels[ch] != Failed)
    && (forall q | q in r.channelOf && r.channels[r.channelOf[q]] == Failed :: q in r.cancelled)
    && (failed ==> forall ch | ch in r.channels :: !r.channels[ch].Running?)
  }

  ghost predicate Good(lane: Lane) {
    && (lane.closers != map[] ==> lane.closed)
    && DriversGood(lane.drivers, Reached(lane, 1), Reached(lane, 2), Reached(lane, 5), Reached(lane, 6))
    && RequestsGood(lane.requests, Reached(lane, 3))
  }

  lemma CloseKeepsDrivers(d: Drivers, phase: Phase, c: nat, u: bool, a: bool, t: bool, ts: bool)
    requires DriversGood(d, u, a, t, ts)
    requires (Rank(phase) >= 1 ==> u) && (Rank(phase) >= 2 ==> a) && (Rank(phase) >= 5 ==> t)
        && (Rank(phase) >= 6 ==> ts)
    requires a ==> u
    ensures DriversGood(CloseDrivers(d, phase, c), u || Rank(Next(phase)) >= 1, a || Rank(Next(phase)) >= 2,
                        t || Rank(Next(phase)) >= 5, ts || Rank(Next(phase)) >= 6)
  {
  }

  lemma StepKeepsDrivers(d: Drivers, closed: bool, step: Step, u: bool, a: bool, t: bool, ts: bool)
    requires DriversGood(d, u, a, t, ts) && OfDrivers(step) && (u || a || t || ts ==> closed) && (ts ==> t)
    ensures DriversGood(DoDriver(d, closed, step), u, a, t, ts)
  {
  }

  lemma CloseKeepsRequests(r: Requests, phase: Phase, c: nat, failed: bool)
    requires RequestsGood(r, failed) && (Rank(phase) >= 3 ==> failed) && (phase == DriversAborted ==> AllFailed(r, c))
    ensures RequestsGood(CloseRequests(r, phase, c), failed || Rank(Next(phase)) >= 3)
  {
  }

  lemma StepKeepsRequests(lane: Lane, step: Step, failed: bool)
    requires RequestsGood(lane.requests, failed) && Enabled(lane, step) && !OfDrivers(step) && !OfCloser(step)
    requires failed ==> lane.closed
    ensures RequestsGood(DoChannel(lane.requests, step), failed)
  {
  }

  lemma AbandonKeeps(lane: Lane, c: nat, u: bool, a: bool, t: bool, ts: bool, failed: bool)
    requires DriversGood(lane.drivers, u, a, t, ts) && RequestsGood(lane.requests, failed) && Enabled(lane, Abandon(c))
    ensures DriversGood(Do(lane, Abandon(c)).drivers, u, a, t, ts)
    ensures RequestsGood(Do(lane, Abandon(c)).requests, failed)
  {
  }

  lemma ReachedMeansClosed(lane: Lane, rank: nat)
    requires lane.closers != map[] ==> lane.closed
    ensures Reached(lane, rank) ==> lane.closed
  {
  }

  lemma StepKeepsClosed(lane: Lane, step: Step)
    requires (lane.closers != map[] ==> lane.closed) && Enabled(lane, step)
    ensures var v := Do(lane, step); v.closers != map[] ==> v.closed
  {
  }

  lemma StepKeepsGood(lane: Lane, step: Step)
    requires Good(lane) && Enabled(lane, step)
    ensures Good(Do(lane, step))
  {
    StepKeepsClosed(lane, step);
    ReachedAfter(lane, step, 1);
    ReachedAfter(lane, step, 2);
    ReachedAfter(lane, step, 3);
    ReachedAfter(lane, step, 5);
    ReachedAfter(lane, step, 6);
    ReachedLess(lane, 6, 5);
    ReachedLess(lane, 5, 1);
    ReachedLess(lane, 2, 1);
    ReachedMeansClosed(lane, 1);
    ReachedMeansClosed(lane, 3);
    hide Reached, DriversGood, RequestsGood, DoDriver, DoChannel, CloseDrivers, CloseRequests;
    var u, a, f, t, ts := Reached(lane, 1), Reached(lane, 2), Reached(lane, 3), Reached(lane, 5), Reached(lane, 6);
    if OfDrivers(step) {
      StepKeepsDrivers(lane.drivers, lane.closed, step, u, a, t, ts);
    } else if step.Proceed? {
      CloseKeepsDrivers(lane.drivers, lane.closers[step.closer], step.closer, u, a, t, ts);
      CloseKeepsRequests(lane.requests, lane.closers[step.closer], step.closer, f);
    } else if step.Abandon? {
      AbandonKeeps(lane, step.closer, u, a, t, ts, f);
    } else if !step.StartClose? {
      StepKeepsRequests(lane, step, f);
    }
  }

  ghost predicate IsRun(lanes: seq<Lane>, steps: seq<Step>) {
    && |lanes| == |steps| + 1 && lanes[0] == Fresh()
    && (forall i {:trigger steps[i]} | 0 <= i < |steps| ::
         Enabled(lanes[i], steps[i]) && lanes[i + 1] == Do(lanes[i], steps[i]))
  }

  lemma {:induction false} RunsAreGood(lanes: seq<Lane>, steps: seq<Step>, at: nat)
    requires IsRun(lanes, steps) && at < |lanes|
    ensures Good(lanes[at])
    decreases at
  {
    if at > 0 {
      RunsAreGood(lanes, steps, at - 1);
      hide Good, Enabled, Do;
      StepKeepsGood(lanes[at - 1], steps[at - 1]);
    }
  }

  /** The locked section that the `fail` of its channel still owes will cancel this task. */
  predicate AboutToBeCancelled(r: Requests, q: nat) {
    q in r.channelOf && r.channelOf[q] in r.channels && r.channels[r.channelOf[q]].Failing?
        && q in Of(r, r.channelOf[q])
  }

  /** What the source promises whatever else happens: once a closer has cancelled the registered request tasks,
      every unfinished connection task is cancelled; and so is every unfinished request task, unless the
      `fail` of its channel, begun by someone else, still owes its locked section, which will cancel it. */
  lemma EveryTaskIsCancelled(lanes: seq<Lane>, steps: seq<Step>, at: nat)
    requires IsRun(lanes, steps) && at < |lanes| && Reached(lanes[at], 4)
    ensures var d := lanes[at].drivers;
      !d.sender && forall t: nat | t < d.spawned && t !in d.finished :: t in d.aborted
    ensures var r := lanes[at].requests;
      forall q: nat | q < r.launched && q !in r.done :: q in r.cancelled || AboutToBeCancelled(r, q)
  {
    RunsAreGood(lanes, steps, at);
    ReachedLess(lanes[at], 4, 1);
    ReachedLess(lanes[at], 4, 2);
    ReachedLess(lanes[at], 4, 3);
  }

  /** Once a closer is past the section that takes the sender away, no sender is ever published again and no
      connection task started, however far a connect had come. */
  lemma {:induction false} NeverPublishedAgain(lanes: seq<Lane>, steps: seq<Step>, start: nat, end: nat)
    requires IsRun(lanes, steps) && start <= end < |lanes| && Reached(lanes[start], 1)
    ensures Reached(lanes[end], 1) && !lanes[end].drivers.sender
        && lanes[end].drivers.spawned == lanes[start].drivers.spawned
    decreases end
  {
    RunsAreGood(lanes, steps, end);
    if end != start {
      NeverPublishedAgain(lanes, steps, start, end - 1);
      RunsAreGood(lanes, steps, end - 1);
      hide Good, Enabled, Do, Reached, DriversGood, RequestsGood;
      var w, step := lanes[end - 1], steps[end - 1];
      ReachedAfter(w, step, 1);
      ReachedMeansClosed(w, 1);
      SpawnsNothing(w, step);
    }
  }

  lemma SpawnsNothing(lane: Lane, step: Step)
    requires lane.closed && Enabled(lane, step)
    ensures Do(lane, step).drivers.spawned == lane.drivers.spawned
  {
  }

  lemma LaunchesShrink(lane: Lane, step: Step)
    requires Enabled(lane, step) && lane.closed
    requires forall ch | ch in lane.requests.channels :: !lane.requests.channels[ch].Running?
    ensures var (r, v) := (lane.requests, Do(lane, step).requests);
      v.launching <= r.launching && v.launched + |v.launching| == r.launched + |r.launching|
  {
  }

  lemma FailedStaysFailed(lane: Lane, step: Step)
    requires Good(lane) && Enabled(lane, step) && Reached(lane, 3)
    ensures Reached(Do(lane, step), 3)
    ensures var (r, v) := (lane.requests, Do(lane, step).requests);
      v.launching <= r.launching && v.launched + |v.launching| == r.launched + |r.launching|
  {
    ReachedAfter(lane, step, 3);
    ReachedMeansClosed(lane, 3);
    assert forall ch | ch in lane.requests.channels :: !lane.requests.channels[ch].Running?;
    hide Good, Enabled, Do, Reached;
    LaunchesShrink(lane, step);
  }

  /** Once `fail` was called on every channel only a launch already past its check starts a request, once. */
  lemma {:induction false} OnlyStraddlersLaunch(lanes: seq<Lane>, steps: seq<Step>, start: nat, end: nat)
    requires IsRun(lanes, steps) && start <= end < |lanes| && Reached(lanes[start], 3)
    ensures var (r, v) := (lanes[start].requests, lanes[end].requests);
      && Reached(lanes[end], 3) && v.launching <= r.launching
      && r.launched <= v.launched <= r.launched + |r.launching|
           && v.launched + |v.launching| == r.launched + |r.launching|
    decreases end
  {
    hide Good, Enabled, Do, Reached;
    if end != start {
      OnlyStraddlersLaunch(lanes, steps, start, end - 1);
      RunsAreGood(lanes, steps, end - 1);
      FailedStaysFailed(lanes[end - 1], steps[end - 1]);
      SubsetSize(lanes[end].requests.launching, lanes[start].requests.launching);
    }
  }

  // ---------------------------------------------------------------- who waits for what

  predicate DriverAwaited(d: Drivers, t: nat) {
    t in d.finished || d.awaited(t).Some?
  }

  predicate RequestAwaited(r: Requests, q: nat) {
    q in r.done || r.gathered(q).Some?
  }

  /** Every unfinished task that there ever was is in the hands of a closer that waits for it. */
  ghost predicate AllAwaited(lane: Lane) {
    && (forall t: nat | t < lane.drivers.spawned :: DriverAwaited(lane.drivers, t))
    && (forall q: nat | q < lane.requests.launched :: RequestAwaited(lane.requests, q))
  }

  /** Nothing is in these hands but what has ended. */
  predicate HandsOver(lane: Lane, c: nat) {
    && (forall t | 0 <= t < lane.drivers.spawned && lane.drivers.awaited(t) == Some(c) :: t in lane.drivers.finished)
    && (forall q | 0 <= q < lane.requests.launched && lane.requests.gathered(q) == Some(c) :: q in lane.requests.done)
  }

  /** The two ways to lose a task: its closer is dropped, and a launch that had found the flag not set
      registers its task when a closer has already emptied the lane. */
  ghost predicate Orderly(lane: Lane, step: Step) {
    match step
    case Abandon(c) => HandsOver(lane, c)
    case LaunchRegister(_) => !Reached(lane, 7)
    case _ => true
  }

  predicate DriverHeld(d: Drivers, t: nat) {
    DriverAwaited(d, t) || d.driver == Some(t) || t in d.retired
  }

  predicate RequestHeld(r: Requests, q: nat) {
    RequestAwaited(r, q) || q in r.registered
  }

  /** Every task has ended, is on the lane's own lists, or is in someone's hands. */
  ghost predicate Held(lane: Lane) {
    && (forall t: nat | t < lane.drivers.spawned :: DriverHeld(lane.drivers, t))
    && (forall q: nat | q < lane.requests.launched :: RequestHeld(lane.requests, q))
  }

  ghost predicate Covered(lane: Lane) {
    Held(lane) && (Reached(lane, 7) ==> lane.requests.registered == {})
  }

  lemma DriverStaysHeld(lane: Lane, step: Step, t: nat)
    requires Enabled(lane, step) && Orderly(lane, step) && t < Do(lane, step).drivers.spawned
    requires t < lane.drivers.spawned ==> DriverHeld(lane.drivers, t)
    ensures DriverHeld(Do(lane, step).drivers, t)
  {
  }

  lemma RequestStaysHeld(lane: Lane, step: Step, q: nat)
    requires Enabled(lane, step) && Orderly(lane, step) && q < Do(lane, step).requests.launched
    requires q < lane.requests.launched ==> RequestHeld(lane.requests, q)
    ensures RequestHeld(Do(lane, step).requests, q)
  {
  }

  lemma EmptyStays(lane: Lane, step: Step)
    requires Enabled(lane, step) && Orderly(lane, step) && (Reached(lane, 7) ==> lane.requests.registered == {})
    ensures Reached(Do(lane, step), 7) ==> Do(lane, step).requests.registered == {}
  {
    ReachedAfter(lane, step, 7);
    hide Reached;
  }

  lemma StepKeepsCovered(lane: Lane, step: Step)
    requires Covered(lane) && Enabled(lane, step) && Orderly(lane, step)
    ensures Covered(Do(lane, step))
  {
    EmptyStays(lane, step);
    forall t: nat | t < Do(lane, step).drivers.spawned ensures DriverHeld(Do(lane, step).drivers, t) {
      DriverStaysHeld(lane, step, t);
    }
    forall q: nat | q < Do(lane, step).requests.launched ensures RequestHeld(Do(lane, step).requests, q) {
      RequestStaysHeld(lane, step, q);
    }
  }

  lemma {:induction false} OrderlyRunsCover(lanes: seq<Lane>, steps: seq<Step>, at: nat)
    requires IsRun(lanes, steps) && at < |lanes| && forall i {:trigger steps[i]} | 0 <= i < at ::
        Orderly(lanes[i], steps[i])
    ensures Covered(lanes[at])
    decreases at
  {
    if at > 0 {
      OrderlyRunsCover(lanes, steps, at - 1);
      hide Covered, Enabled, Do, Orderly;
      StepKeepsCovered(lanes[at - 1], steps[at - 1]);
    }
  }

  lemma DrainedMeansAwaited(lane: Lane)
    requires Good(lane) && Covered(lane) && Reached(lane, 7)
    ensures AllAwaited(lane)
  {
    ReachedLess(lane, 7, 5);
    ReachedLess(lane, 7, 6);
    forall t: nat | t < lane.drivers.spawned ensures DriverAwaited(lane.drivers, t) {
      assert DriverHeld(lane.drivers, t);
    }
    forall q: nat | q < lane.requests.launched ensures RequestAwaited(lane.requests, q) {
      assert RequestHeld(lane.requests, q);
    }
  }

  lemma DropLoses(lane: Lane, c: nat)
    requires Good(lane) && Enabled(lane, Abandon(c)) && !HandsOver(lane, c)
    ensures !AllAwaited(Do(lane, Abandon(c)))
  {
    var v := Do(lane, Abandon(c));
    if t: nat :| t < lane.drivers.spawned && lane.drivers.awaited(t) == Some(c) && t !in lane.drivers.finished {
      assert !DriverAwaited(v.drivers, t);
    } else {
      var q: nat :| q < lane.requests.launched && lane.requests.gathered(q) == Some(c) && q !in lane.requests.done;
      assert !RequestAwaited(v.requests, q);
    }
  }

  lemma LateLaunchLoses(lane: Lane, ch: nat)
    requires Good(lane) && Enabled(lane, LaunchRegister(ch))
    ensures !AllAwaited(Do(lane, LaunchRegister(ch)))
  {
    var v := Do(lane, LaunchRegister(ch));
    assert !RequestAwaited(v.requests, lane.requests.launched);
  }

  lemma DisorderIsLate(lane: Lane, step: Step)
    requires Good(lane) && Enabled(lane, step) && !Orderly(lane, step)
    ensures Reached(lane, 7)
  {
    if step.Abandon? {
      assert Rank(lane.closers[step.closer]) >= 7;
    }
  }

  /** A step that is not orderly comes after a closer has drained the lane, and leaves a task to nobody. */
  lemma DisorderLoses(lane: Lane, step: Step)
    requires Good(lane) && Enabled(lane, step) && !Orderly(lane, step)
    ensures Reached(Do(lane, step), 7) && !AllAwaited(Do(lane, step))
  {
    DisorderIsLate(lane, step);
    ReachedAfter(lane, step, 7);
    hide Good, Do, Reached, AllAwaited;
    if step.Abandon? {
      DropLoses(lane, step.closer);
    } else {
      LateLaunchLoses(lane, step.channel);
    }
  }

  /** In a run, every unfinished task is awaited from when the lane is first drained, exactly when no closer
      was dropped with unfinished tasks in its hands and no launch registered after the draining. */
  lemma EveryTaskIsAwaited(lanes: seq<Lane>, steps: seq<Step>)
    requires IsRun(lanes, steps)
    ensures (forall at: nat | at < |lanes| && Reached(lanes[at], 7) :: AllAwaited(lanes[at])) <==>
      (forall i: nat {:trigger steps[i]} | i < |steps| :: Orderly(lanes[i], steps[i]))
  {
    if forall i: nat {:trigger steps[i]} | i < |steps| :: Orderly(lanes[i], steps[i]) {
      forall at: nat | at < |lanes| && Reached(lanes[at], 7) ensures AllAwaited(lanes[at]) {
        OrderlyRunsCover(lanes, steps, at);
        RunsAreGood(lanes, steps, at);
        DrainedMeansAwaited(lanes[at]);
      }
    } else {
      var i: nat :| i < |steps| && !Orderly(lanes[i], steps[i]);
      RunsAreGood(lanes, steps, i);
      DisorderLoses(lanes[i], steps[i]);
      assert lanes[i + 1] == Do(lanes[i], steps[i]);
    }
  }

  // ---------------------------------------------------------------- the pool's close

  /** A closer that was not dropped and has waited for everything it took. */
  predicate Returned(lane: Lane, c: nat) {
    c in lane.closers && lane.closers[c] == Drained && c !in lane.abandoned && HandsOver(lane, c)
  }

  /** The test by which the pool stops tracking a lane: no channel on its list is alive, and its other lists hold
      nothing unfinished. What was handed out it does not see; nor does it see any channel once a closer has
      cleared the list, right after it took the retired connection tasks. */
  ghost predicate Quiescent(lane: Lane) {
    var (d, r) := (lane.drivers, lane.requests);
    && lane.closed && (Reached(lane, 6) || NoneAlive(r))
    && Current(d) <= d.finished && d.retired <= d.finished && r.registered <= r.done
  }

  predicate NoneAlive(r: Requests) {
    r.launching == {} && forall ch | ch in r.channels :: !r.channels[ch].Running?
  }

  ghost predicate AllEnded(lane: Lane) {
    && (forall t: nat | t < lane.drivers.spawned :: t in lane.drivers.finished)
    && (forall q: nat | q < lane.requests.launched :: q in lane.requests.done)
  }

  lemma QuiescentStep(lane: Lane, step: Step)
    requires Good(lane) && Quiescent(lane) && lane.requests.launching == {} && Enabled(lane, step)
    ensures Quiescent(Do(lane, step)) && Do(lane, step).requests.launching == {}
    ensures Do(lane, step).drivers.spawned == lane.drivers.spawned
    ensures Do(lane, step).requests.launched == lane.requests.launched
  {
    ReachedLess(lane, 6, 3);
    ReachedAfter(lane, step, 6);
    hide Reached;
  }

  /** A lane that was reaped while no launch was under way stays quiet: nothing starts on it any more. */
  lemma {:induction false} QuiescentStays(lanes: seq<Lane>, steps: seq<Step>, start: nat, end: nat)
    requires IsRun(lanes, steps) && start <= end < |lanes|
    requires Quiescent(lanes[start]) && lanes[start].requests.launching == {}
    ensures Quiescent(lanes[end]) && lanes[end].requests.launching == {}
    ensures lanes[end].drivers.spawned == lanes[start].drivers.spawned
    ensures lanes[end].requests.launched == lanes[start].requests.launched
    decreases end
  {
    if end != start {
      QuiescentStays(lanes, steps, start, end - 1);
      RunsAreGood(lanes, steps, end - 1);
      hide Good, Quiescent, Enabled, Do;
      QuiescentStep(lanes[end - 1], steps[end - 1]);
    }
  }

  /** What a reaped lane can still start is exactly what is being launched where the test no longer looks. */
  lemma QuiescentExactly(lane: Lane)
    requires Good(lane) && Quiescent(lane)
    ensures lane.requests.launching == {} <==>
      forall step | Enabled(lane, step) ::
        && Do(lane, step).drivers.spawned == lane.drivers.spawned
        && Do(lane, step).requests.launched == lane.requests.launched
    ensures lane.requests.launching != {} ==> Reached(lane, 6)
  {
    if lane.requests.launching == {} {
      forall step | Enabled(lane, step)
        ensures Do(lane, step).drivers.spawned == lane.drivers.spawned
        ensures Do(lane, step).requests.launched == lane.requests.launched
      {
        QuiescentStep(lane, step);
      }
    } else {
      var ch :| ch in lane.requests.launching;
      assert Enabled(lane, LaunchRegister(ch));
      assert Do(lane, LaunchRegister(ch)).requests.launched == lane.requests.launched + 1;
    }
  }

  /** A closer that may have handles: it has begun to take them, and was not dropped. */
  predicate Takes(lane: Lane, c: nat) {
    c in lane.closers && c !in lane.abandoned && Rank(lane.closers[c]) >= 5
  }

  /** What is in anyone's hands is in the hands of such a closer. */
  ghost predicate HandsLive(lane: Lane) {
    && (forall t: nat | lane.drivers.awaited(t).Some? :: Takes(lane, lane.drivers.awaited(t).value))
    && (forall q: nat | lane.requests.gathered(q).Some? :: Takes(lane, lane.requests.gathered(q).value))
    && (forall c | c in lane.abandoned :: c in lane.closers && lane.closers[c] == Drained)
  }

  lemma TakersStay(lane: Lane, step: Step, c: nat)
    requires Takes(lane, c) && Enabled(lane, step) && step != Abandon(c)
    ensures Takes(Do(lane, step), c)
  {
  }

  /** Handles are handed over only as a closer goes on to take them. */
  lemma HandsChange(lane: Lane, step: Step)
    requires Enabled(lane, step)
    ensures forall t: nat | Do(lane, step).drivers.awaited(t).Some? ::
              var c := Do(lane, step).drivers.awaited(t).value;
              (lane.drivers.awaited(t) == Some(c) && step != Abandon(c)) || Takes(Do(lane, step), c)
              || (step == Proceed(c) && c in lane.abandoned)
    ensures forall q: nat | Do(lane, step).requests.gathered(q).Some? ::
              var c := Do(lane, step).requests.gathered(q).value;
              (lane.requests.gathered(q) == Some(c) && step != Abandon(c)) || Takes(Do(lane, step), c)
              || (step == Proceed(c) && c in lane.abandoned)
  {
  }

  lemma StepKeepsHands(lane: Lane, step: Step)
    requires HandsLive(lane) && Enabled(lane, step)
    ensures HandsLive(Do(lane, step))
  {
    var v := Do(lane, step);
    HandsChange(lane, step);
    forall t: nat | v.drivers.awaited(t).Some? ensures Takes(v, v.drivers.awaited(t).value) {
      if lane.drivers.awaited(t) == v.drivers.awaited(t) && step != Abandon(v.drivers.awaited(t).value) {
        TakersStay(lane, step, v.drivers.awaited(t).value);
      }
    }
    forall q: nat | v.requests.gathered(q).Some? ensures Takes(v, v.requests.gathered(q).value) {
      if lane.requests.gathered(q) == v.requests.gathered(q) && step != Abandon(v.requests.gathered(q).value) {
        TakersStay(lane, step, v.requests.gathered(q).value);
      }
    }
  }

  lemma {:induction false} RunsKeepHands(lanes: seq<Lane>, steps: seq<Step>, at: nat)
    requires IsRun(lanes, steps) && at < |lanes|
    ensures HandsLive(lanes[at])
    decreases at
  {
    if at > 0 {
      RunsKeepHands(lanes, steps, at - 1);
      hide HandsLive, Enabled, Do;
      StepKeepsHands(lanes[at - 1], steps[at - 1]);
    }
  }

  /** A closer that is through: it waited for what it took, or was dropped, or only aborts, as `Lane::close` does
      after a failed or cancelled setup, and takes nothing. */
  predicate Through(lane: Lane, c: nat)
    requires c in lane.closers
  {
    c in lane.abandoned || Returned(lane, c) || Rank(lane.closers[c]) <= 4
  }

  /** When the pool's `close` returns, each lane it ever had was drained by a closer or reaped, and every other
      closer is through with it. If every step was orderly, all its tasks have ended. In any case a drained lane's
      have exactly if each was awaited, and a reaped lane's exactly if each was on its lists or awaited. */
  lemma PoolCloseIsComplete(lanes: seq<Lane>, steps: seq<Step>, at: nat)
    requires IsRun(lanes, steps) && at < |lanes|
    requires (exists c :: Returned(lanes[at], c)) || Quiescent(lanes[at])
    requires forall c | c in lanes[at].closers :: Through(lanes[at], c)
    ensures (forall i {:trigger steps[i]} | 0 <= i < at :: Orderly(lanes[i], steps[i])) ==> AllEnded(lanes[at])
    ensures AllEnded(lanes[at]) <==> AllAwaited(lanes[at])
    ensures Quiescent(lanes[at]) ==> (AllEnded(lanes[at]) <==> Held(lanes[at]))
  {
    var lane := lanes[at];
    RunsKeepHands(lanes, steps, at);
    RunsAreGood(lanes, steps, at);
    if forall i {:trigger steps[i]} | 0 <= i < at :: Orderly(lanes[i], steps[i]) {
      OrderlyRunsCover(lanes, steps, at);
      if c :| Returned(lane, c) {
        assert Reached(lane, 7);
        DrainedMeansAwaited(lane);
      }
      HeldMeansEnded(lane);
    }
    if AllAwaited(lane) || (Quiescent(lane) && Held(lane)) {
      HeldMeansEnded(lane);
    }
  }

  lemma HeldMeansEnded(lane: Lane)
    requires HandsLive(lane) && (AllAwaited(lane) || (Quiescent(lane) && Held(lane)))
    requires forall c | c in lane.closers :: Through(lane, c)
    ensures AllEnded(lane)
  {
    forall t: nat | t < lane.drivers.spawned ensures t in lane.drivers.finished {
      assert DriverAwaited(lane.drivers, t) || DriverHeld(lane.drivers, t);
      assert lane.drivers.awaited(t).Some? ==> Returned(lane, lane.drivers.awaited(t).value);
    }
    forall q: nat | q < lane.requests.launched ensures q in lane.requests.done {
      assert RequestAwaited(lane.requests, q) || RequestHeld(lane.requests, q);
      assert lane.requests.gathered(q).Some? ==> Returned(lane, lane.requests.gathered(q).value);
    }
  }

  // ---------------------------------------------------------------- two runs that lose a task

  ghost predicate Reachable(lane: Lane) {
    exists lanes, steps :: IsRun(lanes, steps) && lanes[|lanes| - 1] == lane
  }

  lemma FreshReachable()
    ensures Reachable(Fresh())
  {
    assert IsRun([Fresh()], []);
    assert [Fresh()][|[Fresh()]| - 1] == Fresh();
  }

  lemma ReachableOn(lane: Lane, step: Step)
    requires Reachable(lane) && Enabled(lane, step)
    ensures Reachable(Do(lane, step))
  {
    var lanes, steps :| IsRun(lanes, steps) && lanes[|lanes| - 1] == lane;
    var more := lanes + [Do(lane, step)];
    assert IsRun(more, steps + [step]) && more[|more| - 1] == Do(lane, step);
  }

  /** A closer's two phases from `phase` on. */
  lemma TwoPhases(w: Lane, c: nat, phase: Phase) returns (v: Lane)
    requires Reachable(w) && c in w.closers && w.closers[c] == phase && Rank(phase) <= 5
    requires 1 <= Rank(phase) <= 2 ==> AllFailed(w.requests, c)
    ensures Reachable(v) && v.closed == w.closed && v.abandoned == w.abandoned
        && v.closers == w.closers[c := Next(Next(phase))]
    ensures v.drivers == CloseDrivers(CloseDrivers(w.drivers, phase, c), Next(phase), c)
    ensures v.requests == CloseRequests(CloseRequests(w.requests, phase, c), Next(phase), c)
  {
    hide Reachable;
    ReachableOn(w, Proceed(c));
    var u := Do(w, Proceed(c));
    assert u.closers[c] == Next(phase) && Rank(Next(phase)) == Rank(phase) + 1;
    ReachableOn(u, Proceed(c));
    v := Do(u, Proceed(c));
    assert v.closers == w.closers[c := Next(Next(phase))];
  }

  /** A closer that meets nobody goes all the way. */
  lemma CloseThrough(w: Lane, c: nat) returns (v: Lane)
    requires Reachable(w) && c !in w.closers && AllFailed(w.requests, c)
    ensures Reachable(v) && v.closed && v.abandoned == w.abandoned && v.closers == w.closers[c := Drained]
    ensures !v.drivers.sender && v.drivers.driver.None? && v.drivers.retired == {}
    ensures v.drivers.spawned == w.drivers.spawned && v.drivers.finished == w.drivers.finished
    ensures v.drivers.aborted == w.drivers.aborted + Current(w.drivers) + w.drivers.retired
    ensures v.drivers.awaited == Handed(Handed(w.drivers.awaited, Current(w.drivers), c), w.drivers.retired, c)
    ensures v.requests == w.requests.(registered := {}, cancelled := w.requests.cancelled + w.requests.registered,
                                      gathered := Handed(w.requests.gathered, w.requests.registered, c))
  {
    hide Reachable, AllFailed;
    ReachableOn(w, StartClose(c));
    v := Do(w, StartClose(c));
    v := TwoPhases(v, c, Stored);
    v := TwoPhases(v, c, DriversAborted);
    v := TwoPhases(v, c, RequestsAborted);
    ReachableOn(v, Proceed(c));
    v := Do(v, Proceed(c));
    assert v.closers == w.closers[c := Drained];
  }

  /** The client that evicted the lane is dropped while it waits for the connection task: the lane is reaped,
      a second closer finds nothing and returns, and the task, though cancelled, has not ended and nobody
      waits for it. */
  lemma DroppedCloserLosesTask() returns (lane: Lane)
    ensures Reachable(lane) && Returned(lane, 2) && Quiescent(lane)
    ensures forall c | c in lane.closers :: c in lane.abandoned || Returned(lane, c)
    ensures lane.drivers.spawned == 1 && 0 !in lane.drivers.finished && lane.drivers.awaited(0).None?
        && 0 in lane.drivers.aborted
  {
    var w := DropCloser();
    hide Reachable;
    lane := CloseThrough(w, 2);
  }

  lemma DropCloser() returns (lane: Lane)
    ensures Reachable(lane) && lane.closed && lane.closers == map[1 := Drained] && lane.abandoned == {1}
    ensures lane.requests.channels == map[] && lane.requests.launching == {} && lane.requests.launched == 0
    ensures lane.requests.registered == {} && lane.drivers.driver.None? && lane.drivers.retired == {}
    ensures lane.drivers.spawned == 1 && lane.drivers.finished == {} && lane.drivers.awaited(0).None?
        && 0 in lane.drivers.aborted
  {
    FreshReachable();
    hide Reachable;
    ReachableOn(Fresh(), Publish);
    var w := CloseThrough(Do(Fresh(), Publish), 1);
    assert w.drivers.awaited(0) == Some(1);
    ReachableOn(w, Abandon(1));
    lane := Do(w, Abandon(1));
  }

  /** A task of the channel has swapped the flag while a launch that had found it not set holds the lock: the
      closer loses the swap and goes on, and the launch registers when the lane is drained. */
  lemma StraddlingLaunchIsLost() returns (lane: Lane)
    ensures Reachable(lane) && Returned(lane, 1) && forall c | c in lane.closers :: Returned(lane, c)
    ensures lane.requests.launched == 1 && 0 !in lane.requests.done && lane.requests.gathered(0).None?
    ensures 0 !in lane.requests.cancelled && AboutToBeCancelled(lane.requests, 0)
  {
    var w := Straddle();
    hide Reachable;
    var v := CloseThrough(w, 1);
    assert v.requests.launching == {5} && v.requests.channelOf == map[] && v.requests.cancelled == {};
    ReachableOn(v, LaunchRegister(5));
    lane := Do(v, LaunchRegister(5));
    assert lane.requests.channelOf == map[0 := 5];
  }

  lemma Straddle() returns (lane: Lane)
    ensures Reachable(lane) && lane.closers == map[] && lane.abandoned == {} && lane.drivers == Fresh().drivers
    ensures lane.requests == Fresh().requests.(channels := map[5 := Failing(None)], launching := {5})
  {
    FreshReachable();
    hide Reachable;
    ReachableOn(Fresh(), OpenChannel(5));
    var a := Do(Fresh(), OpenChannel(5));
    ReachableOn(a, LaunchCheck(5));
    var b := Do(a, LaunchCheck(5));
    ReachableOn(b, FailSwap(5, None));
    lane := Do(b, FailSwap(5, None));
  }
}
