/** Memory charged for buffered replies: to the process first, then to the lane, and, once queued, to
    the channel. Each step is one locked section of one counter. */
module Replies {
  import opened Limits
  import opened Options
  import opened Budgets
  import opened Totals

  const PROCESS_LIMITS := BudgetState(64, 2 * MAX_PACKET)

  /** One reply being received, queued or read. `growing` is what the process already granted and the
      lane has not yet been asked for. */
  datatype Reply = Reply(
    lane: nat, laneBytes: nat,
    charged: bool, processBytes: nat,
    growing: Option<nat>,
    channel: nat, channelBytes: nat,
    dropping: bool)

  datatype World = World(
    replies: map<nat, Reply>,
    process: BudgetState,
    lanes: map<nat, nat>,
    channels: map<nat, nat>)

  datatype Step =
    | ChargeProcess(reply: nat, lane: nat, bytes: nat)
    | ExtendProcess(reply: nat, bytes: nat)
    | ChargeLane(reply: nat)
    | Queue(reply: nat, channel: nat)
    | BeginDrop(reply: nat)
    | DropLane(reply: nat)
    | DropProcess(reply: nat)
    | DropChannel(reply: nat)

  function At(m: map<nat, nat>, k: nat): nat {
    if k in m then m[k] else 0
  }

  predicate Open(w: World, id: nat) {
    id in w.replies && !w.replies[id].dropping
  }

  /** The lane's own bound, tested after the process granted the bytes. */
  predicate LaneOverflows(w: World, r: Reply) {
    r.growing.Some? && At(w.lanes, r.lane) + r.growing.value > MAX_LANE_REPLY_BYTES
  }

  predicate ChannelOverflows(w: World, r: Reply, channel: nat) {
    At(w.channels, channel) + r.laneBytes > MAX_CHANNEL_REPLY_BYTES
  }

  predicate Enabled(w: World, step: Step) {
    match step
    case ChargeProcess(id, _, bytes) => id !in w.replies && w.process.Admits(PROCESS_LIMITS, bytes)
    case ExtendProcess(id, bytes) =>
      Open(w, id) && w.replies[id].growing.None? && w.replies[id].channelBytes == 0
      && w.process.bytes + bytes <= PROCESS_LIMITS.bytes
    case ChargeLane(id) => Open(w, id) && w.replies[id].growing.Some?
    case Queue(id, _) => Open(w, id) && w.replies[id].growing.None? && w.replies[id].channelBytes == 0
    case BeginDrop(id) => Open(w, id) && w.replies[id].growing.None?
    case DropLane(id) => id in w.replies && w.replies[id].dropping
    case DropProcess(id) => id in w.replies && w.replies[id].dropping && w.replies[id].laneBytes == 0
        && w.replies[id].charged
    case DropChannel(id) => id in w.replies && w.replies[id].dropping && !w.replies[id].charged
  }

  /** `try_extend` shrinks the process charge again when the lane refuses; either way a refused reply is dropped. */
  function DoChargeLane(w: World, id: nat): World
    requires Open(w, id) && w.replies[id].growing.Some?
  {
    var r := w.replies[id];
    if LaneOverflows(w, r) then
      w.(process := w.process.Minus(BudgetState(0, r.growing.value)),
         replies := w.replies[id := r.(growing := None, processBytes := SaturatingSub(r.processBytes, r.growing.value),
             dropping := true)])
    else
      w.(lanes := w.lanes[r.lane := At(w.lanes, r.lane) + r.growing.value],
         replies := w.replies[id := r.(growing := None, laneBytes := r.laneBytes + r.growing.value)])
  }

  function DoQueue(w: World, id: nat, channel: nat): World
    requires Open(w, id)
  {
    var r := w.replies[id];
    if ChannelOverflows(w, r, channel) then w.(replies := w.replies[id := r.(dropping := true)])
    else w.(channels := w.channels[channel := At(w.channels, channel) + r.laneBytes],
            replies := w.replies[id := r.(channel := channel, channelBytes := r.laneBytes)])
  }

  function Do(w: World, step: Step): World
    requires Enabled(w, step)
  {
    match step
    case ChargeProcess(id, lane, bytes) =>
      w.(process := w.process.Plus(BudgetState(1, bytes)),
         replies := w.replies[id := Reply(lane, 0, true, bytes, Some(bytes), 0, 0, false)])
    case ExtendProcess(id, bytes) =>
      w.(process := w.process.Plus(BudgetState(0, bytes)),
         replies := w.replies[id := w.replies[id].(processBytes := w.replies[id].processBytes + bytes,
             growing := Some(bytes))])
    case ChargeLane(id) => DoChargeLane(w, id)
    case Queue(id, channel) => DoQueue(w, id, channel)
    case BeginDrop(id) => w.(replies := w.replies[id := w.replies[id].(dropping := true)])
    case DropLane(id) =>
      var r := w.replies[id];
      w.(lanes := w.lanes[r.lane := SaturatingSub(At(w.lanes, r.lane), r.laneBytes)],
         replies := w.replies[id := r.(laneBytes := 0)])
    case DropProcess(id) =>
      var r := w.replies[id];
      w.(process := w.process.Minus(BudgetState(1, r.processBytes)),
         replies := w.replies[id := r.(charged := false, processBytes := 0)])
    case DropChannel(id) =>
      var r := w.replies[id];
      w.(channels := w.channels[r.channel := SaturatingSub(At(w.channels, r.channel), r.channelBytes)],
         replies := w.replies - {id})
  }

  // ---------------------------------------------------------------- the books

  function OnLane(lane: nat): Reply -> nat { (r: Reply) => if r.lane == lane then r.laneBytes else 0 }
  function OnChannel(channel: nat): Reply -> nat { (r: Reply) => if r.channel == channel then r.channelBytes else 0 }
  function Charged(): Reply -> nat { (r: Reply) => if r.charged then 1 else 0 }
  function OnProcess(): Reply -> nat { (r: Reply) => r.processBytes }
  function OnAnyLane(): Reply -> nat { (r: Reply) => r.laneBytes }
  function Grown(lane: nat): Reply -> nat {
    (r: Reply) => if r.lane == lane then r.laneBytes + (if r.growing.Some? then r.growing.value else 0) else 0
  }

  predicate Sane(r: Reply) {
    && r.processBytes >= r.laneBytes + (if r.growing.Some? then r.growing.value else 0)
    && (!r.dropping ==> r.charged && r.processBytes == r.laneBytes + (if r.growing.Some? then r.growing.value else 0))
    && (!r.dropping && r.channelBytes > 0 ==> r.growing.None? && r.channelBytes == r.laneBytes)
    && (if r.charged then r.channelBytes <= r.processBytes else r.processBytes == 0 && r.dropping)
    && (r.dropping ==> r.growing.None?)
  }

  ghost predicate Balanced(w: World) {
    && (forall l: nat :: At(w.lanes, l) == Total(w.replies, OnLane(l)))
    && (forall c: nat :: At(w.channels, c) == Total(w.replies, OnChannel(c)))
    && w.process == BudgetState(Total(w.replies, Charged()), Total(w.replies, OnProcess()))
    && w.process.Within(PROCESS_LIMITS)
  }

  ghost predicate Good(w: World) {
    Balanced(w) && forall id | id in w.replies :: Sane(w.replies[id])
  }

  function Empty(): World {
    World(map[], BudgetState(0, 0), map[], map[])
  }

  /** One reply changed, or came, and every counter moved by the difference. */
  lemma Rebalance(w: World, v: World, id: nat, r: Reply)
    requires Balanced(w) && v.replies == w.replies[id := r] && v.process.Within(PROCESS_LIMITS)
    requires forall l: nat :: At(v.lanes, l) + (if id in w.replies then OnLane(l)(w.replies[id]) else 0)
                           == At(w.lanes, l) + OnLane(l)(r)
    requires forall c: nat :: At(v.channels, c) + (if id in w.replies then OnChannel(c)(w.replies[id]) else 0)
                           == At(w.channels, c) + OnChannel(c)(r)
    requires v.process.requests + (if id in w.replies then Charged()(w.replies[id]) else 0)
          == w.process.requests + Charged()(r)
    requires v.process.bytes + (if id in w.replies then w.replies[id].processBytes else 0)
          == w.process.bytes + r.processBytes
    ensures Balanced(v)
  {
    forall l: nat ensures At(v.lanes, l) == Total(v.replies, OnLane(l)) {
      TotalUpdate(w.replies, OnLane(l), id, r);
    }
    forall c: nat ensures At(v.channels, c) == Total(v.replies, OnChannel(c)) {
      TotalUpdate(w.replies, OnChannel(c), id, r);
    }
    TotalUpdate(w.replies, Charged(), id, r);
    TotalUpdate(w.replies, OnProcess(), id, r);
  }

  /** No counter is ever asked to give back more than it holds. */
  lemma NeverSaturates(w: World, id: nat)
    requires Good(w) && id in w.replies
    ensures var r := w.replies[id];
      && r.laneBytes <= At(w.lanes, r.lane) && r.channelBytes <= At(w.channels, r.channel)
      && r.processBytes <= w.process.bytes && (r.charged ==> 1 <= w.process.requests)
  {
    var r := w.replies[id];
    TotalBounds(w.replies, OnLane(r.lane), id);
    TotalBounds(w.replies, OnChannel(r.channel), id);
    TotalBounds(w.replies, OnProcess(), id);
    TotalBounds(w.replies, Charged(), id);
  }

  lemma DropChannelKeepsGood(w: World, id: nat)
    requires Good(w) && Enabled(w, DropChannel(id))
    ensures Good(Do(w, DropChannel(id)))
  {
    var v := Do(w, DropChannel(id));
    var r := w.replies[id];
    NeverSaturates(w, id);
    forall l: nat ensures At(v.lanes, l) == Total(v.replies, OnLane(l)) {
      TotalRemove(w.replies, OnLane(l), id);
    }
    forall c: nat ensures At(v.channels, c) == Total(v.replies, OnChannel(c)) {
      TotalRemove(w.replies, OnChannel(c), id);
    }
    TotalRemove(w.replies, Charged(), id);
    TotalRemove(w.replies, OnProcess(), id);
  }

  lemma ChargeKeepsGood(w: World, step: Step)
    requires Good(w) && Enabled(w, step) && (step.ChargeProcess? || step.ExtendProcess?)
    ensures Good(Do(w, step))
  {
    Rebalance(w, Do(w, step), step.reply, Do(w, step).replies[step.reply]);
  }

  lemma ChargeLaneKeepsGood(w: World, id: nat)
    requires Good(w) && Enabled(w, ChargeLane(id))
    ensures Good(DoChargeLane(w, id))
  {
    NeverSaturates(w, id);
    Rebalance(w, DoChargeLane(w, id), id, DoChargeLane(w, id).replies[id]);
  }

  lemma QueueKeepsGood(w: World, id: nat, channel: nat)
    requires Good(w) && Enabled(w, Queue(id, channel))
    ensures Good(DoQueue(w, id, channel))
  {
    Rebalance(w, DoQueue(w, id, channel), id, DoQueue(w, id, channel).replies[id]);
  }

  lemma DropKeepsGood(w: World, step: Step)
    requires Good(w) && Enabled(w, step) && (step.BeginDrop? || step.DropLane? || step.DropProcess?)
    ensures Good(Do(w, step))
  {
    NeverSaturates(w, step.reply);
    Rebalance(w, Do(w, step), step.reply, Do(w, step).replies[step.reply]);
  }

  lemma StepKeepsGood(w: World, step: Step)
    requires Good(w) && Enabled(w, step)
    ensures Good(Do(w, step))
  {
    match step
    case DropChannel(id) => DropChannelKeepsGood(w, id);
    case ChargeLane(id) => ChargeLaneKeepsGood(w, id);
    case Queue(id, channel) => QueueKeepsGood(w, id, channel);
    case ChargeProcess(_, _, _) => ChargeKeepsGood(w, step);
    case ExtendProcess(_, _) => ChargeKeepsGood(w, step);
    case _ => DropKeepsGood(w, step);
  }

  ghost predicate IsRun(ws: seq<World>, steps: seq<Step>) {
    && |ws| == |steps| + 1 && ws[0] == Empty()
    && (forall i {:trigger steps[i]} | 0 <= i < |steps| :: Enabled(ws[i], steps[i]) && ws[i + 1] == Do(ws[i], steps[i]))
  }

  lemma {:induction false} RunsAreGood(ws: seq<World>, steps: seq<Step>, at: nat)
    requires IsRun(ws, steps) && at < |ws|
    ensures Good(ws[at])
    decreases at
  {
    if at > 0 {
      RunsAreGood(ws, steps, at - 1);
      StepKeepsGood(ws[at - 1], steps[at - 1]);
    }
  }

  // ---------------------------------------------------------------- the overflow checks

  /** All lanes together hold no more than the process does, even between the halves of an extension. */
  lemma LanesWithinProcess(w: World)
    requires Good(w)
    ensures Total(w.replies, OnAnyLane()) <= w.process.bytes <= PROCESS_LIMITS.bytes
    ensures forall l: nat :: At(w.lanes, l) <= Total(w.replies, OnAnyLane())
  {
    TotalMonotone(w.replies, OnAnyLane(), OnProcess());
    forall l: nat ensures At(w.lanes, l) <= Total(w.replies, OnAnyLane()) {
      TotalMonotone(w.replies, OnLane(l), OnAnyLane());
    }
  }

  /** Hence the lane's own check never fires. */
  lemma LaneCheckNeverFires(w: World, id: nat)
    requires Good(w) && id in w.replies
    ensures !LaneOverflows(w, w.replies[id])
  {
    var r := w.replies[id];
    if r.growing.Some? {
      TotalRemove(w.replies, OnLane(r.lane), id);
      TotalRemove(w.replies, Grown(r.lane), id);
      TotalMonotone(w.replies - {id}, OnLane(r.lane), Grown(r.lane));
      TotalMonotone(w.replies, Grown(r.lane), OnProcess());
    }
  }

  /** A queued reply whose process charge is already returned but whose channel charge is not: the
      source drops a reply's lane charge before its channel charge. */
  predicate HalfDropped(r: Reply) {
    r.channelBytes > r.processBytes
  }

  /** The half-dropped replies of a channel. */
  function Halves(w: World, channel: nat): set<nat> {
    set id | id in w.replies && w.replies[id].channel == channel && HalfDropped(w.replies[id])
  }

  /** The channel's check can fire only while some reply of that channel is half dropped. */
  lemma ChannelCheckNeedsHalfDropped(w: World, id: nat, channel: nat)
    requires Good(w) && Enabled(w, Queue(id, channel)) && ChannelOverflows(w, w.replies[id], channel)
    ensures Halves(w, channel) != {}
  {
    if forall other | other in w.replies && w.replies[other].channel == channel :: !HalfDropped(w.replies[other]) {
      var rest := w.replies - {id};
      TotalRemove(w.replies, OnChannel(channel), id);
      TotalRemove(w.replies, OnProcess(), id);
      TotalMonotone(rest, OnChannel(channel), OnProcess());
      assert false;
    }
    var other :| other in w.replies && w.replies[other].channel == channel && HalfDropped(w.replies[other]);
    assert other in Halves(w, channel);
  }

  // ---------------------------------------------------------------- uninterrupted drops

  /** Drops that nothing interrupts, as on a single-threaded runtime; one already begun is finished. */
  datatype SerialStep = Act(step: Step) | DropWhole(reply: nat)

  predicate SerialEnabled(w: World, s: SerialStep) {
    match s
    case Act(step) => !step.DropLane? && !step.DropProcess? && !step.DropChannel? && !step.BeginDrop?
        && Enabled(w, step)
    case DropWhole(id) => id in w.replies && w.replies[id].growing.None?
  }

  function SerialDo(w: World, s: SerialStep): World
    requires SerialEnabled(w, s)
  {
    match s
    case Act(step) => Do(w, step)
    case DropWhole(id) =>
      var r := w.replies[id];
      var a := w.(replies := w.replies[id := r.(dropping := true)]);
      var b := Do(a, DropLane(id));
      Do(if r.charged then Do(b, DropProcess(id)) else b, DropChannel(id))
  }

  lemma DropWholeKeepsGood(w: World, id: nat)
    requires Good(w) && SerialEnabled(w, DropWhole(id))
    ensures Good(SerialDo(w, DropWhole(id)))
  {
    var r := w.replies[id];
    var a := w.(replies := w.replies[id := r.(dropping := true)]);
    Rebalance(w, a, id, r.(dropping := true));
    DropRestKeepsGood(a, id);
  }

  lemma DropRestKeepsGood(a: World, id: nat)
    requires Good(a) && id in a.replies && a.replies[id].dropping
    ensures var b := Do(a, DropLane(id));
      Good(Do(if a.replies[id].charged then Do(b, DropProcess(id)) else b, DropChannel(id)))
  {
    StepKeepsGood(a, DropLane(id));
    var b := Do(a, DropLane(id));
    hide Good;
    if a.replies[id].charged {
      StepKeepsGood(b, DropProcess(id));
      StepKeepsGood(Do(b, DropProcess(id)), DropChannel(id));
    } else {
      StepKeepsGood(b, DropChannel(id));
    }
  }

  lemma SerialStepKeepsGood(w: World, s: SerialStep)
    requires Good(w) && SerialEnabled(w, s)
    ensures Good(SerialDo(w, s))
  {
    match s
    case Act(step) => StepKeepsGood(w, step);
    case DropWhole(id) => DropWholeKeepsGood(w, id);
  }

  /** The reply is gone and no other is touched. */
  lemma DropWholeRemoves(w: World, id: nat)
    requires SerialEnabled(w, DropWhole(id))
    ensures SerialDo(w, DropWhole(id)).replies == w.replies - {id}
  {
  }

  /** No uninterrupted step leaves a reply half dropped that was not so before. */
  lemma SerialHalves(w: World, s: SerialStep, channel: nat)
    requires Good(w) && SerialEnabled(w, s)
    ensures Halves(SerialDo(w, s), channel) <= Halves(w, channel)
  {
    if s.DropWhole? {
      DropWholeRemoves(w, s.reply);
    } else {
      SerialStepKeepsGood(w, s);
      var v := SerialDo(w, s);
      forall id | id in Halves(v, channel) ensures id in Halves(w, channel) {
        assert Sane(v.replies[id]);
        assert !v.replies[id].charged;
        assert id in w.replies && w.replies[id] == v.replies[id];
      }
    }
  }

  /** Uninterrupted steps that leave the half-dropped replies of one channel alone. */
  ghost predicate IsCalm(ws: seq<World>, steps: seq<SerialStep>, channel: nat) {
    && |ws| == |steps| + 1
    && (forall i {:trigger steps[i]} | 0 <= i < |steps| ::
          && SerialEnabled(ws[i], steps[i]) && ws[i + 1] == SerialDo(ws[i], steps[i])
          && (steps[i].DropWhole? ==> steps[i].reply !in Halves(ws[i], channel)))
  }

  lemma CalmKeeps(v: World, s: SerialStep, channel: nat, first: set<nat>)
    requires Good(v) && SerialEnabled(v, s) && Halves(v, channel) <= first
    ensures Good(SerialDo(v, s)) && Halves(SerialDo(v, s), channel) <= first
  {
    hide Good, SerialEnabled, SerialDo, Halves;
    SerialStepKeepsGood(v, s);
    SerialHalves(v, s, channel);
  }

  lemma {:induction false} CalmHalves(ws: seq<World>, steps: seq<SerialStep>, channel: nat, at: nat)
    requires IsCalm(ws, steps, channel) && Good(ws[0]) && at < |ws|
    ensures Good(ws[at]) && Halves(ws[at], channel) <= Halves(ws[0], channel)
    decreases at
  {
    if at > 0 {
      hide Good, SerialEnabled, SerialDo, Halves;
      CalmHalves(ws, steps, channel, at - 1);
      CalmKeeps(ws[at - 1], steps[at - 1], channel, Halves(ws[0], channel));
    }
  }

  /** Where calm steps lead. */
  ghost predicate CalmlyTo(w: World, v: World, channel: nat) {
    exists ws, steps :: IsCalm(ws, steps, channel) && ws[0] == w && ws[|ws| - 1] == v
  }

  lemma CalmStart(w: World, channel: nat)
    ensures CalmlyTo(w, w, channel)
  {
    assert IsCalm([w], [], channel);
    assert [w][0] == w && [w][|[w]| - 1] == w;
  }

  lemma CalmStep(w: World, v: World, channel: nat, s: SerialStep)
    requires CalmlyTo(w, v, channel) && SerialEnabled(v, s)
    requires s.DropWhole? ==> s.reply !in Halves(v, channel)
    ensures CalmlyTo(w, SerialDo(v, s), channel)
  {
    var ws, steps :| IsCalm(ws, steps, channel) && ws[0] == w && ws[|ws| - 1] == v;
    var more := ws + [SerialDo(v, s)];
    assert IsCalm(more, steps + [s], channel) && more[0] == w && more[|more| - 1] == SerialDo(v, s);
  }

  /** The check is about to fire. */
  ghost predicate Fires(v: World, channel: nat) {
    exists id :: Enabled(v, Queue(id, channel)) && ChannelOverflows(v, v.replies[id], channel)
  }

  // ---------------------------------------------------------------- making the check fire

  lemma Above(m: map<nat, Reply>) returns (id: nat)
    ensures id !in m && forall k | k in m :: k < id
  {
    if m == map[] {
      id := 0;
    } else {
      var k :| k in m;
      id := Above(m - {k});
      id := if k < id then id else k + 1;
      assert forall j | j in m :: j == k || j in m - {k};
    }
  }

  /** Everything but the half-dropped replies of the channel can be finished and dropped. */
  lemma {:induction false} DrainOthers(w: World, v: World, channel: nat) returns (u: World)
    requires Good(v) && CalmlyTo(w, v, channel)
    ensures Good(u) && CalmlyTo(w, u, channel) && Halves(u, channel) == Halves(v, channel) == u.replies.Keys
    decreases |v.replies.Keys - Halves(v, channel)|
  {
    if v.replies.Keys == Halves(v, channel) {
      u := v;
    } else {
      var id :| id in v.replies && id !in Halves(v, channel);
      var x := Settle(w, v, channel, id);
      SerialStepKeepsGood(x, DropWhole(id));
      CalmStep(w, x, channel, DropWhole(id));
      DropWholeRemoves(x, id);
      var y := SerialDo(x, DropWhole(id));
      HalvesWithout(x, y, channel, id);
      assert y.replies.Keys - Halves(y, channel) == (v.replies.Keys - Halves(v, channel)) - {id};
      hide Good, CalmlyTo, Halves, SerialDo;
      u := DrainOthers(w, y, channel);
    }
  }

  /** A reply between the two halves of a charge gets the second. */
  lemma Settle(w: World, v: World, channel: nat, id: nat) returns (x: World)
    requires Good(v) && CalmlyTo(w, v, channel) && id in v.replies && id !in Halves(v, channel)
    ensures Good(x) && CalmlyTo(w, x, channel) && id in x.replies && x.replies[id].growing.None?
    ensures x.replies.Keys == v.replies.Keys && Halves(x, channel) == Halves(v, channel)
    ensures x.replies - {id} == v.replies - {id} && id !in Halves(x, channel)
  {
    x := v;
    if v.replies[id].growing.Some? {
      assert Sane(v.replies[id]);
      LaneCheckNeverFires(v, id);
      SerialStepKeepsGood(v, Act(ChargeLane(id)));
      CalmStep(w, v, channel, Act(ChargeLane(id)));
      x := SerialDo(v, Act(ChargeLane(id)));
      SettledHalves(v, x, channel, id);
    }
  }

  lemma SettledHalves(v: World, x: World, channel: nat, id: nat)
    requires id in v.replies && id in x.replies && x.replies == v.replies[id := x.replies[id]]
    requires !HalfDropped(v.replies[id]) && !HalfDropped(x.replies[id])
    ensures Halves(x, channel) == Halves(v, channel) && x.replies - {id} == v.replies - {id}
  {
  }

  lemma HalvesWithout(x: World, y: World, channel: nat, id: nat)
    requires id !in Halves(x, channel) && y.replies == x.replies - {id}
    ensures Halves(y, channel) == Halves(x, channel) && y.replies.Keys == x.replies.Keys - {id}
  {
  }

  /** What is left when only half-dropped replies are: no process charge, no lane charge, and some charge of
      the channel. */
  lemma OnlyHalves(u: World, channel: nat)
    requires Good(u) && Halves(u, channel) == u.replies.Keys != {}
    ensures u.process == BudgetState(0, 0) && At(u.lanes, 0) == 0 && At(u.channels, channel) > 0
  {
    forall id | id in u.replies
      ensures !u.replies[id].charged && u.replies[id].processBytes == 0 && u.replies[id].laneBytes == 0
      ensures u.replies[id].channel == channel && u.replies[id].channelBytes > 0
    {
      assert id in Halves(u, channel) && Sane(u.replies[id]);
    }
    TotalZero(u.replies, Charged());
    TotalZero(u.replies, OnProcess());
    TotalZero(u.replies, OnLane(0));
    TotalZero(u.replies, OnChannel(channel));
    var id :| id in u.replies;
    assert OnChannel(channel)(u.replies[id]) > 0;
  }

  /** One reply of full size arrives, up to where it could be queued. */
  lemma Receive(w: World, u: World, channel: nat) returns (id: nat, v: World)
    requires CalmlyTo(w, u, channel) && u.process.Admits(PROCESS_LIMITS, MAX_PACKET)
    requires At(u.lanes, 0) + MAX_PACKET <= MAX_LANE_REPLY_BYTES
    ensures CalmlyTo(w, v, channel) && id !in u.replies && id in v.replies && Enabled(v, Queue(id, channel))
    ensures v.replies[id].laneBytes == MAX_PACKET && v.channels == u.channels
    ensures v.process == u.process.Plus(BudgetState(1, MAX_PACKET)) && At(v.lanes, 0) == At(u.lanes, 0) + MAX_PACKET
  {
    id := Above(u.replies);
    CalmStep(w, u, channel, Act(ChargeProcess(id, 0, MAX_PACKET)));
    var x := Do(u, ChargeProcess(id, 0, MAX_PACKET));
    CalmStep(w, x, channel, Act(ChargeLane(id)));
    v := Do(x, ChargeLane(id));
  }

  lemma FireFrom(w: World, u: World, channel: nat) returns (v: World)
    requires Good(u) && CalmlyTo(w, u, channel) && Halves(u, channel) == u.replies.Keys != {}
    ensures CalmlyTo(w, v, channel) && Fires(v, channel)
  {
    OnlyHalves(u, channel);
    hide Good, CalmlyTo, Halves;
    var id, a := Receive(w, u, channel);
    if ChannelOverflows(a, a.replies[id], channel) {
      v := a;
    } else {
      CalmStep(w, a, channel, Act(Queue(id, channel)));
      var b := Do(a, Queue(id, channel));
      var next;
      next, v := Receive(w, b, channel);
      assert ChannelOverflows(v, v.replies[next], channel);
    }
  }

  /** From any state of any run, with drops uninterrupted from there on and its half-dropped replies left as
      they are, a channel's check can fire if and only if some reply of the channel is half dropped now. */
  lemma ChannelCheckExactly(ws: seq<World>, steps: seq<Step>, at: nat, channel: nat)
    requires IsRun(ws, steps) && at < |ws|
    ensures (exists v :: CalmlyTo(ws[at], v, channel) && Fires(v, channel)) <==> Halves(ws[at], channel) != {}
  {
    var w := ws[at];
    RunsAreGood(ws, steps, at);
    if Halves(w, channel) != {} {
      CalmStart(w, channel);
      var u := DrainOthers(w, w, channel);
      var v := FireFrom(w, u, channel);
    }
    if v :| CalmlyTo(w, v, channel) && Fires(v, channel) {
      var vs, calm :| IsCalm(vs, calm, channel) && vs[0] == w && vs[|vs| - 1] == v;
      CalmHalves(vs, calm, channel, |vs| - 1);
      var id :| Enabled(v, Queue(id, channel)) && ChannelOverflows(v, v.replies[id], channel);
      ChannelCheckNeedsHalfDropped(v, id, channel);
    }
  }

  lemma Extended(ws: seq<World>, steps: seq<Step>, step: Step) returns (v: World, vs: seq<World>)
    requires IsRun(ws, steps) && Enabled(ws[|ws| - 1], step)
    ensures v == Do(ws[|ws| - 1], step) && vs == ws + [v] && IsRun(vs, steps + [step])
  {
    v := Do(ws[|ws| - 1], step);
    vs := ws + [v];
  }

  /** A reply is half dropped in some run: received, queued, and its process share given back. */
  lemma HalfDroppedIsReached(channel: nat) returns (ws: seq<World>, steps: seq<Step>)
    ensures IsRun(ws, steps) && Halves(ws[|ws| - 1], channel) != {}
  {
    ws, steps := [Empty()], [];
    var v;
    v, ws := Extended(ws, [], ChargeProcess(1, 0, 4));
    v, ws := Extended(ws, [ChargeProcess(1, 0, 4)], ChargeLane(1));
    assert v.replies[1] == Reply(0, 4, true, 4, None, 0, 0, false) && v.channels == map[];
    steps := [ChargeProcess(1, 0, 4)] + [ChargeLane(1)];
    ws, steps := HalfDropFirst(ws, steps, channel);
  }

  lemma HalfDropFirst(ws: seq<World>, steps: seq<Step>, channel: nat) returns (vs: seq<World>, more: seq<Step>)
    requires IsRun(ws, steps) && 1 in ws[|ws| - 1].replies && ws[|ws| - 1].channels == map[]
    requires ws[|ws| - 1].replies[1] == Reply(0, 4, true, 4, None, 0, 0, false)
    ensures IsRun(vs, more) && Halves(vs[|vs| - 1], channel) != {}
  {
    hide IsRun;
    var v;
    v, vs := Extended(ws, steps, Queue(1, channel));
    more := steps + [Queue(1, channel)];
    assert v.replies[1] == Reply(0, 4, true, 4, None, channel, 4, false);
    v, vs := Extended(vs, more, BeginDrop(1));
    more := more + [BeginDrop(1)];
    v, vs := Extended(vs, more, DropLane(1));
    more := more + [DropLane(1)];
    v, vs := Extended(vs, more, DropProcess(1));
    more := more + [DropProcess(1)];
    assert v.replies[1] == Reply(0, 0, false, 0, None, channel, 4, true);
    assert 1 in Halves(v, channel);
  }

  /** With every drop of a run uninterrupted neither check ever fires. */
  lemma SerialChecksNeverFire(ws: seq<World>, steps: seq<SerialStep>, at: nat, channel: nat)
    requires |ws| == |steps| + 1 && ws[0] == Empty() && at < |ws|
    requires forall i {:trigger steps[i]} | 0 <= i < |steps| ::
        SerialEnabled(ws[i], steps[i]) && ws[i + 1] == SerialDo(ws[i], steps[i])
    ensures forall id | id in ws[at].replies :: !LaneOverflows(ws[at], ws[at].replies[id])
    ensures !Fires(ws[at], channel)
  {
    SerialHasNoHalves(ws, steps, at, channel);
    var w := ws[at];
    forall id | id in w.replies ensures !LaneOverflows(w, w.replies[id]) {
      LaneCheckNeverFires(w, id);
    }
    if Fires(w, channel) {
      var id :| Enabled(w, Queue(id, channel)) && ChannelOverflows(w, w.replies[id], channel);
      ChannelCheckNeedsHalfDropped(w, id, channel);
    }
  }

  lemma {:induction false} SerialHasNoHalves(ws: seq<World>, steps: seq<SerialStep>, at: nat, channel: nat)
    requires |ws| == |steps| + 1 && ws[0] == Empty() && at < |ws|
    requires forall i {:trigger steps[i]} | 0 <= i < |steps| ::
        SerialEnabled(ws[i], steps[i]) && ws[i + 1] == SerialDo(ws[i], steps[i])
    ensures Good(ws[at]) && Halves(ws[at], channel) == {}
    decreases at
  {
    if at > 0 {
      hide Good, SerialEnabled, SerialDo, Halves;
      SerialHasNoHalves(ws, steps, at - 1, channel);
      CalmKeeps(ws[at - 1], steps[at - 1], channel, {});
    }
  }
}
