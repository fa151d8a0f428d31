/** Three budgets in a row: a request is charged to its channel, its lane and the process, always in
    that order, and pays back in any. Each step is one locked section of one budget. */
module Admission {
  import opened Limits
  import opened Options
  import opened Budgets
  import opened Totals

  const CHANNEL_LIMITS := BudgetState(8, 8 * 1024 * 1024)
  const LANE_LIMITS := BudgetState(64, 32 * 1024 * 1024)
  const PROCESS_LIMITS := BudgetState(64, 2 * MAX_PADDED_PACKET)

  /** `Waiting` blocks in `reserve`; `Trying` is a replay, which never blocks; `Holding` has all three
      permits, whether or not its request is launched yet; `Leaving` gives back what it has. */
  datatype Phase = Waiting | Trying | Holding | Leaving

  datatype Task = Task(
    channel: nat, lane: nat, bytes: nat, phase: Phase,
    atChannel: bool, atLane: bool, atProcess: bool,
    pending: bool)   // its request is in the channel's pending map

  datatype Level = ChannelLevel | LaneLevel | ProcessLevel

  datatype World = World(
    tasks: map<nat, Task>,
    channels: map<nat, BudgetState>,
    lanes: map<nat, BudgetState>,
    process: BudgetState)

  datatype Step =
    | Arrive(task: nat, channel: nat, lane: nat, bytes: nat, replay: bool)
    | Take(task: nat)
    | Refuse(task: nat)
    | Launch(task: nat)
    | Finish(task: nat)     // refused launch, unread body, or the guard's first act: leave `pending`
    | Release(task: nat, level: Level)
    | Gone(task: nat)

  function At(m: map<nat, BudgetState>, k: nat): BudgetState {
    if k in m then m[k] else BudgetState(0, 0)
  }

  function LimitsOf(level: Level): BudgetState {
    match level
    case ChannelLevel => CHANNEL_LIMITS
    case LaneLevel => LANE_LIMITS
    case ProcessLevel => PROCESS_LIMITS
  }

  /** The next permit a task has still to take. */
  function Next(t: Task): Option<Level> {
    if !t.atChannel then Some(ChannelLevel)
    else if !t.atLane then Some(LaneLevel)
    else if !t.atProcess then Some(ProcessLevel)
    else None
  }

  predicate Has(t: Task, level: Level) {
    match level
    case ChannelLevel => t.atChannel
    case LaneLevel => t.atLane
    case ProcessLevel => t.atProcess
  }

  function Counter(w: World, t: Task, level: Level): BudgetState {
    match level
    case ChannelLevel => At(w.channels, t.channel)
    case LaneLevel => At(w.lanes, t.lane)
    case ProcessLevel => w.process
  }

  function SetCounter(w: World, t: Task, level: Level, value: BudgetState): World {
    match level
    case ChannelLevel => w.(channels := w.channels[t.channel := value])
    case LaneLevel => w.(lanes := w.lanes[t.lane := value])
    case ProcessLevel => w.(process := value)
  }

  function SetHold(t: Task, level: Level, holds: bool): Task {
    match level
    case ChannelLevel => t.(atChannel := holds)
    case LaneLevel => t.(atLane := holds)
    case ProcessLevel => t.(atProcess := holds)
  }

  predicate CanTake(w: World, t: Task) {
    && (t.phase.Waiting? || t.phase.Trying?)
    && Next(t).Some?
    && Counter(w, t, Next(t).value).Admits(LimitsOf(Next(t).value), t.bytes)
  }

  function DoTake(w: World, id: nat): World
    requires id in w.tasks && Next(w.tasks[id]).Some?
  {
    var t := w.tasks[id];
    var level := Next(t).value;
    var taken := SetHold(t, level, true);
    SetCounter(w, t, level, Counter(w, t, level).Plus(BudgetState(1, t.bytes)))
      .(tasks := w.tasks[id := if Next(taken).None? then taken.(phase := Holding) else taken])
  }

  function DoRelease(w: World, id: nat, level: Level): World
    requires id in w.tasks
  {
    var t := w.tasks[id];
    SetCounter(w, t, level, Counter(w, t, level).Minus(BudgetState(1, t.bytes)))
      .(tasks := w.tasks[id := SetHold(t, level, false)])
  }

  predicate Empties(t: Task) {
    !t.atChannel && !t.atLane && !t.atProcess
  }

  predicate Enabled(w: World, step: Step) {
    match step
    case Arrive(id, _, _, bytes, _) => id !in w.tasks && bytes <= MAX_PADDED_PACKET
    case Take(id) => id in w.tasks && CanTake(w, w.tasks[id])
    case Refuse(id) =>
      id in w.tasks && (w.tasks[id].phase.Waiting? || (w.tasks[id].phase.Trying? && !CanTake(w, w.tasks[id])))
    case Launch(id) => id in w.tasks && w.tasks[id].phase.Holding? && !w.tasks[id].pending
    case Finish(id) => id in w.tasks && w.tasks[id].phase.Holding?
    case Release(id, level) => id in w.tasks && w.tasks[id].phase.Leaving? && Has(w.tasks[id], level)
    case Gone(id) => id in w.tasks && w.tasks[id].phase.Leaving? && Empties(w.tasks[id])
  }

  function Do(w: World, step: Step): World
    requires Enabled(w, step)
  {
    match step
    case Arrive(id, channel, lane, bytes, replay) =>
      w.(tasks := w.tasks[id :=
        Task(channel, lane, bytes, if replay then Trying else Waiting, false, false, false, false)])
    case Take(id) => DoTake(w, id)
    case Refuse(id) => w.(tasks := w.tasks[id := w.tasks[id].(phase := Leaving)])
    case Launch(id) => w.(tasks := w.tasks[id := w.tasks[id].(pending := true)])
    case Finish(id) => w.(tasks := w.tasks[id := w.tasks[id].(phase := Leaving, pending := false)])
    case Release(id, level) => DoRelease(w, id, level)
    case Gone(id) => w.(tasks := w.tasks - {id})
  }

  // ---------------------------------------------------------------- what is charged

  predicate Holds(t: Task, level: Level, place: nat) {
    match level
    case ChannelLevel => t.atChannel && t.channel == place
    case LaneLevel => t.atLane && t.lane == place
    case ProcessLevel => t.atProcess
  }

  function Ones(level: Level, place: nat): Task -> nat {
    (t: Task) => if Holds(t, level, place) then 1 else 0
  }

  function Sizes(level: Level, place: nat): Task -> nat {
    (t: Task) => if Holds(t, level, place) then t.bytes else 0
  }

  /** The count and byte sum of the permits live at one budget. */
  ghost function Live(w: World, level: Level, place: nat): BudgetState {
    BudgetState(Total(w.tasks, Ones(level, place)), Total(w.tasks, Sizes(level, place)))
  }

  function Ledger(w: World, level: Level, place: nat): BudgetState {
    match level
    case ChannelLevel => At(w.channels, place)
    case LaneLevel => At(w.lanes, place)
    case ProcessLevel => w.process
  }

  ghost predicate Conserved(w: World) {
    forall level: Level, k: nat ::
        Ledger(w, level, k) == Live(w, level, k) && Ledger(w, level, k).Within(LimitsOf(level))
  }

  ghost predicate Ordered(w: World) {
    forall id | id in w.tasks ::
      var t := w.tasks[id];
      && t.bytes <= MAX_PADDED_PACKET
      && (t.phase.Holding? ==> t.atChannel && t.atLane && t.atProcess)
      && (t.phase.Waiting? || t.phase.Trying? ==> !t.atProcess && (t.atLane ==> t.atChannel))
      && (t.pending ==> t.phase.Holding?)
  }

  ghost predicate Good(w: World) {
    Conserved(w) && Ordered(w)
  }

  function Empty(): World {
    World(map[], map[], map[], BudgetState(0, 0))
  }

  lemma EmptyGood()
    ensures Good(Empty())
  {
  }

  // ---------------------------------------------------------------- conservation

  /** How the live permits at one budget move when one task changes. */
  lemma LiveUpdate(w: World, v: World, id: nat, t: Task, level: Level, k: nat)
    requires v.tasks == w.tasks[id := t]
    ensures id in w.tasks ==>
        Live(v, level, k).Plus(One(w.tasks[id], level, k)) == Live(w, level, k).Plus(One(t, level, k))
    ensures id !in w.tasks ==> Live(v, level, k) == Live(w, level, k).Plus(One(t, level, k))
  {
    hide Holds, Total;
    TotalUpdate(w.tasks, Ones(level, k), id, t);
    TotalUpdate(w.tasks, Sizes(level, k), id, t);
  }

  function One(t: Task, level: Level, k: nat): BudgetState {
    if Holds(t, level, k) then BudgetState(1, t.bytes) else BudgetState(0, 0)
  }

  /** Which budget of a level a task is charged to. */
  predicate Charged(t: Task, level: Level, k: nat) {
    match level
    case ChannelLevel => t.channel == k
    case LaneLevel => t.lane == k
    case ProcessLevel => true
  }

  lemma LedgerSet(w: World, t: Task, changed: Level, value: BudgetState, tasks: map<nat, Task>, level: Level, k: nat)
    ensures Ledger(SetCounter(w, t, changed, value).(tasks := tasks), level, k)
         == if level == changed && Charged(t, level, k) then value else Ledger(w, level, k)
    ensures Charged(t, changed, k) ==> Counter(w, t, changed) == Ledger(w, changed, k)
  {
  }

  lemma OneSet(t: Task, changed: Level, holds: bool, phase: Phase, level: Level, k: nat)
    ensures One(SetHold(t, changed, holds).(phase := phase), level, k)
         == if level == changed && Charged(t, level, k)
             then BudgetState(if holds then 1 else 0, if holds then t.bytes else 0)
            else One(t, level, k)
  {
  }

  lemma NextNotHeld(t: Task, level: Level, k: nat)
    ensures Next(t) == Some(level) ==> One(t, level, k) == BudgetState(0, 0)
    ensures Has(t, level) && Charged(t, level, k) ==> One(t, level, k) == BudgetState(1, t.bytes)
  {
  }

  /** Counters that moved as one task's holding did still agree with the live permits. */
  lemma Balance(was: BudgetState, now: BudgetState, live: BudgetState, newLive: BudgetState, gone: BudgetState,
      come: BudgetState)
    requires was == live && newLive.Plus(gone) == live.Plus(come) && now.Plus(gone) == was.Plus(come)
    ensures now == newLive
  {
  }

  /** A take moves exactly the counter of the permit that was taken, and not past its limit. */
  lemma TakeLedger(w: World, id: nat, level: Level, k: nat)
    requires id in w.tasks && CanTake(w, w.tasks[id]) && Ledger(w, level, k).Within(LimitsOf(level))
    ensures var v := DoTake(w, id);
      && Ledger(v, level, k).Plus(One(w.tasks[id], level, k)) == Ledger(w, level, k).Plus(One(v.tasks[id], level, k))
      && Ledger(v, level, k).Within(LimitsOf(level))
  {
    hide Ledger, SetCounter, SetHold, One, Counter, Charged, LimitsOf;
    var t, taken := w.tasks[id], Next(w.tasks[id]).value;
    var v := DoTake(w, id);
    LedgerSet(w, t, taken, Counter(w, t, taken).Plus(BudgetState(1, t.bytes)), v.tasks, level, k);
    OneSet(t, taken, true, v.tasks[id].phase, level, k);
    assert v.tasks[id] == SetHold(t, taken, true).(phase := v.tasks[id].phase);
    NextNotHeld(t, taken, k);
  }

  lemma TakeConserves(w: World, id: nat)
    requires Good(w) && id in w.tasks && CanTake(w, w.tasks[id])
    ensures Conserved(DoTake(w, id))
  {
    var v := DoTake(w, id);
    assert v.tasks == w.tasks[id := v.tasks[id]];
    hide DoTake, CanTake, Ledger, Live, One, LimitsOf;
    forall level: Level, k: nat
      ensures Ledger(v, level, k) == Live(v, level, k) && Ledger(v, level, k).Within(LimitsOf(level))
    {
      assert Ledger(w, level, k) == Live(w, level, k) && Ledger(w, level, k).Within(LimitsOf(level));
      TakeLedger(w, id, level, k);
      LiveUpdate(w, v, id, v.tasks[id], level, k);
      Balance(Ledger(w, level, k), Ledger(v, level, k), Live(w, level, k), Live(v, level, k),
              One(w.tasks[id], level, k), One(v.tasks[id], level, k));
    }
  }

  /** The saturating subtractions never saturate. */
  lemma NeverSaturates(w: World, id: nat, level: Level)
    requires Good(w) && id in w.tasks && Has(w.tasks[id], level)
    ensures var c := Counter(w, w.tasks[id], level); 1 <= c.requests && w.tasks[id].bytes <= c.bytes
  {
    var k := Place(w.tasks[id], level);
    assert Ledger(w, level, k) == Live(w, level, k);
    TotalBounds(w.tasks, Ones(level, k), id);
    TotalBounds(w.tasks, Sizes(level, k), id);
  }

  /** Which of the budgets of a level is the task's. */
  function Place(t: Task, level: Level): nat {
    match level
    case ChannelLevel => t.channel
    case LaneLevel => t.lane
    case ProcessLevel => 0
  }

  lemma ReleaseLedger(w: World, id: nat, freed: Level, level: Level, k: nat)
    requires id in w.tasks && Has(w.tasks[id], freed) && Ledger(w, level, k).Within(LimitsOf(level))
    requires var c := Counter(w, w.tasks[id], freed); 1 <= c.requests && w.tasks[id].bytes <= c.bytes
    ensures var v := DoRelease(w, id, freed);
      && Ledger(v, level, k).Plus(One(w.tasks[id], level, k)) == Ledger(w, level, k).Plus(One(v.tasks[id], level, k))
      && Ledger(v, level, k).Within(LimitsOf(level))
  {
    hide Ledger, SetCounter, SetHold, One, Counter, Charged, LimitsOf, Has;
    var t, v := w.tasks[id], DoRelease(w, id, freed);
    LedgerSet(w, t, freed, Counter(w, t, freed).Minus(BudgetState(1, t.bytes)), v.tasks, level, k);
    OneSet(t, freed, false, t.phase, level, k);
    assert v.tasks[id] == SetHold(t, freed, false).(phase := t.phase) by { PhaseUnchanged(t, freed); }
    NextNotHeld(t, freed, k);
  }

  lemma PhaseUnchanged(t: Task, level: Level)
    ensures SetHold(t, level, false).(phase := t.phase) == SetHold(t, level, false)
  {
  }

  lemma ReleaseConserves(w: World, id: nat, freed: Level)
    requires Good(w) && id in w.tasks && Has(w.tasks[id], freed)
    ensures Conserved(DoRelease(w, id, freed))
  {
    var v := DoRelease(w, id, freed);
    assert v.tasks == w.tasks[id := v.tasks[id]];
    NeverSaturates(w, id, freed);
    hide DoRelease, Counter, Has, Ledger, Live, One, LimitsOf;
    forall level: Level, k: nat
      ensures Ledger(v, level, k) == Live(v, level, k) && Ledger(v, level, k).Within(LimitsOf(level))
    {
      assert Ledger(w, level, k) == Live(w, level, k) && Ledger(w, level, k).Within(LimitsOf(level));
      ReleaseLedger(w, id, freed, level, k);
      LiveUpdate(w, v, id, v.tasks[id], level, k);
      Balance(Ledger(w, level, k), Ledger(v, level, k), Live(w, level, k), Live(v, level, k),
              One(w.tasks[id], level, k), One(v.tasks[id], level, k));
    }
  }

  predicate SameHolds(a: Task, b: Task) {
    a.channel == b.channel && a.lane == b.lane && a.bytes == b.bytes
    && a.atChannel == b.atChannel && a.atLane == b.atLane && a.atProcess == b.atProcess
  }

  lemma SameOne(a: Task, b: Task, level: Level, k: nat)
    requires SameHolds(a, b)
    ensures One(a, level, k) == One(b, level, k)
  {
  }

  lemma SameHoldsAt(w: World, v: World, id: nat, t: Task, level: Level, k: nat)
    requires v.tasks == w.tasks[id := t]
    requires One(t, level, k) == if id in w.tasks then One(w.tasks[id], level, k) else BudgetState(0, 0)
    ensures Live(v, level, k) == Live(w, level, k)
  {
    LiveUpdate(w, v, id, t, level, k);
  }

  lemma SameHoldsConserves(w: World, id: nat, t: Task)
    requires Conserved(w)
    requires if id in w.tasks then SameHolds(t, w.tasks[id]) else !t.atChannel && !t.atLane && !t.atProcess
    ensures Conserved(w.(tasks := w.tasks[id := t]))
  {
    var v := w.(tasks := w.tasks[id := t]);
    forall level: Level, k: nat
      ensures Ledger(v, level, k) == Live(v, level, k) && Ledger(v, level, k).Within(LimitsOf(level))
    {
      if id in w.tasks {
        SameOne(t, w.tasks[id], level, k);
      }
      SameHoldsAt(w, v, id, t, level, k);
      assert Ledger(w, level, k) == Live(w, level, k) && Ledger(w, level, k).Within(LimitsOf(level));
    }
  }

  lemma GoneConserves(w: World, id: nat)
    requires Conserved(w) && id in w.tasks && Empties(w.tasks[id])
    ensures Conserved(w.(tasks := w.tasks - {id}))
  {
    var v := w.(tasks := w.tasks - {id});
    forall level: Level, k: nat
      ensures Ledger(v, level, k) == Live(v, level, k) && Ledger(v, level, k).Within(LimitsOf(level))
    {
      assert Ledger(w, level, k) == Live(w, level, k) && Ledger(w, level, k).Within(LimitsOf(level));
      TotalRemove(w.tasks, Ones(level, k), id);
      TotalRemove(w.tasks, Sizes(level, k), id);
    }
  }

  lemma StepKeepsGood(w: World, step: Step)
    requires Good(w) && Enabled(w, step)
    ensures Good(Do(w, step))
  {
    match step
    case Take(id) => TakeConserves(w, id);
    case Release(id, level) => ReleaseConserves(w, id, level);
    case Gone(id) => GoneConserves(w, id);
    case _ => SameHoldsConserves(w, step.task, Do(w, step).tasks[step.task]);
  }

  ghost predicate IsRun(ws: seq<World>, steps: seq<Step>) {
    && |ws| == |steps| + 1 && ws[0] == Empty()
    && (forall i {:trigger steps[i]} | 0 <= i < |steps| :: Enabled(ws[i], steps[i]) && ws[i + 1] == Do(ws[i], steps[i]))
  }

  /** Every counter is exactly the permits live at it, within its limits, in every state of every run. */
  lemma {:induction false} RunsConserve(ws: seq<World>, steps: seq<Step>, at: nat)
    requires IsRun(ws, steps) && at < |ws|
    ensures Good(ws[at])
    decreases at
  {
    if at == 0 {
      EmptyGood();
    } else {
      RunsConserve(ws, steps, at - 1);
      StepKeepsGood(ws[at - 1], steps[at - 1]);
    }
  }

  // ---------------------------------------------------------------- consequences

  function PendingOnes(channel: nat): Task -> nat {
    (t: Task) => if t.pending && t.channel == channel then 1 else 0
  }

  /** Each pending request owns one permit at every level, so a channel never has more than eight. */
  lemma PendingAtMostEight(w: World, channel: nat)
    requires Good(w)
    ensures Total(w.tasks, PendingOnes(channel)) <= 8
    ensures forall id | id in w.tasks && w.tasks[id].pending ::
      w.tasks[id].atChannel && w.tasks[id].atLane && w.tasks[id].atProcess
  {
    TotalMonotone(w.tasks, PendingOnes(channel), Ones(ChannelLevel, channel));
    assert Ledger(w, ChannelLevel, channel) == Live(w, ChannelLevel, channel);
    assert Ledger(w, ChannelLevel, channel).Within(CHANNEL_LIMITS);
  }

  /** A leaving task drops its permits, those it has, in some order. */
  function Drain(w: World, id: nat, order: seq<Level>): World
    requires id in w.tasks
    decreases |order|
  {
    if |order| == 0 then w
    else Drain(if Has(w.tasks[id], order[0]) then DoRelease(w, id, order[0]) else w, id, order[1..])
  }

  /** What a task took, wherever it stopped and in whatever order it drops it, it gives back: the counters are
      then those of the other tasks alone. */
  lemma {:induction false} DrainReturnsEverything(w: World, id: nat, order: seq<Level>)
    requires Good(w) && id in w.tasks && w.tasks[id].phase.Leaving?
    requires forall level: Level :: Has(w.tasks[id], level) ==> level in order
    ensures var v := Drain(w, id, order);
      && id in v.tasks && v.tasks - {id} == w.tasks - {id}
      && forall level: Level, k: nat :: Ledger(v, level, k) == Live(w.(tasks := w.tasks - {id}), level, k)
    decreases |order|
  {
    var t := w.tasks[id];
    if |order| == 0 {
      assert !Has(t, ChannelLevel) && !Has(t, LaneLevel) && !Has(t, ProcessLevel);
      GoneConserves(w, id);
      var v := w.(tasks := w.tasks - {id});
      forall level: Level, k: nat ensures Ledger(w, level, k) == Live(v, level, k) {
        assert Ledger(v, level, k) == Live(v, level, k);
      }
    } else if !Has(t, order[0]) {
      DrainReturnsEverything(w, id, order[1..]);
    } else {
      var v := DoRelease(w, id, order[0]);
      ReleaseConserves(w, id, order[0]);
      DropsOne(t, order);
      DrainReturnsEverything(v, id, order[1..]);
      assert v.tasks - {id} == w.tasks - {id};
      assert v.(tasks := v.tasks - {id}).tasks == w.(tasks := w.tasks - {id}).tasks;
    }
  }

  lemma DropsOne(t: Task, order: seq<Level>)
    requires |order| > 0 && forall level: Level :: Has(t, level) ==> level in order
    ensures forall level: Level :: Has(SetHold(t, order[0], false), level) ==> level in order[1..]
  {
    forall level: Level | Has(SetHold(t, order[0], false), level) ensures level in order[1..] {
      assert Has(t, level) && level != order[0];
      assert level in order && order == [order[0]] + order[1..];
    }
  }

  // ---------------------------------------------------------------- progress

  predicate Owns(t: Task) {
    t.phase.Holding?
  }

  /** A step the task can take by itself, without anybody else giving anything back. */
  predicate CanMove(w: World, t: Task) {
    CanTake(w, t) || t.phase.Trying? || (t.phase.Leaving? && !Empties(t))
  }

  /** One task waits for a permit of a budget of which the other has one. */
  predicate WaitsFor(w: World, waiter: Task, holder: Task) {
    && waiter.phase.Waiting? && Next(waiter).Some? && !CanTake(w, waiter)
    && Holds(holder, Next(waiter).value, Place(waiter, Next(waiter).value))
  }

  /** A budget that refuses a request has been granted to somebody. */
  lemma SomebodyHolds(w: World, waiter: Task) returns (holder: nat)
    requires Good(w) && waiter.phase.Waiting? && Next(waiter).Some? && !CanTake(w, waiter)
        && waiter.bytes <= MAX_PADDED_PACKET
    ensures holder in w.tasks && WaitsFor(w, waiter, w.tasks[holder])
  {
    var level := Next(waiter).value;
    var k := Place(waiter, level);
    TotalZero(w.tasks, Ones(level, k));
    TotalZero(w.tasks, Sizes(level, k));
    assert Ledger(w, level, k) == Live(w, level, k);
    assert Counter(w, waiter, level) == Ledger(w, level, k);
    holder :| holder in w.tasks && Holds(w.tasks[holder], level, k);
  }

  /** How many budgets a waiting task has still to pass. */
  function Ahead(t: Task): nat {
    if !t.phase.Waiting? then 0 else if !t.atChannel then 3 else if !t.atLane then 2 else 1
  }

  ghost predicate ChainOf(w: World, chain: seq<nat>) {
    && |chain| > 0 && (forall i | 0 <= i < |chain| :: chain[i] in w.tasks)
    && (forall i | 0 <= i < |chain| - 1 :: WaitsFor(w, w.tasks[chain[i]], w.tasks[chain[i + 1]]))
    && var last := w.tasks[chain[|chain| - 1]]; CanMove(w, last) || Owns(last)
  }

  lemma {:induction false} ChainFrom(w: World, id: nat) returns (chain: seq<nat>)
    requires Good(w) && id in w.tasks && !(w.tasks[id].phase.Leaving? && Empties(w.tasks[id]))
    ensures ChainOf(w, chain) && chain[0] == id && |chain| <= 1 + Ahead(w.tasks[id])
    decreases Ahead(w.tasks[id])
  {
    var t := w.tasks[id];
    chain := [id];
    if !CanMove(w, t) && !Owns(t) {
      var holder := SomebodyHolds(w, t);
      var rest := ChainFrom(w, holder);
      chain := [id] + rest;
      forall i | 0 <= i < |chain| - 1 ensures WaitsFor(w, w.tasks[chain[i]], w.tasks[chain[i + 1]]) {
        if i > 0 {
          assert WaitsFor(w, w.tasks[rest[i - 1]], w.tasks[rest[i]]);
        }
      }
    }
  }

  /** A waiting task is never stuck for good: it can take its permit, or the budget that refuses it has been
      granted to a task that either can move, or owns all three permits, or waits in turn for a budget further
      on; and so on, three links at most. */
  lemma ReserveCannotDeadlock(w: World, waiter: nat) returns (chain: seq<nat>)
    requires Good(w) && waiter in w.tasks && w.tasks[waiter].phase.Waiting?
    ensures ChainOf(w, chain) && chain[0] == waiter && |chain| <= 4
  {
    chain := ChainFrom(w, waiter);
  }
}
