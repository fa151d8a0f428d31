/** The shared lanes of a pool: at most eight are alive, each holding a slot; one cold setup at a time may
    evict an idle lane and adds its own to the cache. Each step is one section under the pool's locks. */
module LanePool {
  import opened Options
  import opened Totals

  const MAX_LIVE_LANES := 8
  const MAX_CACHED_LANES := 8

  /** A lane is alive as long as something refers to it; it gives back its slot when it dies. */
  datatype Lane = Lane(
    host: nat,
    closed: bool,
    channels: nat,     // live channels, with the request tasks that keep them
    borrows: nat,      // other references for the time being
    lastUsed: nat)     // when a channel was last opened on it, or when it was made

  /** The cold open that holds the setup lock, and how far it has come. */
  datatype Setup =
    | Idle
    | Looking(host: nat)
    | Reserving(host: nat)
    | Evicting(host: nat, id: nat)     // waiting for the evicted lane to settle
    | Slotted(host: nat)               // holding a slot no lane has yet
    | Preflight(host: nat, id: nat)
    | Verified(host: nat, id: nat)     // its channel exists; about to be cached

  datatype World = World(
    lanes: map<nat, Lane>,
    cached: map<nat, nat>,     // by host
    tracked: set<nat>,
    free: nat,                 // slots
    setup: Setup,
    closed: bool,
    taken: bool,               // the closer has taken the lanes
    next: nat,
    now: nat)

  datatype Step =
    | Tick(now: nat)
    | HotOpen(host: nat)
    | LockSetup(host: nat)
    | Look(available: bool)
    | Reserve(victim: Option<nat>)
    | Settled
    | Create
    | PreflightEnds(ok: bool)
    | CacheLane(victim: Option<nat>)
    | Cancel
    | DropChannel(id: nat)
    | Borrow(id: nat)
    | Return(id: nat)
    | Prune(ids: set<nat>)
    | CloseFlag
    | CloseTake

  predicate Holds(setup: Setup, id: nat) {
    (setup.Evicting? || setup.Preflight? || setup.Verified?) && setup.id == id
  }

  predicate Cached(w: World, id: nat) {
    exists h :: h in w.cached && w.cached[h] == id
  }

  predicate Alive(w: World, id: nat)
    requires id in w.lanes
  {
    Cached(w, id) || id in w.tracked || Holds(w.setup, id) || w.lanes[id].channels > 0 || w.lanes[id].borrows > 0
  }

  /** The number of references to a lane. */
  function Strong(w: World, id: nat): nat
    requires id in w.lanes
  {
    (if Cached(w, id) then 1 else 0) + (if id in w.tracked then 1 else 0) + (if Holds(w.setup, id) then 1 else 0)
      + w.lanes[id].channels + w.lanes[id].borrows
  }

  /** The test an eviction makes. */
  predicate Evictable(w: World, id: nat) {
    Cached(w, id) && id in w.lanes && Strong(w, id) <= 2 && w.lanes[id].channels == 0
  }

  /** A victim is picked exactly when there is one: the one used least recently. */
  predicate Picks(w: World, victim: Option<nat>) {
    match victim
    case Some(id) =>
      && Evictable(w, id)
      && forall h | h in w.cached && Evictable(w, w.cached[h]) :: w.lanes[id].lastUsed <= w.lanes[w.cached[h]].lastUsed
    case None => forall h | h in w.cached :: !Evictable(w, w.cached[h])
  }

  /** Lanes nothing refers to die. */
  function Collect(w: World): World {
    var lanes := map id | id in w.lanes && Alive(w, id) :: w.lanes[id];
    w.(lanes := lanes, free := w.free + if |w.lanes| > |lanes| then |w.lanes| - |lanes| else 0)
  }

  function Uncached(cached: map<nat, nat>, id: nat): map<nat, nat> {
    map h | h in cached && cached[h] != id :: cached[h]
  }

  function WithLane(w: World, id: nat, lane: Lane): World {
    w.(lanes := w.lanes[id := lane])
  }

  predicate Enabled(w: World, step: Step) {
    match step
    case Tick(now) => now >= w.now
    case HotOpen(host) => !w.closed && host in w.cached && w.cached[host] in w.lanes
    case LockSetup(_) => w.setup.Idle?
    case Look(_) => w.setup.Looking? && (w.setup.host in w.cached ==> w.cached[w.setup.host] in w.lanes)
    case Reserve(victim) => w.setup.Reserving? && (w.free == 0 ==> Picks(w, victim))
    case Settled => w.setup.Evicting?
    case Create => w.setup.Slotted?
    case PreflightEnds(_) => w.setup.Preflight? && w.setup.id in w.lanes
    case CacheLane(victim) =>
      w.setup.Verified? && if |w.cached| >= MAX_CACHED_LANES then Picks(w, victim) else victim.None?
    case Cancel => !w.setup.Idle? && (w.setup.Preflight? || w.setup.Verified? ==> w.setup.id in w.lanes)
    case DropChannel(id) => id in w.lanes
        && w.lanes[id].channels > (if w.setup == Verified(w.lanes[id].host, id) then 1 else 0)
    case Borrow(id) => id in w.lanes
    case Return(id) => id in w.lanes && w.lanes[id].borrows > 0
    case Prune(ids) => forall id | id in ids ::
        id in w.tracked && id in w.lanes && w.lanes[id].closed && w.lanes[id].channels == 0
    case CloseFlag => true
    case CloseTake => w.closed && w.setup.Idle?
  }

  function Opened(w: World, id: nat): World
    requires id in w.lanes
  {
    WithLane(w, id, w.lanes[id].(channels := w.lanes[id].channels + 1, lastUsed := w.now))
  }

  function Closed(w: World, id: nat): World
    requires id in w.lanes
  {
    WithLane(w, id, w.lanes[id].(closed := true))
  }

  /** A step of the cold open. */
  function DoSetup(w: World, step: Step): World
    requires Enabled(w, step)
    requires step.LockSetup? || step.Look? || step.Reserve? || step.Settled? || step.Create?
          || step.PreflightEnds? || step.CacheLane? || step.Cancel?
  {
    match step
    case LockSetup(host) => w.(setup := Looking(host))
    case Look(available) =>
      if w.closed then w.(setup := Idle)
      else if w.setup.host in w.cached then
        (if available then Opened(w, w.cached[w.setup.host]) else w).(setup := Idle)
      else w.(setup := Reserving(w.setup.host))
    case Reserve(victim) =>
      if w.free > 0 then w.(free := w.free - 1, setup := Slotted(w.setup.host))
      else if victim.None? then w.(setup := Idle)
      else Closed(w, victim.value).(cached := Uncached(w.cached, victim.value),
          setup := Evicting(w.setup.host, victim.value))
    case Settled =>
      var v := Collect(w.(setup := Reserving(w.setup.host)));
      if v.free > 0 then v.(free := v.free - 1, setup := Slotted(w.setup.host)) else v.(setup := Idle)
    case Create =>
      if w.closed then w.(free := w.free + 1, setup := Idle)
      else
        w.(lanes := w.lanes[w.next := Lane(w.setup.host, false, 0, 0, w.now)], tracked := w.tracked + {w.next},
           setup := Preflight(w.setup.host, w.next), next := w.next + 1)
    case PreflightEnds(ok) =>
      if ok && !w.closed then Opened(w, w.setup.id).(setup := Verified(w.setup.host, w.setup.id))
      else Collect(Closed(w, w.setup.id).(setup := Idle))
    case CacheLane(victim) =>
      var v := if victim.Some? then Closed(w, victim.value).(cached := Uncached(w.cached, victim.value)) else w;
      (if |v.cached| < MAX_CACHED_LANES then v.(cached := v.cached[w.setup.host := w.setup.id]) else v).(setup := Idle)
    case Cancel =>
      match w.setup
      case Slotted(_) => w.(free := w.free + 1, setup := Idle)
      case Preflight(_, id) => Collect(Closed(w, id).(setup := Idle))
      case Verified(_, id) =>
        var lane := w.lanes[id];
        var left := if lane.channels > 0 then lane.channels - 1 else 0;
        Collect(WithLane(w, id, lane.(closed := true, channels := left)).(setup := Idle))
      case _ => Collect(w.(setup := Idle))
  }

  predicate OfRest(step: Step) {
    step.Tick? || step.HotOpen? || step.DropChannel? || step.Borrow? || step.Return? || step.Prune?
    || step.CloseFlag? || step.CloseTake?
  }

  function DoRest(w: World, step: Step): World
    requires Enabled(w, step)
    requires OfRest(step)
  {
    match step
    case Tick(now) => w.(now := now)
    case HotOpen(host) => Opened(w, w.cached[host])
    case DropChannel(id) => Collect(WithLane(w, id, w.lanes[id].(channels := w.lanes[id].channels - 1)))
    case Borrow(id) => WithLane(w, id, w.lanes[id].(borrows := w.lanes[id].borrows + 1))
    case Return(id) => Collect(WithLane(w, id, w.lanes[id].(borrows := w.lanes[id].borrows - 1)))
    case Prune(ids) => Collect(w.(tracked := w.tracked - ids))
    case CloseFlag => w.(closed := true)
    case CloseTake =>
      var lanes := map id | id in w.lanes ::
        if Cached(w, id) || id in w.tracked then w.lanes[id].(closed := true) else w.lanes[id];
      Collect(w.(lanes := lanes, cached := map[], tracked := {}, taken := true))
  }

  function Do(w: World, step: Step): World
    requires Enabled(w, step)
  {
    if OfRest(step) then DoRest(w, step) else DoSetup(w, step)
  }

  // ---------------------------------------------------------------- the invariant

  function Reserved(setup: Setup): nat {
    if setup.Slotted? then 1 else 0
  }

  /** Every slot is free, promised, or held by a lane that is alive. */
  ghost predicate SlotsConserved(w: World) {
    w.free + |w.lanes| + Reserved(w.setup) == MAX_LIVE_LANES
  }

  /** The cache names open lanes, each under its own host, that are tracked as well. */
  ghost predicate CacheGood(w: World) {
    forall h | h in w.cached ::
      var id := w.cached[h];
      id in w.lanes && w.lanes[id].host == h && !w.lanes[id].closed && id in w.tracked
  }

  ghost predicate Tracking(w: World) {
    && (forall id | id in w.tracked :: id in w.lanes)
    && (forall id | id in w.lanes :: id < w.next && (!w.lanes[id].closed ==> id in w.tracked))
  }

  ghost predicate SetupGood(w: World) {
    match w.setup
    case Idle => true
    case Looking(_) => true
    case Reserving(host) => host !in w.cached
    case Slotted(host) => host !in w.cached
    case Evicting(host, id) => host !in w.cached && id in w.lanes && w.lanes[id].closed
    case Preflight(host, id) =>
      host !in w.cached && id in w.lanes && w.lanes[id].host == host && !w.lanes[id].closed
    case Verified(host, id) =>
      host !in w.cached && id in w.lanes && w.lanes[id].host == host && !w.lanes[id].closed && w.lanes[id].channels > 0
  }

  /** After the closer took the lanes nothing is open any more, or ever again. */
  ghost predicate ClosedDown(w: World) {
    w.taken ==>
      && w.closed && w.cached == map[] && (w.setup.Idle? || w.setup.Looking?)
      && (forall id | id in w.lanes :: w.lanes[id].closed)
  }

  ghost predicate Good(w: World) {
    SlotsConserved(w) && CacheGood(w) && Tracking(w) && SetupGood(w) && ClosedDown(w)
  }

  lemma CollectKeepsGood(w: World)
    requires CacheGood(w) && Tracking(w) && SetupGood(w) && ClosedDown(w)
    requires w.free + |w.lanes| + Reserved(w.setup) == MAX_LIVE_LANES
    ensures Good(Collect(w))
    ensures forall id | id in Collect(w).lanes :: id in w.lanes && Collect(w).lanes[id] == w.lanes[id]
  {
    var v := Collect(w);
    assert v.lanes.Keys <= w.lanes.Keys;
    SubsetSize(v.lanes.Keys, w.lanes.Keys);
    forall h | h in w.cached ensures w.cached[h] in v.lanes {
      assert Cached(w, w.cached[h]);
    }
  }

  /** Lanes under different hosts are different lanes. */
  lemma InjectiveSize(m: map<nat, nat>, ids: set<nat>)
    requires forall h | h in m :: m[h] in ids
    requires forall h, g | h in m && g in m && m[h] == m[g] :: h == g
    ensures |m| <= |ids|
  {
    if m != map[] {
      var h :| h in m;
      InjectiveSize(m - {h}, ids - {m[h]});
    }
  }

  /** The lane that was just set up holds one of the eight slots itself, so it finds the cache with room. */
  lemma CacheHasRoom(w: World)
    requires Good(w) && w.setup.Verified?
    ensures |w.cached| < MAX_CACHED_LANES
  {
    InjectiveSize(w.cached, w.lanes.Keys - {w.setup.id});
  }

  /** A lane that passes the eviction test has no channel, no other reference, and is not being set up. */
  lemma EvictedIsIdle(w: World, id: nat)
    requires Good(w) && Evictable(w, id)
    ensures id in w.lanes && w.lanes[id].channels == 0 && w.lanes[id].borrows == 0 && !Holds(w.setup, id)
        && Strong(w, id) == 2
  {
    var h :| h in w.cached && w.cached[h] == id;
  }

  lemma SetupKeepsGood(w: World, step: Step)
    requires Good(w) && Enabled(w, step)
    requires step.LockSetup? || step.Look? || step.Create? || step.CacheLane?
    ensures Good(DoSetup(w, step))
  {
    if step.CacheLane? {
      CacheHasRoom(w);
    }
    if step.Create? {
      assert w.next !in w.lanes;
    }
  }

  lemma ReserveKeepsGood(w: World, step: Step)
    requires Good(w) && Enabled(w, step) && step.Reserve?
    ensures Good(DoSetup(w, step))
  {
    if w.free == 0 && step.victim.Some? {
      var h :| h in w.cached && w.cached[h] == step.victim.value;
      assert w.lanes[step.victim.value := w.lanes[step.victim.value].(closed := true)].Keys == w.lanes.Keys;
    }
  }

  lemma SettledKeepsGood(w: World)
    requires Good(w) && Enabled(w, Settled)
    ensures Good(DoSetup(w, Settled))
  {
    CollectKeepsGood(w.(setup := Reserving(w.setup.host)));
  }

  lemma PreflightKeepsGood(w: World, ok: bool)
    requires Good(w) && Enabled(w, PreflightEnds(ok))
    ensures Good(DoSetup(w, PreflightEnds(ok)))
  {
    if !(ok && !w.closed) {
      UncachedClosed(w, w.setup.id);
      CollectKeepsGood(Closed(w, w.setup.id).(setup := Idle));
    }
  }

  /** A lane that is still being set up is not in the cache. */
  lemma UncachedClosed(w: World, id: nat)
    requires Good(w) && (w.setup.Preflight? || w.setup.Verified?) && id == w.setup.id
    ensures !Cached(w, id)
    ensures w.lanes[id := w.lanes[id].(closed := true)].Keys == w.lanes.Keys
  {
  }

  lemma VerifiedGivenUp(w: World, id: nat)
    requires Good(w) && w.setup.Verified? && id == w.setup.id
    ensures var lane := w.lanes[id].(closed := true, channels := w.lanes[id].channels - 1);
      Good(Collect(WithLane(w, id, lane).(setup := Idle)))
  {
    hide Collect;
    UncachedClosed(w, id);
    var lane := w.lanes[id].(closed := true, channels := w.lanes[id].channels - 1);
    assert w.lanes[id := lane].Keys == w.lanes.Keys;
    CollectKeepsGood(WithLane(w, id, lane).(setup := Idle));
  }

  lemma CancelKeepsGood(w: World)
    requires Good(w) && Enabled(w, Cancel)
    ensures Good(DoSetup(w, Cancel))
  {
    match w.setup {
      case Slotted(_) =>
      case Preflight(_, id) =>
        UncachedClosed(w, id);
        CollectKeepsGood(Closed(w, id).(setup := Idle));
      case Verified(_, id) =>
        VerifiedGivenUp(w, id);
      case _ => CollectKeepsGood(w.(setup := Idle));
    }
  }

  lemma ReleaseKeepsGood(w: World, id: nat, lane: Lane)
    requires Good(w) && id in w.lanes
    requires lane.host == w.lanes[id].host && lane.closed == w.lanes[id].closed
    requires w.setup == Verified(lane.host, id) ==> lane.channels > 0
    ensures Good(WithLane(w, id, lane)) && Good(Collect(WithLane(w, id, lane)))
  {
    assert w.lanes[id := lane].Keys == w.lanes.Keys;
    CollectKeepsGood(WithLane(w, id, lane));
  }

  lemma HotOpenKeepsGood(w: World, host: nat)
    requires Good(w) && Enabled(w, HotOpen(host))
    ensures Good(DoRest(w, HotOpen(host)))
  {
    var lane := w.lanes[w.cached[host]];
    ReleaseKeepsGood(w, w.cached[host], lane.(channels := lane.channels + 1, lastUsed := w.now));
  }

  lemma DropChannelKeepsGood(w: World, id: nat)
    requires Good(w) && Enabled(w, DropChannel(id))
    ensures Good(DoRest(w, DropChannel(id)))
  {
    ReleaseKeepsGood(w, id, w.lanes[id].(channels := w.lanes[id].channels - 1));
  }

  lemma BorrowKeepsGood(w: World, id: nat)
    requires Good(w) && Enabled(w, Borrow(id))
    ensures Good(DoRest(w, Borrow(id)))
  {
    ReleaseKeepsGood(w, id, w.lanes[id].(borrows := w.lanes[id].borrows + 1));
  }

  lemma ReturnKeepsGood(w: World, id: nat)
    requires Good(w) && Enabled(w, Return(id))
    ensures Good(DoRest(w, Return(id)))
  {
    ReleaseKeepsGood(w, id, w.lanes[id].(borrows := w.lanes[id].borrows - 1));
  }

  lemma PruneKeepsGood(w: World, step: Step)
    requires Good(w) && Enabled(w, step) && (step.Prune? || step.CloseFlag? || step.Tick?)
    ensures Good(DoRest(w, step))
  {
    if step.Prune? {
      CollectKeepsGood(w.(tracked := w.tracked - step.ids));
    }
  }

  lemma TakeKeepsGood(w: World)
    requires Good(w) && Enabled(w, CloseTake)
    ensures Good(DoRest(w, CloseTake))
  {
    var lanes := map id | id in w.lanes ::
      if Cached(w, id) || id in w.tracked then w.lanes[id].(closed := true) else w.lanes[id];
    assert lanes.Keys == w.lanes.Keys;
    CollectKeepsGood(w.(lanes := lanes, cached := map[], tracked := {}, taken := true));
  }

  lemma StepKeepsGood(w: World, step: Step)
    requires Good(w) && Enabled(w, step)
    ensures Good(Do(w, step))
  {
    hide Good, Enabled, DoSetup, DoRest;
    match step {
      case Reserve(_) => ReserveKeepsGood(w, step);
      case Settled => SettledKeepsGood(w);
      case PreflightEnds(ok) => PreflightKeepsGood(w, ok);
      case Cancel => CancelKeepsGood(w);
      case LockSetup(_) => SetupKeepsGood(w, step);
      case Look(_) => SetupKeepsGood(w, step);
      case Create => SetupKeepsGood(w, step);
      case CacheLane(_) => SetupKeepsGood(w, step);
      case CloseTake => TakeKeepsGood(w);
      case HotOpen(host) => HotOpenKeepsGood(w, host);
      case DropChannel(id) => DropChannelKeepsGood(w, id);
      case Borrow(id) => BorrowKeepsGood(w, id);
      case Return(id) => ReturnKeepsGood(w, id);
      case Prune(_) => PruneKeepsGood(w, step);
      case CloseFlag => PruneKeepsGood(w, step);
      case Tick(_) => PruneKeepsGood(w, step);
    }
  }

  function Fresh(): World {
    World(map[], map[], {}, MAX_LIVE_LANES, Idle, false, false, 0, 0)
  }

  ghost predicate IsRun(ws: seq<World>, steps: seq<Step>) {
    && |ws| == |steps| + 1 && ws[0] == Fresh()
    && (forall i {:trigger steps[i]} | 0 <= i < |steps| :: Enabled(ws[i], steps[i]) && ws[i + 1] == Do(ws[i], steps[i]))
  }

  lemma {:induction false} RunsAreGood(ws: seq<World>, steps: seq<Step>, at: nat)
    requires IsRun(ws, steps) && at < |ws|
    ensures Good(ws[at])
    decreases at
  {
    if at > 0 {
      RunsAreGood(ws, steps, at - 1);
      hide Good, Enabled, Do;
      StepKeepsGood(ws[at - 1], steps[at - 1]);
    }
  }

  // ---------------------------------------------------------------- what this buys

  /** In every run at most eight lanes are alive, each with its slot, and at most eight are cached, all of
      them open. */
  lemma NeverMoreThanEight(ws: seq<World>, steps: seq<Step>, at: nat)
    requires IsRun(ws, steps) && at < |ws|
    ensures |ws[at].lanes| <= MAX_LIVE_LANES && |ws[at].cached| <= MAX_CACHED_LANES
    ensures forall h | h in ws[at].cached :: ws[at].cached[h] in ws[at].lanes && !ws[at].lanes[ws[at].cached[h]].closed
  {
    RunsAreGood(ws, steps, at);
    InjectiveSize(ws[at].cached, ws[at].lanes.Keys);
  }

  /** In every run a lane that was set up goes into the cache, and nothing is evicted to make room for it. */
  lemma SetupIsCached(ws: seq<World>, steps: seq<Step>, at: nat)
    requires IsRun(ws, steps) && at < |steps| && steps[at].CacheLane?
    ensures steps[at].victim == None && ws[at].setup.host !in ws[at].cached
    ensures ws[at + 1].cached == ws[at].cached[ws[at].setup.host := ws[at].setup.id]
    ensures ws[at + 1].lanes == ws[at].lanes
  {
    RunsAreGood(ws, steps, at);
    CacheHasRoom(ws[at]);
  }

  /** A lane that is neither cached nor in the hands of a setup is left as it is by the cold open; so is a
      cached one that is in use. */
  lemma SetupSparesBusy(w: World, step: Step, id: nat)
    requires Good(w) && Enabled(w, step) && id in w.lanes && !w.lanes[id].closed && !Holds(w.setup, id)
    requires w.lanes[id].channels > 0 || w.lanes[id].borrows > 0
    requires step.LockSetup? || step.Look? || step.Reserve? || step.Settled? || step.Create?
          || step.PreflightEnds? || step.CacheLane? || step.Cancel?
    ensures id in DoSetup(w, step).lanes ==> !DoSetup(w, step).lanes[id].closed
  {
    if step.CacheLane? {
      CacheHasRoom(w);
    } else if step.Reserve? && w.free == 0 && step.victim == Some(id) {
      EvictedIsIdle(w, id);
    }
  }

  lemma RestSparesAll(w: World, step: Step, id: nat)
    requires Enabled(w, step) && id in w.lanes && !w.lanes[id].closed
    requires OfRest(step) && !step.CloseTake?
    ensures id in DoRest(w, step).lanes ==> !DoRest(w, step).lanes[id].closed
  {
  }

  /** In every run an open lane with a channel or any other reference is closed only by closing the pool,
      unless it is the one being set up. */
  lemma BusyIsNotClosed(ws: seq<World>, steps: seq<Step>, at: nat, id: nat)
    requires IsRun(ws, steps) && at < |steps| && id in ws[at].lanes && !ws[at].lanes[id].closed
    requires ws[at].lanes[id].channels > 0 || ws[at].lanes[id].borrows > 0
    requires !Holds(ws[at].setup, id)
    requires id in ws[at + 1].lanes && ws[at + 1].lanes[id].closed
    ensures steps[at] == CloseTake
  {
    RunsAreGood(ws, steps, at);
    hide Good, Enabled, DoSetup, DoRest;
    var w, step := ws[at], steps[at];
    match step {
      case CloseTake =>
      case HotOpen(_) => RestSparesAll(w, step, id);
      case DropChannel(_) => RestSparesAll(w, step, id);
      case Borrow(_) => RestSparesAll(w, step, id);
      case Return(_) => RestSparesAll(w, step, id);
      case Prune(_) => RestSparesAll(w, step, id);
      case CloseFlag => RestSparesAll(w, step, id);
      case Tick(_) => RestSparesAll(w, step, id);
      case _ => SetupSparesBusy(w, step, id);
    }
  }

  /** A step that makes a lane or opens a channel on it. */
  predicate Uses(w: World, step: Step, id: nat) {
    match step
    case HotOpen(host) => host in w.cached && w.cached[host] == id
    case Look(available) => available && !w.closed && w.setup.Looking? && w.setup.host in w.cached
                            && w.cached[w.setup.host] == id
    case Create => !w.closed && w.next == id
    case PreflightEnds(ok) => ok && !w.closed && w.setup.Preflight? && w.setup.id == id
    case _ => false
  }

  /** When the lane was last used in this run. */
  ghost function LastUse(ws: seq<World>, steps: seq<Step>, at: nat, id: nat): nat
    requires |ws| == |steps| + 1 && at < |ws|
    decreases at
  {
    if at == 0 then 0
    else if Uses(ws[at - 1], steps[at - 1], id) then ws[at - 1].now
    else LastUse(ws, steps, at - 1, id)
  }

  /** What a step makes of a lane's record of its last use. */
  ghost predicate Notes(w: World, step: Step, v: World, id: nat) {
    id in v.lanes ==>
      if Uses(w, step, id) then v.lanes[id].lastUsed == w.now
      else id in w.lanes && v.lanes[id].lastUsed == w.lanes[id].lastUsed
  }

  lemma CollectKeepsLanes(w: World)
    ensures forall id | id in Collect(w).lanes :: id in w.lanes && Collect(w).lanes[id] == w.lanes[id]
  {
    hide Alive;
  }

  lemma CancelCollects(w: World)
    requires Enabled(w, Cancel)
    ensures forall id | id in DoSetup(w, Cancel).lanes ::
      id in w.lanes && DoSetup(w, Cancel).lanes[id].lastUsed == w.lanes[id].lastUsed
  {
    hide Collect;
    match w.setup {
      case Slotted(_) =>
      case Preflight(_, id) => CollectKeepsLanes(Closed(w, id).(setup := Idle));
      case Verified(_, id) =>
        var left := if w.lanes[id].channels > 0 then w.lanes[id].channels - 1 else 0;
        CollectKeepsLanes(WithLane(w, id, w.lanes[id].(closed := true, channels := left)).(setup := Idle));
      case _ => CollectKeepsLanes(w.(setup := Idle));
    }
  }

  lemma SetupNotesUse(w: World, step: Step, id: nat)
    requires Good(w) && Enabled(w, step) && !OfRest(step)
    ensures Notes(w, step, DoSetup(w, step), id)
  {
    hide SlotsConserved, CacheGood, ClosedDown, Alive, Collect;
    match step {
      case Settled => CollectKeepsLanes(w.(setup := Reserving(w.setup.host)));
      case PreflightEnds(_) => CollectKeepsLanes(Closed(w, w.setup.id).(setup := Idle));
      case Cancel => CancelCollects(w);
      case _ =>
    }
  }

  lemma RestNotesUse(w: World, step: Step, id: nat)
    requires Enabled(w, step) && OfRest(step)
    ensures Notes(w, step, DoRest(w, step), id)
  {
    hide Alive, Evictable;
  }

  lemma StepNotesUse(w: World, step: Step, id: nat)
    requires Good(w) && Enabled(w, step)
    ensures Notes(w, step, Do(w, step), id)
  {
    hide Good, Enabled, DoSetup, DoRest, Notes;
    if OfRest(step) {
      RestNotesUse(w, step, id);
    } else {
      SetupNotesUse(w, step, id);
    }
  }

  lemma {:induction false} RunsNoteUse(ws: seq<World>, steps: seq<Step>, at: nat, id: nat)
    requires IsRun(ws, steps) && at < |ws| && id in ws[at].lanes
    ensures ws[at].lanes[id].lastUsed == LastUse(ws, steps, at, id)
    decreases at
  {
    if at > 0 {
      RunsAreGood(ws, steps, at - 1);
      hide Good, Enabled, Do, Uses;
      StepNotesUse(ws[at - 1], steps[at - 1], id);
      if !Uses(ws[at - 1], steps[at - 1], id) {
        RunsNoteUse(ws, steps, at - 1, id);
      }
    }
  }

  /** The evicted lane is closed as it leaves the cache, and only it; of the lanes that could be evicted it is
      the one that was used least recently in the run. */
  lemma EvictionClosesOne(ws: seq<World>, steps: seq<Step>, at: nat)
    requires IsRun(ws, steps) && at < |steps| && steps[at].Reserve? && ws[at].free == 0 && steps[at].victim.Some?
    ensures var id := steps[at].victim.value;
      && id in ws[at].lanes && ws[at].lanes[id].channels == 0 && ws[at].lanes[id].borrows == 0
      && ws[at + 1].lanes == ws[at].lanes[id := ws[at].lanes[id].(closed := true)]
      && ws[at + 1].cached == ws[at].cached - {ws[at].lanes[id].host}
      && !Cached(ws[at + 1], id)
    ensures forall other | Evictable(ws[at], other) ::
      LastUse(ws, steps, at, steps[at].victim.value) <= LastUse(ws, steps, at, other)
  {
    RunsAreGood(ws, steps, at);
    var id := steps[at].victim.value;
    EvictedIsIdle(ws[at], id);
    var h :| h in ws[at].cached && ws[at].cached[h] == id;
    forall other | Evictable(ws[at], other)
      ensures LastUse(ws, steps, at, id) <= LastUse(ws, steps, at, other)
    {
      var g :| g in ws[at].cached && ws[at].cached[g] == other;
      RunsNoteUse(ws, steps, at, id);
      RunsNoteUse(ws, steps, at, other);
    }
  }

  lemma TakenStays(w: World, step: Step)
    requires Good(w) && Enabled(w, step) && w.taken
    ensures Do(w, step).taken && Do(w, step).lanes.Keys <= w.lanes.Keys
  {
  }

  lemma {:induction false} TakenForever(ws: seq<World>, steps: seq<Step>, start: nat, end: nat)
    requires IsRun(ws, steps) && start <= end < |ws| && ws[start].taken
    ensures ws[end].taken && ws[end].lanes.Keys <= ws[start].lanes.Keys
    decreases end
  {
    if end != start {
      TakenForever(ws, steps, start, end - 1);
      hide Good, Enabled, Do;
      RunsAreGood(ws, steps, end - 1);
      TakenStays(ws[end - 1], steps[end - 1]);
    }
  }

  /** Once the closer has taken the lanes, every lane is closed, none is cached, and none is ever made. */
  lemma ClosedForGood(ws: seq<World>, steps: seq<Step>, start: nat, end: nat)
    requires IsRun(ws, steps) && start <= end < |ws| && ws[start].taken
    ensures ws[end].cached == map[] && ws[end].lanes.Keys <= ws[start].lanes.Keys
    ensures forall id | id in ws[end].lanes :: ws[end].lanes[id].closed
  {
    TakenForever(ws, steps, start, end);
    RunsAreGood(ws, steps, end);
  }
}
