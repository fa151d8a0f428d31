/** Connection generations of one lane: a stream that times out poisons the generation it shares with
    others, and the generation is retired when the last of its streams is gone. Each function is one
    section under the admission lock or the connection lock. */
module Generations {
  import opened Options
  import opened Totals

  datatype Lane = Lane(
    generation: nat,
    sender: bool,              // a sender for `generation` is published
    driver: Option<nat>,       // the connection task, named by the generation it drives
    retired: set<nat>,         // earlier connection tasks still owned by the lane
    aborted: set<nat>,         // connection tasks that were cancelled
    counts: map<nat, nat>,     // active requests, by generation
    poisoned: set<nat>)        // generations to invalidate when idle

  function Fresh(): Lane {
    Lane(0, false, None, {}, {}, map[], {})
  }

  function Count(lane: Lane, g: nat): nat {
    if g in lane.counts then lane.counts[g] else 0
  }

  /** `connect` publishes: only it does, and only after finding no sender. */
  function Publish(lane: Lane): Lane {
    var g := lane.generation + 1;
    lane.(generation := g, sender := true, driver := Some(g),
          retired := if lane.driver.Some? then lane.retired + {lane.driver.value} else lane.retired)
  }

  function Invalidate(lane: Lane, g: nat): Lane {
    if lane.generation != g then lane
    else if lane.driver.None? then lane.(sender := false)
    else lane.(sender := false, driver := None,
               retired := lane.retired + {lane.driver.value}, aborted := lane.aborted + {lane.driver.value})
  }

  predicate Admissible(lane: Lane, g: nat) {
    g !in lane.poisoned && lane.generation == g && lane.sender
  }

  function Admit(lane: Lane, g: nat): Lane {
    lane.(counts := lane.counts[g := Count(lane, g) + 1])
  }

  /** A request timed out: `invalidate_connection_if_idle`. */
  function TimeOut(lane: Lane, g: nat): Lane {
    if Count(lane, g) != 0 then lane.(poisoned := lane.poisoned + {g})
    else Invalidate(lane.(poisoned := lane.poisoned - {g}), g)
  }

  /** The guard of an active request is dropped; true when a poisoned generation was retired. */
  function Drop(lane: Lane, g: nat): (Lane, bool) {
    if g !in lane.counts then (lane, false)
    else
      var left := if lane.counts[g] < 1 then 0 else lane.counts[g] - 1;
      if left > 0 then (lane.(counts := lane.counts[g := left]), false)
      else
        var idle := lane.(counts := lane.counts - {g});
        if g in lane.poisoned then (Invalidate(idle.(poisoned := lane.poisoned - {g}), g), true) else (idle, false)
  }

  /** The connection task ended by itself; true when waiters are to be woken. */
  function Ended(lane: Lane, g: nat): (Lane, bool) {
    if lane.generation == g then (lane.(sender := false), true) else (lane, false)
  }

  // ---------------------------------------------------------------- runs

  /** A request on its way to a stream: it registers for a wake-up before it tests for poison. */
  datatype Entrant =
    | Registered(woken: bool)
    | Waiting(g: nat, woken: bool)    // it met a poisoned generation

  datatype World = World(
    lane: Lane,
    guards: map<nat, nat>,        // live request guards and the generation each belongs to
    entrants: map<nat, Entrant>,
    notifying: nat)               // wake-ups owed by callers that have left their lock

  datatype Step =
    | Connect
    | Register(request: nat)
    | Start(request: nat, g: nat, headersSent: bool)
    | Resume(request: nat)
    | DropGuard(request: nat)
    | RequestTimeout(g: nat)
    | SenderFailed(g: nat)
    | DriverEnded(g: nat)
    | Notify

  predicate Enabled(w: World, step: Step) {
    match step
    case Connect => !w.lane.sender
    case Register(request) => request !in w.guards && request !in w.entrants
    case Start(request, g, _) => request in w.entrants && w.entrants[request].Registered? && g <= w.lane.generation
    case Resume(request) => request in w.entrants && w.entrants[request].Waiting? && w.entrants[request].woken
    case DropGuard(request) => request in w.guards
    case RequestTimeout(g) => g <= w.lane.generation
    case SenderFailed(g) => g <= w.lane.generation
    case DriverEnded(_) => true
    case Notify => w.notifying > 0
  }

  function Do(w: World, step: Step): World
    requires Enabled(w, step)
  {
    match step
    case Connect => w.(lane := Publish(w.lane))
    case Register(request) => w.(entrants := w.entrants[request := Registered(false)])
    case Start(request, g, headersSent) =>
      if g in w.lane.poisoned then w.(entrants := w.entrants[request := Waiting(g, w.entrants[request].woken)])
      else if Admissible(w.lane, g) && headersSent
        then w.(lane := Admit(w.lane, g), guards := w.guards[request := g], entrants := w.entrants - {request})
      else w.(entrants := w.entrants - {request})
    case Resume(request) => w.(entrants := w.entrants - {request})
    case DropGuard(request) =>
      var (lane, wake) := Drop(w.lane, w.guards[request]);
      w.(lane := lane, guards := w.guards - {request}, notifying := w.notifying + if wake then 1 else 0)
    case RequestTimeout(g) =>
      w.(lane := TimeOut(w.lane, g), notifying := w.notifying + if Count(w.lane, g) == 0 then 1 else 0)
    case SenderFailed(g) => w.(lane := Invalidate(w.lane, g))
    case DriverEnded(g) =>
      var (lane, wake) := Ended(w.lane, g);
      w.(lane := lane, notifying := w.notifying + if wake then 1 else 0)
    case Notify => w.(notifying := w.notifying - 1, entrants := map r | r in w.entrants :: Woken(w.entrants[r]))
  }

  function Woken(e: Entrant): Entrant {
    e.(woken := true)
  }

  function Of(g: nat): nat -> nat {
    (h: nat) => if h == g then 1 else 0
  }

  /** The request guards alive on generation `g`. */
  ghost function Streams(w: World, g: nat): nat {
    Total(w.guards, Of(g))
  }

  ghost predicate Counted(w: World) {
    forall g: nat :: Count(w.lane, g) == Streams(w, g) && (g in w.lane.counts ==> w.lane.counts[g] > 0)
  }

  ghost predicate Named(w: World) {
    && (w.lane.driver.Some? ==> w.lane.driver.value == w.lane.generation)
    && (w.lane.sender ==> w.lane.driver.Some?)
    && (forall g | g in w.lane.poisoned :: g <= w.lane.generation)
    && (forall r | r in w.guards :: w.guards[r] <= w.lane.generation)
    && w.guards.Keys !! w.entrants.Keys
    && (w.lane.generation == 0 ==> !w.lane.sender && w.guards == map[])
  }

  ghost predicate PoisonedAreBusy(w: World) {
    forall g | g in w.lane.poisoned :: Count(w.lane, g) >= 1
  }

  /** Nobody waits for a wake-up that is not still to come. */
  ghost predicate WakeUpsComing(w: World) {
    forall r | r in w.entrants && w.entrants[r].Waiting? ::
      w.entrants[r].woken || w.entrants[r].g in w.lane.poisoned || w.notifying > 0
  }

  ghost predicate Good(w: World) {
    Counted(w) && Named(w) && PoisonedAreBusy(w) && WakeUpsComing(w)
  }

  lemma DropEffect(lane: Lane, g: nat)
    requires g in lane.counts && forall h | h in lane.counts :: lane.counts[h] > 0
    ensures var (v, wake) := Drop(lane, g);
      && (forall h: nat :: Count(v, h) == Count(lane, h) - if h == g then 1 else 0)
      && (forall h | h in v.counts :: v.counts[h] > 0)
      && v.generation == lane.generation
      && v.poisoned == (if wake then lane.poisoned - {g} else lane.poisoned)
      && (wake <==> g in lane.poisoned && Count(lane, g) == 1)
      && (v.driver == lane.driver || v.driver.None?) && (v.sender ==> lane.sender && v.driver == lane.driver)
  {
  }

  lemma DropCounts(w: World, v: World, request: nat)
    requires Counted(w) && request in w.guards && v.guards == w.guards - {request}
    requires forall h: nat :: Count(v.lane, h) == Count(w.lane, h) - if h == w.guards[request] then 1 else 0
    requires forall h | h in v.lane.counts :: v.lane.counts[h] > 0
    ensures Counted(v)
  {
    forall h: nat ensures Count(v.lane, h) == Streams(v, h) && (h in v.lane.counts ==> v.lane.counts[h] > 0) {
      TotalRemove(w.guards, Of(h), request);
      assert Count(w.lane, h) == Streams(w, h);
    }
  }

  lemma GuardedIsCounted(w: World, request: nat)
    requires Good(w) && request in w.guards
    ensures w.guards[request] in w.lane.counts && forall h | h in w.lane.counts :: w.lane.counts[h] > 0
  {
    var g := w.guards[request];
    TotalBounds(w.guards, Of(g), request);
    assert Count(w.lane, g) == Streams(w, g);
    forall h | h in w.lane.counts ensures w.lane.counts[h] > 0 {
      assert Count(w.lane, h) == Streams(w, h);
    }
  }

  lemma StartCounts(w: World, request: nat, g: nat, headersSent: bool)
    requires Good(w) && Enabled(w, Start(request, g, headersSent))
    ensures Counted(Do(w, Start(request, g, headersSent)))
  {
    var v := Do(w, Start(request, g, headersSent));
    forall h: nat ensures Count(v.lane, h) == Streams(v, h) && (h in v.lane.counts ==> v.lane.counts[h] > 0) {
      TotalUpdate(w.guards, Of(h), request, g);
      assert Count(w.lane, h) == Streams(w, h);
    }
  }

  lemma OtherCounts(w: World, step: Step)
    requires Good(w) && Enabled(w, step) && !step.Start? && !step.DropGuard?
    ensures Counted(Do(w, step))
  {
    var v := Do(w, step);
    assert v.lane.counts == w.lane.counts && v.guards == w.guards;
    forall h: nat ensures Count(v.lane, h) == Streams(v, h) && (h in v.lane.counts ==> v.lane.counts[h] > 0) {
      assert Count(w.lane, h) == Streams(w, h);
    }
  }

  lemma DropKeepsRest(w: World, v: World, request: nat, wake: bool)
    requires Named(w) && PoisonedAreBusy(w) && WakeUpsComing(w) && request in w.guards
    requires v.guards == w.guards - {request} && v.entrants == w.entrants
    requires v.notifying == w.notifying + (if wake then 1 else 0)
    requires v.lane.poisoned == if wake then w.lane.poisoned - {w.guards[request]} else w.lane.poisoned
    requires wake <==> w.guards[request] in w.lane.poisoned && Count(w.lane, w.guards[request]) == 1
    requires v.lane.generation == w.lane.generation
    requires v.lane.driver == w.lane.driver || v.lane.driver.None?
    requires v.lane.sender ==> w.lane.sender && v.lane.driver == w.lane.driver
    requires forall h: nat :: Count(v.lane, h) == Count(w.lane, h) - if h == w.guards[request] then 1 else 0
    ensures Named(v) && PoisonedAreBusy(v) && WakeUpsComing(v)
  {
  }

  lemma DropKeepsGood(w: World, request: nat)
    requires Good(w) && request in w.guards
    ensures Good(Do(w, DropGuard(request)))
  {
    var v := Do(w, DropGuard(request));
    GuardedIsCounted(w, request);
    DropEffect(w.lane, w.guards[request]);
    DropCounts(w, v, request);
    DropKeepsRest(w, v, request, Drop(w.lane, w.guards[request]).1);
  }

  lemma TimeoutKeepsRest(w: World, g: nat)
    requires Named(w) && PoisonedAreBusy(w) && WakeUpsComing(w) && Enabled(w, RequestTimeout(g))
    ensures var v := Do(w, RequestTimeout(g)); Named(v) && PoisonedAreBusy(v) && WakeUpsComing(v)
  {
  }

  lemma OtherKeepsRest(w: World, step: Step)
    requires Named(w) && PoisonedAreBusy(w) && WakeUpsComing(w)
    requires Enabled(w, step) && !step.DropGuard? && !step.RequestTimeout?
    ensures var v := Do(w, step); Named(v) && PoisonedAreBusy(v) && WakeUpsComing(v)
  {
  }

  lemma StepKeepsGood(w: World, step: Step)
    requires Good(w) && Enabled(w, step)
    ensures Good(Do(w, step))
  {
    if step.DropGuard? {
      DropKeepsGood(w, step.request);
    } else {
      if step.RequestTimeout? {
        TimeoutKeepsRest(w, step.g);
      } else {
        OtherKeepsRest(w, step);
      }
      if step.Start? {
        StartCounts(w, step.request, step.g, step.headersSent);
      } else {
        OtherCounts(w, step);
      }
    }
  }

  ghost predicate IsRun(ws: seq<World>, steps: seq<Step>) {
    && |ws| == |steps| + 1 && ws[0] == World(Fresh(), map[], map[], 0)
    && (forall i {:trigger steps[i]} | 0 <= i < |steps| :: Enabled(ws[i], steps[i]) && ws[i + 1] == Do(ws[i], steps[i]))
  }

  lemma {:induction false} RunsAreGood(ws: seq<World>, steps: seq<Step>, at: nat)
    requires IsRun(ws, steps) && at < |ws|
    ensures Good(ws[at])
    decreases at
  {
    if at > 0 {
      RunsAreGood(ws, steps, at - 1);
      StepKeepsGood(ws[at - 1], steps[at - 1]);
    }
  }

  // ---------------------------------------------------------------- what this buys

  /** A timed-out request cancels the connection task only of its own generation, only with no other
      stream on it, and leaves a newer connection alone. */
  lemma TimeoutSparesOthers(w: World, g: nat)
    requires Good(w) && Enabled(w, RequestTimeout(g))
    ensures var v := Do(w, RequestTimeout(g));
      && (v.lane.aborted != w.lane.aborted ==> Streams(w, g) == 0 && v.lane.aborted == w.lane.aborted + {g})
      && (w.lane.generation != g ==> v.lane.sender == w.lane.sender && v.lane.driver == w.lane.driver
                                     && v.lane.aborted == w.lane.aborted)
      && (Streams(w, g) > 0 ==>
           g in v.lane.poisoned && v.lane.sender == w.lane.sender && v.lane.driver == w.lane.driver)
  {
    assert Count(w.lane, g) == Streams(w, g);
  }

  /** The deferred half: the guard that retires a poisoned generation is its last, it takes the sender
      away, and it owes the waiters a wake-up. */
  lemma LastGuardRetires(w: World, request: nat)
    requires Good(w) && request in w.guards && w.guards[request] in w.lane.poisoned
    ensures var g := w.guards[request];
      var v := Do(w, DropGuard(request));
      && (g !in v.lane.poisoned <==> Streams(w, g) == 1)
      && (g !in v.lane.poisoned ==> v.notifying == w.notifying + 1 && !Admissible(v.lane, g)
                                    && (w.lane.generation == g ==> !v.lane.sender && v.lane.driver.None?))
      && (g in v.lane.poisoned ==> v.lane.driver == w.lane.driver && v.lane.sender == w.lane.sender)
      && (w.lane.generation != g ==> v.lane.sender == w.lane.sender && v.lane.driver == w.lane.driver)
  {
    assert Count(w.lane, w.guards[request]) == Streams(w, w.guards[request]);
    TotalBounds(w.guards, Of(w.guards[request]), request);
  }

  /** A generation whose sender is gone. */
  predicate Over(lane: Lane, g: nat) {
    g < lane.generation || (g == lane.generation && !lane.sender)
  }

  lemma OverStays(w: World, step: Step, g: nat)
    requires Enabled(w, step) && Over(w.lane, g) && w.lane.generation > 0
    ensures Over(Do(w, step).lane, g) && Do(w, step).lane.generation >= w.lane.generation
    ensures forall r | r in Do(w, step).guards && Do(w, step).guards[r] == g :: r in w.guards && w.guards[r] == g
  {
  }

  /** Once its sender is gone a generation never carries a new stream, whatever clones are still about. */
  lemma {:induction false} OverIsForever(ws: seq<World>, steps: seq<Step>, start: nat, end: nat, g: nat)
    requires IsRun(ws, steps) && start <= end < |ws| && Over(ws[start].lane, g) && ws[start].lane.generation > 0
    ensures Over(ws[end].lane, g) && ws[end].lane.generation > 0
    ensures forall r | r in ws[end].guards && ws[end].guards[r] == g ::
        r in ws[start].guards && ws[start].guards[r] == g
    decreases end
  {
    if end != start {
      OverIsForever(ws, steps, start, end - 1, g);
      OverStays(ws[end - 1], steps[end - 1], g);
    }
  }

  lemma DropKeepsRetired(w: World, request: nat, g: nat)
    requires Good(w) && request in w.guards && w.lane.generation > 0 && (g in w.lane.poisoned || Over(w.lane, g))
    ensures var v := Do(w, DropGuard(request));
      && v.lane.generation > 0 && (g in v.lane.poisoned || Over(v.lane, g)) && Count(v.lane, g) <= Count(w.lane, g)
  {
    GuardedIsCounted(w, request);
    DropEffect(w.lane, w.guards[request]);
  }

  lemma RetiredOrPoisoned(w: World, step: Step, g: nat)
    requires Good(w) && Enabled(w, step) && w.lane.generation > 0 && (g in w.lane.poisoned || Over(w.lane, g))
    ensures var v := Do(w, step);
      && v.lane.generation > 0 && (g in v.lane.poisoned || Over(v.lane, g)) && Count(v.lane, g) <= Count(w.lane, g)
  {
    if step.DropGuard? {
      DropKeepsRetired(w, step.request, g);
    }
  }

  /** Once a generation is poisoned its count never rises again, however the run goes on: while poisoned it
      admits nothing, and when it is retired its sender is gone for good. */
  lemma {:induction false} PoisonedNeverRises(ws: seq<World>, steps: seq<Step>, start: nat, end: nat, g: nat)
    requires IsRun(ws, steps) && start <= end < |ws| && g in ws[start].lane.poisoned
    ensures g in ws[end].lane.poisoned || Over(ws[end].lane, g)
    ensures ws[end].lane.generation > 0 && Count(ws[end].lane, g) <= Count(ws[start].lane, g)
    decreases end
  {
    RunsAreGood(ws, steps, start);
    if end == start {
      PoisonedIsPublished(ws[start], g);
    } else {
      PoisonedNeverRises(ws, steps, start, end - 1, g);
      RunsAreGood(ws, steps, end - 1);
      hide Good, Enabled, Do, Over;
      RetiredOrPoisoned(ws[end - 1], steps[end - 1], g);
    }
  }

  /** Only a generation with streams is poisoned, and before the first connect there are none. */
  lemma PoisonedIsPublished(w: World, g: nat)
    requires Good(w) && g in w.lane.poisoned
    ensures w.lane.generation > 0
  {
    assert Count(w.lane, g) == Streams(w, g);
    TotalZero(w.guards, Of(g));
  }

  // ---------------------------------------------------------------- the lane's own fields

  class LaneConnection {
    var generation: nat
    var sender: bool
    var driver: Option<nat>
    var retired: set<nat>
    var aborted: set<nat>
    var counts: map<nat, nat>
    var poisoned: set<nat>

    constructor ()
      ensures View() == Fresh()
    {
      generation, sender, driver := 0, false, None;
      retired, aborted, counts, poisoned := {}, {}, map[], {};
    }

    function View(): Lane
      reads this
    {
      Lane(generation, sender, driver, retired, aborted, counts, poisoned)
    }

    method PublishConnection()
      modifies this
      ensures View() == Publish(old(View()))
    {
      generation := generation + 1;
      if driver.Some? {
        retired := retired + {driver.value};
      }
      sender, driver := true, Some(generation);
    }

    method InvalidateConnection(g: nat)
      modifies this
      ensures View() == Invalidate(old(View()), g)
    {
      if generation == g {
        sender := false;
        if driver.Some? {
          retired, aborted := retired + {driver.value}, aborted + {driver.value};
          driver := None;
        }
      }
    }

    method InvalidateIfIdle(g: nat) returns (invalidated: bool)
      modifies this
      ensures View() == TimeOut(old(View()), g) && invalidated == (Count(old(View()), g) == 0)
    {
      if g in counts && counts[g] != 0 {
        poisoned := poisoned + {g};
        return false;
      }
      poisoned := poisoned - {g};
      InvalidateConnection(g);
      return true;
    }

    /** Admission; `None` asks the caller to wait, `Some(false)` to start over with a new sender. */
    method StartRequest(g: nat) returns (admitted: Option<bool>)
      modifies this
      ensures admitted.None? <==> g in old(poisoned)
      ensures admitted == Some(true) <==> Admissible(old(View()), g)
      ensures View() == if admitted == Some(true) then Admit(old(View()), g) else old(View())
    {
      if g in poisoned {
        return None;
      }
      if generation != g || !sender {
        return Some(false);
      }
      counts := counts[g := if g in counts then counts[g] + 1 else 1];
      return Some(true);
    }

    method DropActive(g: nat) returns (wake: bool)
      modifies this
      ensures (View(), wake) == Drop(old(View()), g)
    {
      if g !in counts {
        return false;
      }
      counts := counts[g := if counts[g] < 1 then 0 else counts[g] - 1];
      if counts[g] == 0 {
        assert counts - {g} == old(counts) - {g};
        counts := counts - {g};
        if g in poisoned {
          poisoned := poisoned - {g};
          InvalidateConnection(g);
          return true;
        }
      }
      return false;
    }

    method ConnectionFinished(g: nat) returns (changed: bool)
      modifies this`sender
      ensures (View(), changed) == Ended(old(View()), g)
    {
      changed := generation == g;
      if changed {
        sender := false;
      }
    }
  }
}
