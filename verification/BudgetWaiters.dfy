/** Waiting for room in one budget. A release changes the counters in one locked section and wakes the
    waiters after it; a wake-up is kept only for those already registered. */
module BudgetWaiters {
  import opened Budgets

  datatype Waiter =
    | Unregistered(bytes: nat)             // at the head of the loop
    | Registered(bytes: nat, woken: bool)  // about to test the counters
    | Sleeping(bytes: nat, woken: bool)    // they had no room for it

  datatype World = World(
    state: BudgetState,
    waiters: map<nat, Waiter>,
    notifying: nat)                        // releases that have left their section and not yet woken anybody

  datatype Step =
    | Arrive(task: nat, bytes: nat)
    | Register(task: nat)
    | Test(task: nat)
    | Resume(task: nat)
    | GiveUp(task: nat)                    // the time ran out, or the task was dropped
    | TryAcquire(bytes: nat)               // by someone who does not wait
    | Extend(more: nat)
    | Shrink(less: nat)
    | Release(held: nat)
    | Nudge                                // the end of a request or of a channel wakes the waiters too
    | Notify

  predicate Enabled(w: World, step: Step) {
    match step
    case Arrive(task, _) => task !in w.waiters
    case Register(task) => task in w.waiters && w.waiters[task].Unregistered?
    case Test(task) => task in w.waiters && w.waiters[task].Registered?
    case Resume(task) => task in w.waiters && w.waiters[task].Sleeping? && w.waiters[task].woken
    case GiveUp(task) => task in w.waiters
    case TryAcquire(_) => true
    case Extend(_) => w.state.requests > 0
    case Shrink(less) => less <= w.state.bytes
    case Release(held) => w.state.requests > 0 && held <= w.state.bytes
    case Nudge => true
    case Notify => w.notifying > 0
  }

  function Woken(waiter: Waiter): Waiter {
    if waiter.Unregistered? then waiter else waiter.(woken := true)
  }

  /** What each step does to a budget of these limits. */
  function Do(w: World, step: Step, limits: BudgetState): World
    requires Enabled(w, step)
  {
    match step
    case Arrive(task, bytes) => w.(waiters := w.waiters[task := Unregistered(bytes)])
    case Register(task) => w.(waiters := w.waiters[task := Registered(w.waiters[task].bytes, false)])
    case Test(task) =>
      var waiter := w.waiters[task];
      if w.state.Admits(limits, waiter.bytes)
      then w.(state := w.state.Plus(BudgetState(1, waiter.bytes)), waiters := w.waiters - {task})
      else w.(waiters := w.waiters[task := Sleeping(waiter.bytes, waiter.woken)])
    case Resume(task) => w.(waiters := w.waiters[task := Unregistered(w.waiters[task].bytes)])
    case GiveUp(task) => w.(waiters := w.waiters - {task})
    case TryAcquire(bytes) =>
      if w.state.Admits(limits, bytes) then w.(state := w.state.Plus(BudgetState(1, bytes))) else w
    case Extend(more) =>
      if w.state.bytes + more <= limits.bytes then w.(state := w.state.(bytes := w.state.bytes + more)) else w
    case Shrink(less) => w.(state := w.state.(bytes := w.state.bytes - less), notifying := w.notifying + 1)
    case Release(held) =>
      w.(state := BudgetState(w.state.requests - 1, w.state.bytes - held), notifying := w.notifying + 1)
    case Nudge => w.(notifying := w.notifying + 1)
    case Notify => w.(notifying := w.notifying - 1, waiters := map t | t in w.waiters :: Woken(w.waiters[t]))
  }

  /** Whoever sleeps without a wake-up has no room, or one is owed. */
  ghost predicate WakeUpsComing(w: World, limits: BudgetState) {
    forall t | t in w.waiters && w.waiters[t].Sleeping? && !w.waiters[t].woken ::
      w.notifying > 0 || !w.state.Admits(limits, w.waiters[t].bytes)
  }

  lemma StepKeepsWakeUps(w: World, step: Step, limits: BudgetState)
    requires WakeUpsComing(w, limits) && Enabled(w, step)
    ensures WakeUpsComing(Do(w, step, limits), limits)
  {
  }

  ghost predicate IsRun(ws: seq<World>, steps: seq<Step>, limits: BudgetState) {
    && |ws| == |steps| + 1 && ws[0] == World(BudgetState(0, 0), map[], 0)
    && (forall i {:trigger steps[i]} | 0 <= i < |steps| ::
         Enabled(ws[i], steps[i]) && ws[i + 1] == Do(ws[i], steps[i], limits))
  }

  lemma {:induction false} RunsKeepWakeUps(ws: seq<World>, steps: seq<Step>, limits: BudgetState, at: nat)
    requires IsRun(ws, steps, limits) && at < |ws|
    ensures WakeUpsComing(ws[at], limits) && ws[at].state.Within(limits)
    decreases at
  {
    if at > 0 {
      RunsKeepWakeUps(ws, steps, limits, at - 1);
      StepKeepsWakeUps(ws[at - 1], steps[at - 1], limits);
    }
  }

  /** In every run: nobody sleeps on a budget that has room for its request, unless a wake-up is stored for it or
      still owed; and the one that is owed reaches it. */
  lemma NobodyOversleeps(ws: seq<World>, steps: seq<Step>, limits: BudgetState, at: nat, task: nat)
    requires IsRun(ws, steps, limits) && at < |ws|
    requires task in ws[at].waiters && ws[at].waiters[task].Sleeping?
    requires ws[at].state.Admits(limits, ws[at].waiters[task].bytes)
    ensures Enabled(ws[at], Resume(task)) ||
      (Enabled(ws[at], Notify) && Enabled(Do(ws[at], Notify, limits), Resume(task)))
  {
    RunsKeepWakeUps(ws, steps, limits, at);
  }
}
