/** A channel's map of pending requests beside the permits of their tasks. Inserting a request and handing its
    permits to the guard are one locked section, and the guard's first act takes both away. */
module PendingRequests {
  import opened Options
  import opened Totals
  import opened Channel
  import Runs = ChannelRuns
  import opened FailProtocol
  import opened Admission

  /** One channel, all tasks of the process, and whose permits each pending request has. */
  datatype Pair = Pair(channel: Runs.World, tasks: Admission.World, owner: map<nat, nat>)

  datatype Act =
    | OfTask(move: Admission.Step)
    | OfChannel(step: Runs.Step)
    | LaunchWith(task: nat, step: Runs.Step)   // an original, or a replay that was granted its permits
    | DropWith(request: nat)

  /** Inserts a request if it is not refused. */
  predicate Inserts(step: Runs.Step) {
    step.Send? || (step.Replay? && step.granted)
  }

  predicate Possible(p: Pair, k: nat, act: Act) {
    match act
    case OfTask(step) =>
      Admission.Enabled(p.tasks, step) &&
      ((step.Launch? || (step.Finish? && p.tasks.tasks[step.task].pending)) ==> p.tasks.tasks[step.task].channel != k)
    case OfChannel(step) => Runs.Enabled(p.channel, step) && !Inserts(step) && !step.DropGuard?
    case LaunchWith(task, step) =>
      && Runs.Enabled(p.channel, step) && Inserts(step)
      && Admission.Enabled(p.tasks, Launch(task)) && p.tasks.tasks[task].channel == k
    case DropWith(request) =>
      && Runs.Enabled(p.channel, Runs.DropGuard(request))
      && request in p.owner && Admission.Enabled(p.tasks, Finish(p.owner[request]))
  }

  function Perform(p: Pair, k: nat, act: Act): Pair
    requires Possible(p, k, act)
  {
    match act
    case OfTask(step) => p.(tasks := Admission.Do(p.tasks, step))
    case OfChannel(step) => p.(channel := Runs.Do(p.channel, step))
    case LaunchWith(task, step) =>
      var after := Runs.Do(p.channel, step);
      if after.s.nextRequest == p.channel.s.nextRequest
      then Pair(after, Admission.Do(p.tasks, Finish(task)), p.owner)
      else Pair(after, Admission.Do(p.tasks, Launch(task)), p.owner[after.s.nextRequest := task])
    case DropWith(request) =>
      Pair(Runs.Do(p.channel, Runs.DropGuard(request)), Admission.Do(p.tasks, Finish(p.owner[request])),
          p.owner - {request})
  }

  predicate IsPending(t: Task, k: nat) {
    t.pending && t.channel == k
  }

  /** The pending requests are owned, each by a task of its own that is pending in this channel; and those are
      all such tasks. */
  ghost predicate OwnedBy(requests: set<nat>, tasks: map<nat, Task>, owner: map<nat, nat>, k: nat) {
    && owner.Keys == requests
    && (forall r | r in owner :: owner[r] in tasks && IsPending(tasks[owner[r]], k))
    && (forall r, q | r in owner && q in owner && owner[r] == owner[q] :: r == q)
    && (forall t | t in tasks && IsPending(tasks[t], k) :: exists r :: r in owner && owner[r] == t)
  }

  ghost predicate Owned(p: Pair, k: nat) {
    OwnedBy(p.channel.s.pending.Keys, p.tasks.tasks, p.owner, k)
  }

  ghost predicate AllGood(p: Pair, k: nat) {
    Sound(p.channel) && Good(p.tasks) && Owned(p, k)
  }

  lemma SameOwned(requests: set<nat>, tasks: map<nat, Task>, after: map<nat, Task>, owner: map<nat, nat>, k: nat)
    requires OwnedBy(requests, tasks, owner, k)
    requires forall t | t in tasks && IsPending(tasks[t], k) :: t in after && IsPending(after[t], k)
    requires forall t | t in after && IsPending(after[t], k) :: t in tasks && IsPending(tasks[t], k)
    ensures OwnedBy(requests, after, owner, k)
  {
  }

  lemma InsertOwned(requests: set<nat>, tasks: map<nat, Task>, owner: map<nat, nat>, k: nat, r: nat, t: nat,
      launched: Task)
    requires OwnedBy(requests, tasks, owner, k) && r !in requests
    requires t in tasks && !tasks[t].pending && IsPending(launched, k)
    ensures OwnedBy(requests + {r}, tasks[t := launched], owner[r := t], k)
  {
    var after, owners := tasks[t := launched], owner[r := t];
    assert owners[r] == t;
    forall u | u in after && IsPending(after[u], k) ensures exists q :: q in owners && owners[q] == u {
      if u != t {
        var q :| q in owner && owner[q] == u;
        assert owners[q] == u;
      }
    }
  }

  lemma RemoveOwned(requests: set<nat>, tasks: map<nat, Task>, owner: map<nat, nat>, k: nat, r: nat, done: Task)
    requires OwnedBy(requests, tasks, owner, k) && r in owner && !done.pending
    ensures OwnedBy(requests - {r}, tasks[owner[r] := done], owner - {r}, k)
  {
    var after, owners := tasks[owner[r] := done], owner - {r};
    forall u | u in after && IsPending(after[u], k) ensures exists q :: q in owners && owners[q] == u {
      var q :| q in owner && owner[q] == u;
      assert owners[q] == u;
    }
  }

  lemma StepKeepsPending(w: Runs.World, step: Runs.Step)
    requires Runs.Enabled(w, step) && !Inserts(step) && !step.DropGuard?
    ensures Runs.Do(w, step).s.pending.Keys == w.s.pending.Keys
  {
  }

  lemma InsertionAddsOne(w: Runs.World, step: Runs.Step)
    requires Runs.Enabled(w, step) && Inserts(step) && Guarded(w)
    ensures w.s.nextRequest + 1 !in w.s.pending
    ensures var v := Runs.Do(w, step);
      if v.s.nextRequest == w.s.nextRequest then v.s.pending == w.s.pending
      else v.s.nextRequest == w.s.nextRequest + 1 && v.s.pending.Keys == w.s.pending.Keys + {v.s.nextRequest}
  {
    if step.Send? {
      LaunchInserts(w.s, w.closed && !step.early, step.foreign, step.body, None, step.now);
    } else {
      LaunchInserts(w.s, w.closed && !step.early, Runs.NOTHING, w.recovery.body, Some(w.recovery.sequence), step.now);
    }
  }

  lemma TaskKeepsOwned(p: Pair, k: nat, act: Act)
    requires AllGood(p, k) && Possible(p, k, act) && act.OfTask?
    ensures Owned(Perform(p, k, act), k)
  {
    var after := Admission.Do(p.tasks, act.move).tasks;
    MovesKeepPending(p.tasks, act.move, k);
    hide Admission.Do, Admission.Enabled, OwnedBy;
    SameOwned(p.channel.s.pending.Keys, p.tasks.tasks, after, p.owner, k);
  }

  lemma MovesKeepPending(w: Admission.World, move: Admission.Step, k: nat)
    requires Ordered(w) && Admission.Enabled(w, move)
    requires move.Launch? || (move.Finish? && w.tasks[move.task].pending) ==> w.tasks[move.task].channel != k
    ensures var v := Admission.Do(w, move);
      forall t :: (t in w.tasks && IsPending(w.tasks[t], k)) <==> (t in v.tasks && IsPending(v.tasks[t], k))
  {
  }

  lemma LaunchKeepsOwned(p: Pair, k: nat, act: Act)
    requires AllGood(p, k) && Possible(p, k, act) && act.LaunchWith?
    ensures Owned(Perform(p, k, act), k)
  {
    hide Runs.Do, Runs.Enabled, Linked, Guarded, OwnedBy;
    InsertionAddsOne(p.channel, act.step);
    var n, t := p.channel.s.nextRequest + 1, act.task;
    var after := Runs.Do(p.channel, act.step);
    if after.s.nextRequest == n {
      InsertOwned(p.channel.s.pending.Keys, p.tasks.tasks, p.owner, k, n, t, p.tasks.tasks[t].(pending := true));
    } else {
      SameOwned(p.channel.s.pending.Keys, p.tasks.tasks, Admission.Do(p.tasks, Finish(t)).tasks, p.owner, k);
    }
  }

  lemma DropKeepsOwned(p: Pair, k: nat, act: Act)
    requires AllGood(p, k) && Possible(p, k, act) && act.DropWith?
    ensures Owned(Perform(p, k, act), k)
  {
    var r := act.request;
    DropRemovesOne(p.channel, r);
    hide Runs.Do, Runs.Enabled, OwnedBy;
    RemoveOwned(p.channel.s.pending.Keys, p.tasks.tasks, p.owner, k, r,
                p.tasks.tasks[p.owner[r]].(phase := Leaving, pending := false));
  }

  lemma DropRemovesOne(w: Runs.World, request: nat)
    requires Runs.Enabled(w, Runs.DropGuard(request))
    ensures Runs.Do(w, Runs.DropGuard(request)).s.pending.Keys == w.s.pending.Keys - {request}
  {
  }

  lemma ActKeepsGood(p: Pair, k: nat, act: Act)
    requires AllGood(p, k) && Possible(p, k, act)
    ensures AllGood(Perform(p, k, act), k)
  {
    match act
    case OfTask(step) =>
      Admission.StepKeepsGood(p.tasks, step);
      TaskKeepsOwned(p, k, act);
    case OfChannel(step) =>
      StepKeepsSound(p.channel, step);
      StepKeepsPending(p.channel, step);
    case LaunchWith(task, step) =>
      StepKeepsSound(p.channel, step);
      Admission.StepKeepsGood(p.tasks, Launch(task));
      Admission.StepKeepsGood(p.tasks, Finish(task));
      LaunchKeepsOwned(p, k, act);
    case DropWith(request) =>
      StepKeepsSound(p.channel, Runs.DropGuard(request));
      Admission.StepKeepsGood(p.tasks, Finish(p.owner[request]));
      DropKeepsOwned(p, k, act);
  }

  ghost predicate IsHistory(ps: seq<Pair>, acts: seq<Act>, k: nat) {
    && |ps| == |acts| + 1
    && (exists now :: ps[0] == Pair(Runs.Initial(now), Admission.Empty(), map[]))
    && (forall i {:trigger acts[i]} | 0 <= i < |acts| ::
         Possible(ps[i], k, acts[i]) && ps[i + 1] == Perform(ps[i], k, acts[i]))
  }

  lemma {:induction false} RunsAreGood(ps: seq<Pair>, acts: seq<Act>, k: nat, at: nat)
    requires IsHistory(ps, acts, k) && at < |ps|
    ensures AllGood(ps[at], k)
    decreases at
  {
    if at == 0 {
      Admission.EmptyGood();
    } else {
      RunsAreGood(ps, acts, k, at - 1);
      ActKeepsGood(ps[at - 1], k, acts[at - 1]);
    }
  }

  /** Different keys with tasks of their own: no more of them than the tasks weigh. */
  lemma {:induction false} OwnersCount(owner: map<nat, nat>, tasks: map<nat, Task>, weight: Task -> nat)
    requires forall r | r in owner :: owner[r] in tasks && weight(tasks[owner[r]]) == 1
    requires forall r, q | r in owner && q in owner && owner[r] == owner[q] :: r == q
    ensures |owner| <= Total(tasks, weight)
    decreases |owner|
  {
    if owner != map[] {
      var r :| r in owner;
      TotalRemove(tasks, weight, owner[r]);
      OwnersCount(owner - {r}, tasks - {owner[r]}, weight);
    }
  }

  lemma SameSize<V, W>(a: map<nat, V>, b: map<nat, W>)
    requires a.Keys == b.Keys
    ensures |a| == |b|
  {
    assert |a| == |a.Keys| && |b| == |b.Keys|;
  }

  /** In every run: a channel never has more than eight requests pending, and each holds one permit at every
      level that no other request holds. */
  lemma PendingAtMostEight(ps: seq<Pair>, acts: seq<Act>, k: nat, at: nat)
    requires IsHistory(ps, acts, k) && at < |ps|
    ensures |ps[at].channel.s.pending| <= 8
    ensures forall r | r in ps[at].channel.s.pending ::
      && r in ps[at].owner && ps[at].owner[r] in ps[at].tasks.tasks
      && var t := ps[at].tasks.tasks[ps[at].owner[r]];
      && t.channel == k && t.atChannel && t.atLane && t.atProcess
      && forall q | q in ps[at].owner && q != r :: ps[at].owner[q] != ps[at].owner[r]
  {
    RunsAreGood(ps, acts, k, at);
    var p := ps[at];
    Admission.PendingAtMostEight(p.tasks, k);
    OwnersCount(p.owner, p.tasks.tasks, PendingOnes(k));
    SameSize(p.owner, p.channel.s.pending);
  }
}
