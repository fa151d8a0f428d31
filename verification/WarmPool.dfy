/** The pool of sockets dialled ahead of need: checkouts take from it and ask for refills, and one
    maintainer dials. Each function is one section under the state lock; times are in milliseconds. */
module WarmPool {
  import opened Bytes
  import opened Clock
  import opened Options

  const DIRECT_MAX_AGE := 120_000
  const WORKER_MAX_AGE := 100_000
  const LONGEST_SLEEP := 5_000

  datatype Key = Direct(dc: int, media: bool, test: bool) | Worker(dc: int)

  datatype Bucket = Bucket(
    idle: seq<nat>,           // when each waiting socket was made
    failures: nat,
    retry: Option<nat>,       // no dial before this moment
    refillRequested: bool)

  type Buckets = map<Key, Bucket>

  function Empty(): Bucket {
    Bucket([], 0, None, false)
  }

  function Capacity(key: Key, poolSize: nat): nat {
    if key.Direct? then poolSize else 1
  }

  function MaxAge(key: Key): nat {
    if key.Direct? then DIRECT_MAX_AGE else WORKER_MAX_AGE
  }

  /** Seconds before the next dial of a bucket whose dials have failed so often in a row. */
  function RefillBackoff(failures: nat): nat {
    Min(Pow2(Min(if failures == 0 then 0 else failures - 1, 12)), 3600)
  }

  lemma {:induction false} Pow2Monotone(a: nat, b: nat)
    requires a <= b
    ensures 1 <= Pow2(a) <= Pow2(b)
    decreases b
  {
    if b > 0 {
      Pow2Monotone(if a == b then a - 1 else a, b - 1);
    }
  }

  /** It never shrinks as failures go on, and stays between a second and an hour. */
  lemma BackoffMonotone(a: nat, b: nat)
    requires a <= b
    ensures 1 <= RefillBackoff(a) <= RefillBackoff(b) <= 3600
  {
    Pow2Monotone(Min(if a == 0 then 0 else a - 1, 12), Min(if b == 0 then 0 else b - 1, 12));
  }

  /** It doubles with every failure from one second on until it is an hour. */
  lemma BackoffDoubles(failures: nat)
    requires failures > 0
    ensures RefillBackoff(1) == 1
    ensures RefillBackoff(failures + 1) == if 2 * RefillBackoff(failures) < 3600 then 2 * RefillBackoff(failures)
        else 3600
  {
    assert Pow2(11) == 2048 by { assert Pow2(4) == 16; assert Pow2(8) == 256; }
    if failures <= 11 {
      Pow2Monotone(failures - 1, 10);
    }
  }

  // ---------------------------------------------------------------- sections

  function PopIdle(buckets: Buckets, key: Key): (Buckets, Option<nat>) {
    if key !in buckets || |buckets[key].idle| == 0 then (buckets, None)
    else
      var b := buckets[key];
      var last := |b.idle| - 1;
      (buckets[key := b.(idle := b.idle[..last])], Some(b.idle[last]))
  }

  /** Marks the bucket; true when the maintainer is to be told. */
  function MarkRequested(buckets: Buckets, key: Key): (Buckets, bool) {
    if key !in buckets || buckets[key].refillRequested then (buckets, false)
    else (buckets[key := buckets[key].(refillRequested := true)], true)
  }

  /** The sockets that are kept: each one's age is read off the clock in turn. */
  function Young(idle: seq<nat>, maxAge: nat, readings: seq<nat>): (r: seq<nat>)
    requires |readings| == |idle|
    ensures |r| <= |idle|
  {
    if |idle| == 0 then []
    else
      (if Since(readings[0], idle[0]) < maxAge then [idle[0]] else []) + Young(idle[1..], maxAge, readings[1..])
  }

  /** The readings of the clock one look takes: one for each socket it may keep, one to decide whether to
      dial, and one to decide whether to come back. */
  datatype Clocks = Clocks(ages: seq<nat>, first: nat, second: nat)

  /** They are taken one after another. */
  predicate InOrder(now: nat, clocks: Clocks) {
    && (forall i | 0 <= i < |clocks.ages| :: now <= clocks.ages[i] <= clocks.first)
    && (forall i, j | 0 <= i < j < |clocks.ages| :: clocks.ages[i] <= clocks.ages[j])
    && now <= clocks.first <= clocks.second
  }

  /** The maintainer looks at a bucket: whether it is to dial, and when to look again if not yet. */
  function Inspect(b: Bucket, capacity: nat, maxAge: nat, clocks: Clocks): (Bucket, bool, Option<nat>)
    requires |clocks.ages| == |b.idle|
  {
    var idle := Young(b.idle, maxAge, clocks.ages);
    var missing := |idle| < capacity;
    var needed := missing && (b.retry.None? || b.retry.value <= clocks.first);
    var waiting := if missing && b.retry.Some? && b.retry.value > clocks.second then b.retry else None;
    (b.(idle := idle, refillRequested := b.refillRequested && missing && !needed), needed, waiting)
  }

  /** The moment of the next try lies between the two decisions: too late for the first, past for the second. */
  predicate Straddles(b: Bucket, clocks: Clocks) {
    b.retry.Some? && clocks.first < b.retry.value <= clocks.second
  }

  function Dialled(b: Bucket, ok: bool, now: nat): Bucket {
    if ok then b.(idle := b.idle + [now], failures := 0, retry := None)
    else b.(failures := b.failures + 1, retry := Some(now + 1000 * RefillBackoff(b.failures + 1)))
  }

  function Sooner(a: Option<nat>, b: Option<nat>): Option<nat> {
    match (a, b)
    case (Some(x), Some(y)) => Some(Min(x, y))
    case (None, _) => b
    case (_, None) => a
  }

  // ---------------------------------------------------------------- runs

  /** A checkout between two of its sections. */
  datatype Task =
    | Popping(key: Key)                    // about to take a socket
    | Popped(key: Key, created: nat)       // about to look at the age of the one it took
    | Checking(key: Key)                   // waiting for its health
    | Requesting(key: Key)                 // about to ask for a refill
    | Notifying(key: Key)                  // about to wake the maintainer

  datatype Maintainer =
    | Sweep(left: seq<Key>, attempted: bool, nextRetry: Option<nat>)
    | Dial(key: Key, left: seq<Key>, nextRetry: Option<nat>)
    | Asleep(computed: nat, since: nat, wakeAt: nat)   // how long was decided at the first of these

  datatype World = World(
    buckets: Buckets,
    tasks: map<nat, Task>,
    maintainer: Maintainer,
    wakeup: bool,              // a stored wake-up
    cancelled: set<Key>,       // a checkout was dropped while checking, since the bucket was last looked at
    missed: set<Key>,          // missing a socket, and the last look neither dialled nor noted when to come back
    now: nat)

  datatype Step =
    | Checkout(task: nat, key: Key, create: bool)
    | Pop(task: nat)
    | Aged(task: nat)
    | Checked(task: nat, healthy: bool)
    | Request(task: nat)
    | Notify(task: nat)
    | Cancel(task: nat)
    | Look(clocks: Clocks)
    | DialEnds(ok: bool)
    | SweepEnds(order: seq<Key>, computed: nat, since: nat)
    | Wake(order: seq<Key>, byTimer: bool)
    | Tick(passed: nat)

  predicate Lists(order: seq<Key>, buckets: Buckets) {
    (forall k | k in order :: k in buckets) && (forall k | k in buckets :: k in order)
  }

  predicate Enabled(w: World, step: Step) {
    match step
    case Checkout(t, _, _) => t !in w.tasks
    case Pop(t) => t in w.tasks && w.tasks[t].Popping?
    case Aged(t) => t in w.tasks && w.tasks[t].Popped?
    case Checked(t, _) => t in w.tasks && w.tasks[t].Checking?
    case Request(t) => t in w.tasks && w.tasks[t].Requesting?
    case Notify(t) => t in w.tasks && w.tasks[t].Notifying?
    case Cancel(t) => t in w.tasks && w.tasks[t].Checking?
    case Look(clocks) =>
      w.maintainer.Sweep? && |w.maintainer.left| > 0 && w.maintainer.left[0] in w.buckets &&
      |clocks.ages| == |w.buckets[w.maintainer.left[0]].idle| && InOrder(w.now, clocks)
    case DialEnds(_) => w.maintainer.Dial? && w.maintainer.key in w.buckets
    case SweepEnds(order, computed, since) =>
      w.maintainer.Sweep? && |w.maintainer.left| == 0 && Lists(order, w.buckets) && w.now <= computed <= since
    case Wake(order, byTimer) =>
      w.maintainer.Asleep? && Lists(order, w.buckets) && if byTimer then w.now >= w.maintainer.wakeAt else w.wakeup
    case Tick(_) => true
  }

  predicate ByTask(step: Step) {
    step.Pop? || step.Aged? || step.Checked? || step.Request? || step.Notify? || step.Cancel?
  }

  predicate ByMaintainer(step: Step) {
    step.Look? || step.DialEnds? || step.SweepEnds? || step.Wake?
  }

  function DoTask(w: World, step: Step): World
    requires Enabled(w, step) && ByTask(step)
  {
    var key := w.tasks[step.task].key;
    match step
    case Pop(t) =>
      var (buckets, item) := PopIdle(w.buckets, key);
      w.(buckets := buckets, tasks := w.tasks[t := if item.Some? then Popped(key, item.value) else Requesting(key)])
    case Aged(t) =>
      var young := Since(w.now, w.tasks[t].created) < MaxAge(key);
      w.(tasks := w.tasks[t := if young then Checking(key) else Popping(key)])
    case Checked(t, healthy) => w.(tasks := w.tasks[t := if healthy then Requesting(key) else Popping(key)])
    case Request(t) =>
      var (buckets, notify) := MarkRequested(w.buckets, key);
      w.(buckets := buckets, tasks := if notify then w.tasks[t := Notifying(key)] else w.tasks - {t})
    case Notify(t) => w.(wakeup := true, tasks := w.tasks - {t})
    case Cancel(t) => w.(tasks := w.tasks - {t}, cancelled := w.cancelled + {key})
  }

  function DoMaintainer(w: World, step: Step, poolSize: nat): World
    requires Enabled(w, step) && ByMaintainer(step)
  {
    var m := w.maintainer;
    match step
    case Look(clocks) =>
      var key := m.left[0];
      var (b, needed, waiting) := Inspect(w.buckets[key], Capacity(key, poolSize), MaxAge(key), clocks);
      w.(buckets := w.buckets[key := b], cancelled := w.cancelled - {key}, now := clocks.second,
         missed := if |b.idle| < Capacity(key, poolSize) && !needed && waiting.None? then w.missed + {key}
                   else w.missed - {key},
         maintainer := if needed then Dial(key, m.left[1..], m.nextRetry)
                       else Sweep(m.left[1..], m.attempted, Sooner(m.nextRetry, waiting)))
    case DialEnds(ok) =>
      w.(buckets := w.buckets[m.key := Dialled(w.buckets[m.key], ok, w.now)],
         maintainer := Sweep(m.left, true, m.nextRetry))
    case SweepEnds(order, computed, since) =>
      if m.attempted then w.(maintainer := Sweep(order, false, None))
      else
        var delay := if m.nextRetry.None? then LONGEST_SLEEP else Since(m.nextRetry.value, computed);
        w.(maintainer := Asleep(computed, since, since + Min(delay, LONGEST_SLEEP)), now := since)
    case Wake(order, byTimer) =>
      w.(maintainer := Sweep(order, false, None), wakeup := w.wakeup && byTimer)
  }

  function Do(w: World, step: Step, poolSize: nat): World
    requires Enabled(w, step)
  {
    match step
    case Checkout(t, key, create) =>
      w.(tasks := w.tasks[t := Popping(key)],
         buckets := if create && key !in w.buckets then w.buckets[key := Empty()] else w.buckets)
    case Tick(passed) => w.(now := w.now + passed)
    case Look(_) => DoMaintainer(w, step, poolSize)
    case DialEnds(_) => DoMaintainer(w, step, poolSize)
    case SweepEnds(_, _, _) => DoMaintainer(w, step, poolSize)
    case Wake(_, _) => DoMaintainer(w, step, poolSize)
    case _ => DoTask(w, step)
  }

  // ---------------------------------------------------------------- capacity

  ghost predicate WithinCapacity(w: World, poolSize: nat) {
    && (forall k | k in w.buckets :: |w.buckets[k].idle| <= Capacity(k, poolSize))
    && (w.maintainer.Dial? ==>
          w.maintainer.key in w.buckets && |w.buckets[w.maintainer.key].idle| < Capacity(w.maintainer.key, poolSize))
    && (w.maintainer.Dial? || w.maintainer.Sweep? ==> forall k | k in w.maintainer.left :: k in w.buckets)
  }

  lemma TaskKeepsCapacity(w: World, step: Step, poolSize: nat)
    requires WithinCapacity(w, poolSize) && Enabled(w, step)
    requires ByTask(step)
    ensures WithinCapacity(DoTask(w, step), poolSize)
  {
  }

  lemma MaintainerKeepsCapacity(w: World, step: Step, poolSize: nat)
    requires WithinCapacity(w, poolSize) && Enabled(w, step)
    requires ByMaintainer(step)
    ensures WithinCapacity(DoMaintainer(w, step, poolSize), poolSize)
  {
  }

  lemma StepKeepsCapacity(w: World, step: Step, poolSize: nat)
    requires WithinCapacity(w, poolSize) && Enabled(w, step)
    ensures WithinCapacity(Do(w, step, poolSize), poolSize)
  {
    if ByTask(step) {
      TaskKeepsCapacity(w, step, poolSize);
    } else if ByMaintainer(step) {
      MaintainerKeepsCapacity(w, step, poolSize);
    }
  }

  // ---------------------------------------------------------------- no refill is lost

  /** The maintainer has been told, or is about to be. */
  ghost predicate Alarm(w: World) {
    w.wakeup || exists t :: t in w.tasks && w.tasks[t].Notifying?
  }

  /** A checkout of this bucket has not asked for its refill yet. */
  ghost predicate Busy(w: World, key: Key) {
    exists t :: t in w.tasks && w.tasks[t].key == key && !w.tasks[t].Notifying?
  }

  /** The bucket may not be dialled yet, and the maintainer sleeps no longer than it takes until it may. */
  ghost predicate BackingOff(w: World, key: Key)
    requires key in w.buckets
  {
    w.buckets[key].retry.Some? &&
    match w.maintainer
    case Sweep(_, _, next) => next.Some? && next.value <= w.buckets[key].retry.value
    case Asleep(computed, since, wakeAt) => wakeAt <= since + Since(w.buckets[key].retry.value, computed)
    case Dial(_, _, _) => true
  }

  /** Buckets the maintainer has passed in a sweep that has dialled nothing. */
  ghost predicate Passed(w: World, key: Key) {
    key in w.buckets &&
    match w.maintainer
    case Sweep(left, attempted, _) => !attempted && key !in left
    case Asleep(_, _, _) => true
    case Dial(_, _, _) => false
  }

  ghost predicate LookedAfter(w: World, key: Key, poolSize: nat)
    requires key in w.buckets
  {
    || Alarm(w)
    || BackingOff(w, key)
    || (!w.buckets[key].refillRequested
        && (|w.buckets[key].idle| >= Capacity(key, poolSize) || Busy(w, key) || key in w.cancelled))
    || key in w.missed
  }

  /** A bucket the last look missed could be dialled from a moment that is past. */
  ghost predicate MissedAreDue(w: World) {
    && (forall k | k in w.missed :: k in w.buckets && w.buckets[k].retry.Some? && w.buckets[k].retry.value <= w.now)
    && (w.maintainer.Dial? ==> w.maintainer.key !in w.missed)
    && (w.maintainer.Asleep? ==> forall k | k in w.missed :: w.buckets[k].retry.value <= w.maintainer.computed)
  }

  lemma StepKeepsDue(w: World, step: Step, poolSize: nat)
    requires MissedAreDue(w) && Enabled(w, step)
    ensures MissedAreDue(Do(w, step, poolSize))
  {
    hide Young, RefillBackoff, MaxAge;
  }

  ghost predicate NoneLost(w: World, poolSize: nat) {
    && (forall k | Passed(w, k) :: LookedAfter(w, k, poolSize))
    && (w.maintainer.Asleep? ==> w.maintainer.wakeAt <= w.maintainer.since + LONGEST_SLEEP)
  }

  lemma TaskKeepsLookedAfter(w: World, step: Step, key: Key, poolSize: nat)
    requires Enabled(w, step) && Passed(w, key) && LookedAfter(w, key, poolSize)
    requires ByTask(step)
    ensures Passed(DoTask(w, step), key) && LookedAfter(DoTask(w, step), key, poolSize)
  {
    var v := DoTask(w, step);
    var t := step.task;
    if Alarm(w) {
      AlarmStays(w, step);
    } else if !BackingOff(w, key) {
      if w.tasks[t].key == key {
        if t in v.tasks {
          assert v.tasks[t].key == key;
        }
      } else if Busy(w, key) {
        var u :| u in w.tasks && w.tasks[u].key == key && !w.tasks[u].Notifying?;
        assert u in v.tasks && v.tasks[u] == w.tasks[u];
      }
    }
  }

  lemma AlarmStays(w: World, step: Step)
    requires Enabled(w, step) && Alarm(w)
    requires ByTask(step)
    ensures Alarm(DoTask(w, step))
  {
    var v := DoTask(w, step);
    if !w.wakeup {
      var u :| u in w.tasks && w.tasks[u].Notifying?;
      if u != step.task {
        assert u in v.tasks && v.tasks[u].Notifying?;
      }
    }
  }

  /** Looking at a bucket settles it, unless it is to be dialled; the others stay as they were. */
  lemma LookLooksAfter(w: World, step: Step, key: Key, poolSize: nat)
    requires NoneLost(w, poolSize) && step.Look? && Enabled(w, step)
    requires Passed(DoMaintainer(w, step, poolSize), key)
    ensures LookedAfter(DoMaintainer(w, step, poolSize), key, poolSize)
  {
    var v := DoMaintainer(w, step, poolSize);
    SameTasks(w, v, key);
    if key != w.maintainer.left[0] {
      assert Passed(w, key);
    }
  }

  lemma SameTasks(w: World, v: World, key: Key)
    requires v.tasks == w.tasks && v.wakeup == w.wakeup
    ensures Alarm(v) == Alarm(w) && Busy(v, key) == Busy(w, key)
  {
  }

  lemma SleepLooksAfter(w: World, step: Step, key: Key, poolSize: nat)
    requires NoneLost(w, poolSize) && step.SweepEnds? && Enabled(w, step)
    requires Passed(DoMaintainer(w, step, poolSize), key)
    ensures LookedAfter(DoMaintainer(w, step, poolSize), key, poolSize)
  {
    SameTasks(w, DoMaintainer(w, step, poolSize), key);
    assert w.maintainer.attempted || Passed(w, key);
  }

  lemma StepLosesNone(w: World, step: Step, poolSize: nat)
    requires NoneLost(w, poolSize) && Enabled(w, step)
    ensures NoneLost(Do(w, step, poolSize), poolSize)
  {
    var v := Do(w, step, poolSize);
    forall key | Passed(v, key) ensures LookedAfter(v, key, poolSize) {
      match step {
        case Look(_) => LookLooksAfter(w, step, key, poolSize);
        case SweepEnds(_, _, _) => SleepLooksAfter(w, step, key, poolSize);
        case DialEnds(_) =>
        case Wake(_, _) =>
        case Tick(_) =>
          assert Passed(w, key);
          SameTasks(w, v, key);
        case Checkout(_, _, _) => CheckoutLooksAfter(w, step, key, poolSize);
        case _ =>
          assert Passed(w, key);
          TaskKeepsLookedAfter(w, step, key, poolSize);
      }
    }
  }

  lemma CheckoutLooksAfter(w: World, step: Step, key: Key, poolSize: nat)
    requires NoneLost(w, poolSize) && step.Checkout? && Enabled(w, step) && Passed(Do(w, step, poolSize), key)
    ensures LookedAfter(Do(w, step, poolSize), key, poolSize)
  {
    var v := Do(w, step, poolSize);
    assert v.tasks[step.task] == Popping(step.key);
    if key in w.buckets {
      assert Passed(w, key);
      if Alarm(w) && !w.wakeup {
        var u :| u in w.tasks && w.tasks[u].Notifying?;
        assert v.tasks[u] == w.tasks[u];
      }
      if Busy(w, key) {
        var u :| u in w.tasks && w.tasks[u].key == key && !w.tasks[u].Notifying?;
        assert v.tasks[u] == w.tasks[u];
      }
    }
  }

  ghost predicate IsRun(ws: seq<World>, steps: seq<Step>, poolSize: nat) {
    && |ws| == |steps| + 1 && ws[0].tasks == map[] && ws[0].maintainer == Sweep([], true, None) && ws[0].missed == {}
    && (forall k | k in ws[0].buckets :: ws[0].buckets[k] == Empty())
    && (forall i {:trigger steps[i]} | 0 <= i < |steps| ::
          Enabled(ws[i], steps[i]) && ws[i + 1] == Do(ws[i], steps[i], poolSize))
  }

  lemma {:induction false} RunsAreGood(ws: seq<World>, steps: seq<Step>, poolSize: nat, at: nat)
    requires IsRun(ws, steps, poolSize) && at < |ws|
    ensures WithinCapacity(ws[at], poolSize) && NoneLost(ws[at], poolSize) && MissedAreDue(ws[at])
    decreases at
  {
    if at > 0 {
      RunsAreGood(ws, steps, poolSize, at - 1);
      StepKeepsCapacity(ws[at - 1], steps[at - 1], poolSize);
      StepLosesNone(ws[at - 1], steps[at - 1], poolSize);
      StepKeepsDue(ws[at - 1], steps[at - 1], poolSize);
    }
  }

  /** In every run: no bucket ever holds more than its capacity, a finished dial always finds room, and the
      bucket the maintainer turns to is there. */
  lemma NeverOverfull(ws: seq<World>, steps: seq<Step>, poolSize: nat, at: nat)
    requires IsRun(ws, steps, poolSize) && at < |ws|
    ensures forall k | k in ws[at].buckets :: |ws[at].buckets[k].idle| <= Capacity(k, poolSize)
    ensures ws[at].maintainer.Dial? ==>
      && Enabled(ws[at], DialEnds(true))
      && |Do(ws[at], DialEnds(true), poolSize).buckets[ws[at].maintainer.key].idle| <= Capacity(ws[at].maintainer.key,
           poolSize)
    ensures ws[at].maintainer.Sweep? && |ws[at].maintainer.left| > 0 ==> ws[at].maintainer.left[0] in ws[at].buckets
  {
    RunsAreGood(ws, steps, poolSize, at);
    if ws[at].maintainer.Sweep? && |ws[at].maintainer.left| > 0 {
      assert ws[at].maintainer.left[0] in ws[at].maintainer.left;
    }
  }

  /** In every run, when the maintainer sleeps with no wake-up stored or owed over a bucket that misses a socket:
      if a refill was asked for, whatever else goes on there, or if no checkout has still to ask and none was
      dropped, the sleep ends in time for the next try exactly if the last look did not miss the bucket, or the
      sleep takes no time at all. It is short in any case. */
  lemma NoRefillIsLost(ws: seq<World>, steps: seq<Step>, poolSize: nat, at: nat, key: Key)
    requires IsRun(ws, steps, poolSize) && at < |ws| && ws[at].maintainer.Asleep? && !Alarm(ws[at])
    requires key in ws[at].buckets && |ws[at].buckets[key].idle| < Capacity(key, poolSize)
    requires ws[at].buckets[key].refillRequested || (!Busy(ws[at], key) && key !in ws[at].cancelled)
    ensures ws[at].maintainer.wakeAt <= ws[at].maintainer.since + LONGEST_SLEEP
    ensures BackingOff(ws[at], key) <==> key !in ws[at].missed || ws[at].maintainer.wakeAt <= ws[at].maintainer.since
  {
    RunsAreGood(ws, steps, poolSize, at);
    assert Passed(ws[at], key);
  }

  /** The looks of a run at a bucket in which its next try falls between the two decisions. */
  ghost predicate LookStraddles(w: World, step: Step, key: Key)
    requires Enabled(w, step)
  {
    step.Look? && w.maintainer.left[0] == key && Straddles(w.buckets[key], step.clocks)
  }

  lemma OthersMissNone(w: World, step: Step, poolSize: nat, key: Key)
    requires Enabled(w, step) && !LookStraddles(w, step, key) && key !in w.missed
    ensures key !in Do(w, step, poolSize).missed
  {
  }

  /** Only such a look misses a bucket: in a run without them none is ever missed. */
  lemma {:induction false} MissedNeedsStraddling(ws: seq<World>, steps: seq<Step>, poolSize: nat, at: nat, key: Key)
    requires IsRun(ws, steps, poolSize) && at < |ws|
    requires forall i | 0 <= i < at :: !LookStraddles(ws[i], steps[i], key)
    ensures key !in ws[at].missed
    decreases at
  {
    if at > 0 {
      hide Do;
      MissedNeedsStraddling(ws, steps, poolSize, at - 1, key);
      OthersMissNone(ws[at - 1], steps[at - 1], poolSize, key);
    }
  }

  // ---------------------------------------------------------------- refills that are lost

  /** States after one another, and the steps between them. */
  type Piece = p: (seq<World>, seq<Step>) | |p.0| == |p.1| + 1 witness ([Start(Worker(2))], [])

  predicate LeadsAt(p: Piece, i: nat)
    requires i < |p.1|
  {
    Enabled(p.0[i], p.1[i]) && p.0[i + 1] == Do(p.0[i], p.1[i], 1)
  }

  predicate Follows(p: Piece) {
    forall i | 0 <= i < |p.1| :: LeadsAt(p, i)
  }

  function Join(p: Piece, q: Piece): Piece {
    (p.0 + q.0[1..], p.1 + q.1)
  }

  lemma JoinFollows(p: Piece, q: Piece)
    requires Follows(p) && Follows(q) && p.0[|p.1|] == q.0[0]
    ensures Follows(Join(p, q))
  {
    hide Do, Enabled;
    var r := Join(p, q);
    forall i | 0 <= i < |r.1| ensures LeadsAt(r, i) {
      if i < |p.1| {
        assert LeadsAt(p, i);
      } else {
        assert LeadsAt(q, i - |p.1|);
      }
    }
  }

  /** One bucket, empty, about to be looked at for the first time. */
  function Start(key: Key): World {
    World(map[key := Empty()], map[], Sweep([], true, None), false, {}, {}, 0)
  }

  lemma RunFromStart(key: Key, p: Piece)
    requires Follows(p) && p.0[0] == Start(key)
    ensures IsRun(p.0, p.1, 1)
  {
    hide Do, Enabled;
    forall i {:trigger p.1[i]} | 0 <= i < |p.1|
      ensures Enabled(p.0[i], p.1[i]) && p.0[i + 1] == Do(p.0[i], p.1[i], 1)
    {
      assert LeadsAt(p, i);
    }
  }

  /** The first dial ends at 0, and the maintainer goes to sleep. */
  function Dialling(key: Key, ok: bool): (p: Piece)
    ensures |p.1| == 6
  {
    var w := Start(key);
    var v := w.(buckets := map[key := if ok then Bucket([0], 0, None, false) else Bucket([], 1, Some(1000), false)]);
    ([w, w.(maintainer := Sweep([key], false, None)), w.(maintainer := Dial(key, [], None)),
      v, v.(maintainer := Sweep([key], false, None)),
          v.(maintainer := Sweep([], false, if ok then None else Some(1000))),
      v.(maintainer := Asleep(0, 0, if ok then 5000 else 1000))],
     [SweepEnds([key], 0, 0), Look(Clocks([], 0, 0)), DialEnds(ok),
      SweepEnds([key], 0, 0), Look(Clocks(if ok then [0] else [], 0, 0)), SweepEnds([key], 0, 0)])
  }

  lemma YoungAtOnce(maxAge: nat)
    requires maxAge > 0
    ensures Young([], maxAge, []) == [] && Young([0], maxAge, [0]) == [0]
  {
    assert [0][1..] == [];
  }

  lemma DialEndsAtOnce(key: Key, ok: bool, i: nat)
    requires i < 3
    ensures LeadsAt(Dialling(key, ok), i)
  {
    assert RefillBackoff(1) == 1;
    assert [key][1..] == [];
    if i == 2 {
      var none: seq<nat> := [];
      assert none + [0] == [0];
    }
  }

  lemma SleepsAfterDial(key: Key, ok: bool, i: nat)
    requires 3 <= i < 6
    ensures LeadsAt(Dialling(key, ok), i)
  {
    assert [key][1..] == [];
    YoungAtOnce(MaxAge(key));
    hide Young;
  }

  lemma DiallingFollows(key: Key, ok: bool)
    ensures Follows(Dialling(key, ok))
  {
    forall i | 0 <= i < 6 ensures LeadsAt(Dialling(key, ok), i) {
      hide *;
      if i < 3 {
        DialEndsAtOnce(key, ok, i);
      } else {
        SleepsAfterDial(key, ok, i);
      }
    }
  }

  /** The dial has failed, and is to be tried again at 1000; a checkout wakes the maintainer at 999, which
      decides not to dial at 999 and not to come back at 1000. */
  function Straddling(key: Key): (p: Piece)
    ensures |p.1| == 8
  {
    var start := Dialling(key, false).0[6];
    var w := start.(now := 999);
    var v := w.(buckets := map[key := Bucket([], 1, Some(1000), true)]);
    var u := v.(maintainer := Sweep([], false, None), missed := {key}, now := 1000);
    ([start, w, w.(tasks := map[0 := Popping(key)]), w.(tasks := map[0 := Requesting(key)]),
      v.(tasks := map[0 := Notifying(key)]), v.(wakeup := true), v.(maintainer := Sweep([key], false, None)), u,
          u.(maintainer := Asleep(1000, 1000, 6000))],
     [Tick(999), Checkout(0, key, false), Pop(0), Request(0), Notify(0), Wake([key], false),
      Look(Clocks([], 999, 1000)), SweepEnds([key], 1000, 1000)])
  }

  lemma WakesAt999(key: Key, i: nat)
    requires i < 6
    ensures LeadsAt(Straddling(key), i)
  {
  }

  lemma SleepsOnAt1000(key: Key, i: nat)
    requires 6 <= i < 8
    ensures LeadsAt(Straddling(key), i)
  {
    assert [key][1..] == [];
  }

  lemma StraddlingFollows(key: Key)
    ensures Follows(Straddling(key))
  {
    forall i | 0 <= i < 8 ensures LeadsAt(Straddling(key), i) {
      hide *;
      if i < 6 {
        WakesAt999(key, i);
      } else {
        SleepsOnAt1000(key, i);
      }
    }
  }

  /** Such a look does happen to lose a refill: the maintainer sleeps until 6000 though the bucket may be
      dialled from 1000 on. No wake-up is stored or owed, no checkout was dropped, and the flag still set keeps
      later ones from waking it. */
  lemma StraddlingLookSleepsOn(key: Key) returns (ws: seq<World>, steps: seq<Step>)
    ensures IsRun(ws, steps, 1)
    ensures var w := ws[|ws| - 1];
      && w.maintainer == Asleep(1000, 1000, 6000) && w.now == 1000 && !Alarm(w) && !Busy(w, key) && w.cancelled == {}
      && key in w.buckets && w.buckets[key] == Bucket([], 1, Some(1000), true) && !BackingOff(w, key)
      && MarkRequested(w.buckets, key) == (w.buckets, false)
  {
    var p, q := Dialling(key, false), Straddling(key);
    DiallingFollows(key, false);
    StraddlingFollows(key);
    JoinFollows(p, q);
    RunFromStart(key, Join(p, q));
    ws, steps := Join(p, q).0, Join(p, q).1;
    assert ws[|ws| - 1] == q.0[8];
    hide IsRun, Do, Enabled;
  }

  /** The dial has filled the bucket; a checkout takes the socket and is dropped while it asks for its health. */
  function Dropping(key: Key): (p: Piece)
    ensures |p.1| == 4
  {
    var w := Dialling(key, true).0[6];
    var v := w.(buckets := map[key := Empty()]);
    ([w, w.(tasks := map[0 := Popping(key)]), v.(tasks := map[0 := Popped(key, 0)]),
        v.(tasks := map[0 := Checking(key)]),
      v.(cancelled := {key})],
     [Checkout(0, key, false), Pop(0), Aged(0), Cancel(0)])
  }

  lemma DroppingLeads(key: Key, i: nat)
    requires i < 4
    ensures LeadsAt(Dropping(key), i)
  {
    assert [0][..0] == [];
  }

  lemma DroppingFollows(key: Key)
    ensures Follows(Dropping(key))
  {
    forall i | 0 <= i < 4 ensures LeadsAt(Dropping(key), i) {
      hide *;
      DroppingLeads(key, i);
    }
  }

  /** The other way to lose one: the maintainer then sleeps its five seconds out over an empty bucket that
      nothing keeps from being dialled. */
  lemma DroppedCheckoutLosesRefill(key: Key) returns (ws: seq<World>, steps: seq<Step>)
    ensures IsRun(ws, steps, 1)
    ensures var w := ws[|ws| - 1];
      && w.maintainer == Asleep(0, 0, 5000) && w.now == 0 && !Alarm(w) && !Busy(w, key) && w.missed == {}
      && key in w.buckets && w.buckets[key] == Empty() && !BackingOff(w, key)
  {
    var p, q := Dialling(key, true), Dropping(key);
    DiallingFollows(key, true);
    DroppingFollows(key);
    JoinFollows(p, q);
    RunFromStart(key, Join(p, q));
    ws, steps := Join(p, q).0, Join(p, q).1;
    assert ws[|ws| - 1] == q.0[4];
    hide IsRun, Do, Enabled;
  }

  // ---------------------------------------------------------------- the pool's own fields

  class Pool {
    const poolSize: nat
    var buckets: Buckets
    var wakeup: bool

    constructor (poolSize: nat, keys: set<Key>)
      ensures this.poolSize == poolSize && !wakeup && buckets == map k | k in keys :: Empty()
    {
      this.poolSize := poolSize;
      buckets, wakeup := map k | k in keys :: Empty(), false;
    }

    method TakeIdle(key: Key) returns (item: Option<nat>)
      modifies this`buckets
      ensures (buckets, item) == PopIdle(old(buckets), key)
    {
      if key !in buckets || |buckets[key].idle| == 0 {
        return None;
      }
      var b := buckets[key];
      item := Some(b.idle[|b.idle| - 1]);
      buckets := buckets[key := b.(idle := b.idle[..|b.idle| - 1])];
    }

    method RequestRefill(key: Key)
      modifies this
      ensures buckets == MarkRequested(old(buckets), key).0
      ensures wakeup == (old(wakeup) || MarkRequested(old(buckets), key).1)
    {
      if key in buckets && !buckets[key].refillRequested {
        buckets := buckets[key := buckets[key].(refillRequested := true)];
        wakeup := true;
      }
    }

    /** What the maintainer does to a bucket before it decides to dial. */
    method Prepare(key: Key, clocks: Clocks) returns (needed: bool, waiting: Option<nat>)
      requires key in buckets && |clocks.ages| == |buckets[key].idle|
      modifies this`buckets
      ensures var (b, n, r) := Inspect(old(buckets[key]), Capacity(key, poolSize), MaxAge(key), clocks);
        buckets == old(buckets)[key := b] && needed == n && waiting == r
    {
      var b := buckets[key];
      var young := Young(b.idle, MaxAge(key), clocks.ages);
      var missing := |young| < Capacity(key, poolSize);
      var requested := b.refillRequested;
      if !missing {
        requested := false;
      }
      needed := missing && (b.retry.None? || b.retry.value <= clocks.first);
      waiting := None;
      if missing && b.retry.Some? && b.retry.value > clocks.second {
        waiting := b.retry;
      }
      if needed {
        requested := false;
      }
      buckets := buckets[key := b.(idle := young, refillRequested := requested)];
    }

    method FinishDial(key: Key, ok: bool, now: nat)
      requires key in buckets
      modifies this`buckets
      ensures buckets == old(buckets)[key := Dialled(old(buckets[key]), ok, now)]
    {
      var b := buckets[key];
      if ok {
        buckets := buckets[key := Bucket(b.idle + [now], 0, None, b.refillRequested)];
      } else {
        var failures := b.failures + 1;
        buckets := buckets[key := Bucket(b.idle, failures, Some(now + 1000 * RefillBackoff(failures)),
            b.refillRequested)];
      }
    }
  }
}
