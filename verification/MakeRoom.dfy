/** Freeing request capacity for a waiting upload by ending one stuck request. */
module MakeRoom {
  import opened Options
  import opened Budgets
  import opened Channel
  import opened Clock
  import opened Links
  import opened Candidate

  /** The packet of this request can still be sent again: it is a replay, or its entry is remembered. */
  predicate Retained(s: State, id: nat) {
    id in s.pending && (s.pending[id].replay
      || exists i :: 0 <= i < |s.history| && s.pending[id].entry == Some(s.history[i].sequence))
  }

  predicate Stuck(s: State, id: nat, now: nat) {
    SentLongAgo(s, id, now) && !Receiving(s, id) && Retained(s, id)
  }

  /** Replays before originals, and among equals the one sent first. */
  predicate NoWorse(a: Pending, b: Pending)
    requires a.sentAt.Some? && b.sentAt.Some?
  {
    NotAfter((!a.replay, a.sentAt.value), (!b.replay, b.sentAt.value))
  }

  method PickVictim(channels: seq<State>, lo: nat, hi: nat, now: nat) returns (best: Option<(nat, nat)>)
    requires lo <= hi <= |channels|
    ensures best.None? ==> forall c, id | lo <= c < hi && id in channels[c].pending :: !Stuck(channels[c], id, now)
    ensures best.Some? ==>
      var (c, id) := best.value;
      && lo <= c < hi && Stuck(channels[c], id, now)
      && forall d, j | lo <= d < hi && j in channels[d].pending && Stuck(channels[d], j, now) ::
           NoWorse(channels[c].pending[id], channels[d].pending[j])
  {
    best := None;
    var c := lo;
    while c < hi
      invariant lo <= c <= hi
      invariant Best(channels, lo, c, now, best)
    {
      best := PickIn(channels, lo, c, now, best);
      c := c + 1;
    }
  }

  ghost predicate BeatsAll(channels: seq<State>, c: nat, ids: set<nat>, now: nat, best: Option<(nat, nat)>) {
    && c < |channels| && ids <= channels[c].pending.Keys
    && (best.Some? ==> best.value.0 < |channels| && Stuck(channels[best.value.0], best.value.1, now))
    && forall j | j in ids && Stuck(channels[c], j, now) ::
         best.Some? && NoWorse(channels[best.value.0].pending[best.value.1], channels[c].pending[j])
  }

  ghost predicate Best(channels: seq<State>, lo: nat, hi: nat, now: nat, best: Option<(nat, nat)>)
    requires lo <= hi <= |channels|
  {
    && (best.Some? ==> lo <= best.value.0 < hi && Stuck(channels[best.value.0], best.value.1, now))
    && forall d | lo <= d < hi :: BeatsAll(channels, d, channels[d].pending.Keys, now, best)
  }

  method PickIn(channels: seq<State>, lo: nat, c: nat, now: nat, soFar: Option<(nat, nat)>)
      returns (best: Option<(nat, nat)>)
    requires lo <= c < |channels| && Best(channels, lo, c, now, soFar)
    ensures Best(channels, lo, c + 1, now, best)
  {
    best := soFar;
    var todo := channels[c].pending.Keys;
    while todo != {}
      invariant todo <= channels[c].pending.Keys
      invariant best.Some? ==> lo <= best.value.0 <= c && Stuck(channels[best.value.0], best.value.1, now)
      invariant forall d | lo <= d < c :: BeatsAll(channels, d, channels[d].pending.Keys, now, best)
      invariant BeatsAll(channels, c, channels[c].pending.Keys - todo, now, best)
      decreases |todo|
    {
      var id :| id in todo;
      if Stuck(channels[c], id, now)
         && (best.None? || !NoWorse(channels[best.value.0].pending[best.value.1], channels[c].pending[id])) {
        best := Some((c, id));
      }
      todo := todo - {id};
    }
  }

  /** The channels a call searches. */
  predicate Searched(c: int, channels: seq<State>, waiting: nat, channelFull: bool) {
    0 <= c < |channels| && (channelFull ==> c == waiting)
  }

  /** One call for a request of that many bytes: the waiting channel alone is searched when its own budget has no
      room for it, every channel of the lane when only the lane's has none, and nothing is done when both have.
      `channels` are the states as the search sees them, `later` as they are when the chosen one is ended. */
  method FreeOne(own: Budget, lane: Budget, bytes: nat, channels: seq<State>, later: seq<State>, waiting: nat, now: nat)
    returns (after: seq<State>, aborted: Option<(nat, nat)>)
    requires waiting < |channels| == |later|
    ensures var channelFull := !own.State().Admits(own.limits, bytes);
      var laneFull := !lane.State().Admits(lane.limits, bytes);
      && (aborted.None? ==>
            && after == later
            && (channelFull || laneFull ==>
                  forall c, id | Searched(c, channels, waiting, channelFull) && id in channels[c].pending ::
                    !Stuck(channels[c], id, now)))
      && (aborted.Some? ==>
            var (c, id) := aborted.value;
            && (channelFull || laneFull) && Searched(c, channels, waiting, channelFull)
            && Stuck(channels[c], id, now) && after == later[c := Retire(later[c], id)]
            && forall d, j | Searched(d, channels, waiting, channelFull)
                 && j in channels[d].pending && Stuck(channels[d], j, now) ::
                 NoWorse(channels[c].pending[id], channels[d].pending[j]))
  {
    var ownRoom := own.HasCapacity(bytes);
    var laneRoom := lane.HasCapacity(bytes);
    if ownRoom && laneRoom {
      return later, None;
    }
    if !ownRoom {
      aborted := PickVictim(channels, waiting, waiting + 1, now);
    } else {
      aborted := PickVictim(channels, 0, |channels|, now);
    }
    if aborted.None? {
      return later, None;
    }
    var c := aborted.value.0;
    after := later[c := Retire(later[c], aborted.value.1)];
  }

  /** Ending the chosen request keeps its packet: a replay leaves its entry as it is, an original's
      entry is marked, and once the guard is gone the marked entry counts as overdue, and is kept from
      eviction while it is fresh and has attempts left. */
  lemma EndedRequestIsKept(s: State, id: nat)
    requires Linked(s) && Retained(s, id)
    ensures var after := Finish(Retire(s, id), id);
      && Linked(after) && id !in after.pending
      && |after.history| == |s.history|
      && (forall i | 0 <= i < |s.history| ::
            after.history[i].body == s.history[i].body && after.history[i].attempts == s.history[i].attempts
            && after.history[i].retired == (s.history[i].retired || IsOriginal(s, id, s.history[i].sequence)))
    ensures !s.pending[id].replay ==> exists i :: 0 <= i < |s.history| && IsOriginal(s, id, s.history[i].sequence)
    ensures forall i, later | 0 <= i < |s.history| && IsOriginal(s, id, s.history[i].sequence) ::
      var e := Finish(Retire(s, id), id).history[i];
      && OverdueForFilter(Finish(Retire(s, id), id), later, e)
      && (e.attempts < REPLAY_MAX_ATTEMPTS && Since(later, e.sentAt) <= REPLAY_MAX_AGE ==> Protected(e, later))
  {
    RetireLinked(s, id);
    FinishLinked(Retire(s, id), id);
  }
}
