/** The channel as the program keeps it: fields updated in place, entries found by scanning. Each
    method is one locked section and is proved to do what the functions of `Channel` say. */
module ChannelObject {
  import opened Bytes
  import opened Limits
  import opened Options
  import opened Budgets
  import opened Channel
  import opened Eviction
  import opened Links
  import opened Candidate

  class ChannelInner {
    const historyBudget: Budget
    var nextRequest: nat
    var pending: map<nat, Pending>
    var history: seq<Entry>
    var replayKey: Option<seq<byte>>
    var replyBytes: nat
    var terminal: Option<Terminal>
    var lastProgress: Option<nat>
    var delivering: bool
    var waitingUpload: Option<(nat, nat)>
    var closed: bool

    constructor (historyBudget: Budget, now: nat)
      requires historyBudget.limits == HISTORY_LIMITS
      ensures this.historyBudget == historyBudget && View() == Fresh(now) && !closed
      ensures Valid(historyBudget.State())
    {
      this.historyBudget := historyBudget;
      nextRequest, pending, history, replayKey := 0, map[], [], None;
      replyBytes, terminal, lastProgress := 0, None, Some(now);
      delivering, waitingUpload, closed := false, None, false;
    }

    function View(): State
      reads this
    {
      State(nextRequest, pending, history, replayKey, replyBytes, terminal, lastProgress, delivering, waitingUpload)
    }

    /** The budget holds this channel's entries and, besides, what the others hold. */
    ghost predicate Charged(foreign: BudgetState)
      reads this, historyBudget
    {
      historyBudget.limits == HISTORY_LIMITS && historyBudget.State() == foreign.Plus(Usage(history))
    }

    ghost predicate Valid(foreign: BudgetState)
      reads this, historyBudget
    {
      Linked(View()) && Charged(foreign)
    }

    // -------------------------------------------------------------- scanning

    method IndexOf(sequence: nat) returns (index: Option<nat>)
      ensures index.Some? ==> index.value < |history| && history[index.value].sequence == sequence
      ensures index.None? ==> forall i | 0 <= i < |history| :: history[i].sequence != sequence
    {
      var i := 0;
      while i < |history|
        invariant i <= |history|
        invariant forall j | 0 <= j < i :: history[j].sequence != sequence
      {
        if history[i].sequence == sequence {
          return Some(i);
        }
        i := i + 1;
      }
      return None;
    }

    method IndexOfBody(body: seq<byte>) returns (index: Option<nat>)
      ensures index == FindBody(history, body)
    {
      var i := 0;
      while i < |history|
        invariant i <= |history|
        invariant FindBody(history, body) ==
          match FindBody(history[i..], body) case None => None case Some(k) => Some(i + k)
      {
        assert history[i..][1..] == history[i + 1..];
        if history[i].body == body {
          return Some(i);
        }
        i := i + 1;
      }
      return None;
    }

    method Position(now: nat) returns (index: nat)
      requires |history| > 0
      ensures index == Victim(history, now)
    {
      var i := 0;
      while i < |history|
        invariant i <= |history|
        invariant forall j | 0 <= j < i :: Protected(history[j], now)
      {
        if !Protected(history[i], now) {
          return i;
        }
        i := i + 1;
      }
      return 0;
    }

    method RetainedBytes() returns (retained: nat)
      ensures retained == BodyBytes(history)
    {
      retained := 0;
      var i := 0;
      while i < |history|
        invariant i <= |history|
        invariant BodyBytes(history) == retained + BodyBytes(history[i..])
      {
        assert history[i..][1..] == history[i + 1..];
        retained := retained + |history[i].body|;
        i := i + 1;
      }
    }

    // -------------------------------------------------------------- history

    /** Dropping an entry drops its permit. */
    method RemoveAt(index: nat, ghost foreign: BudgetState)
      requires index < |history| && Charged(foreign)
      modifies this`history, historyBudget
      ensures history == Without(old(history), index) && Charged(foreign)
      ensures BodyBytes(history) + |old(history)[index].body| == BodyBytes(old(history))
    {
      BodyBytesWithout(history, index);
      historyBudget.Release(|history[index].body|);
      history := history[..index] + history[index + 1..];
    }

    method ClearHistory(ghost foreign: BudgetState)
      requires Charged(foreign)
      modifies this`history, historyBudget
      ensures history == [] && Charged(foreign)
    {
      while |history| > 0
        invariant Charged(foreign)
        decreases |history|
      {
        RemoveAt(0, foreign);
      }
    }

    method EvictToFit(now: nat, ghost foreign: BudgetState)
      requires Charged(foreign)
      modifies this`history, historyBudget
      ensures history == Evict(old(history), now) && Charged(foreign)
    {
      var retained := RetainedBytes();
      while |history| > REPLAY_HISTORY_PACKETS || retained > REPLAY_HISTORY_BYTES
        invariant Charged(foreign)
        invariant retained == BodyBytes(history)
        invariant Evict(history, now) == Evict(old(history), now)
        decreases |history|
      {
        var index := Position(now);
        var gone := |history[index].body|;
        RemoveAt(index, foreign);
        retained := if retained < gone then 0 else retained - gone;
      }
    }

    method Remember(body: seq<byte>, request: nat, now: nat, ghost foreign: BudgetState) returns (entry: Option<nat>)
      requires Charged(foreign)
      modifies this`history, this`replayKey, historyBudget
      ensures Remembered(history, replayKey, entry) == Channel.Remember(old(View()), foreign, body, request, now)
      ensures Charged(foreign)
    {
      if |body| > REPLAY_HISTORY_BYTES || |body| < 8 || body[..8] == ZERO_KEY {
        return None;
      }
      var key := body[..8];
      if replayKey != Some(key) {
        ClearHistory(foreign);
        replayKey := Some(key);
      }
      var found := IndexOfBody(body);
      if found.Some? {
        var i := found.value;
        AddOriginalFits(history, i, request);
        history := history[i := history[i].(originals := history[i].originals + {request})];
        entry := Some(history[i].sequence);
      } else {
        var granted := historyBudget.TryAcquire(|body|);
        if !granted {
          return None;
        }
        BodyBytesConcat(history, [NewEntry(body, request, now)]);
        assert [NewEntry(body, request, now)][1..] == [];
        history := history + [NewEntry(body, request, now)];
        entry := Some(request);
      }
      EvictToFit(now, foreign);
    }

    method RetainLiving(now: nat, ghost foreign: BudgetState)
      requires Charged(foreign)
      modifies this`history, historyBudget
      ensures history == Living(old(history), now) && Charged(foreign)
    {
      var i := 0;
      while i < |history|
        invariant i <= |history| && Charged(foreign)
        invariant history[..i] + Living(history[i..], now) == Living(old(history), now)
        decreases |history| - i
      {
        LivingStep(history, i, now);
        if Lives(history[i], now) {
          i := i + 1;
        } else {
          RemoveAt(i, foreign);
        }
      }
      assert history[..i] + Living(history[i..], now) == history;
    }

    /** The retention half of the recovery loop. */
    method PurgeHistory(now: nat, ghost foreign: BudgetState)
      requires Charged(foreign)
      modifies this`history, this`replayKey, historyBudget
      ensures View() == Purge(old(View()), now) && Charged(foreign)
    {
      RetainLiving(now, foreign);
      if |history| == 0 {
        replayKey := None;
      }
    }

    // -------------------------------------------------------------- requests

    method InsertReplay(index: nat, sequence: nat, now: nat, ghost foreign: BudgetState, ghost body: seq<byte>)
      requires Linked(View()) && terminal.None? && Charged(foreign)
      requires At(history, Some(sequence), Some(index)) && history[index].pending.None?
      modifies this`history, this`pending, this`nextRequest
      ensures Launched(View(), nextRequest) == Channel.Launch(old(View()), false, foreign, body, Some(sequence), now)
      ensures Charged(foreign)
    {
      ReplayAt(View(), sequence, index, foreign, body, now);
      nextRequest := nextRequest + 1;
      history := history[index := StartReplay(history[index], sequence, nextRequest, now)];
      pending := pending[nextRequest := Pending(true, Some(sequence), None, false, None)];
    }

    method InsertOriginal(body: seq<byte>, now: nat, ghost foreign: BudgetState)
      requires Charged(foreign) && terminal.None?
      modifies this`history, this`pending, this`nextRequest, this`replayKey, historyBudget
      ensures Launched(View(), nextRequest) == Channel.Launch(old(View()), false, foreign, body, None, now)
      ensures Charged(foreign)
    {
      nextRequest := nextRequest + 1;
      var entry := Remember(body, nextRequest, now, foreign);
      pending := pending[nextRequest := Pending(false, entry, None, false, None)];
    }

    method Launch(body: seq<byte>, replay: Option<nat>, now: nat, ghost foreign: BudgetState)
        returns (r: Result<nat, bool>)
      requires Valid(foreign)
      modifies this, historyBudget
      ensures closed == old(closed) && Valid(foreign)
      ensures match Channel.Launch(old(View()), closed, foreign, body, replay, now)
        case Refused(why) => r == Err(why) && View() == old(View())
        case Launched(after, request) => r == Ok(request) && View() == after
    {
      if closed || terminal.Some? {
        return Err(true);
      }
      LaunchLinked(View(), foreign, body, replay, now);
      if replay.Some? {
        var index := IndexOf(replay.value);
        if index.None? || history[index.value].pending.Some? {
          return Err(false);
        }
        InsertReplay(index.value, replay.value, now, foreign, body);
      } else {
        InsertOriginal(body, now, foreign);
      }
      return Ok(nextRequest);
    }

    method FinishRequest(request: nat, ghost foreign: BudgetState)
      requires Valid(foreign)
      modifies this`pending, this`history
      ensures View() == Finish(old(View()), request) && Valid(foreign)
    {
      FinishLinked(View(), request);
      if request !in pending {
        return;
      }
      var p := pending[request];
      var index := None;
      if p.entry.Some? {
        index := IndexOf(p.entry.value);
      }
      FinishAt(View(), request, index);
      pending := pending - {request};
      if index.Some? {
        var e := history[index.value];
        history := history[index.value :=
          if p.replay && e.pending == Some(request) then e.(pending := None)
          else e.(originals := e.originals - {request})];
      }
    }

    method RetireAndAbort(request: nat, ghost foreign: BudgetState) returns (aborted: bool)
      requires Valid(foreign)
      modifies this`history
      ensures View() == Retire(old(View()), request) && Valid(foreign)
      ensures aborted == (request in pending)
    {
      RetireLinked(View(), request);
      if request !in pending {
        return false;
      }
      var p := pending[request];
      var index := None;
      if !p.replay && p.entry.Some? {
        index := IndexOf(p.entry.value);
      }
      RetireAt(View(), request, index);
      if index.Some? {
        history := history[index.value := history[index.value].(retired := true)];
      }
      return true;
    }

    // -------------------------------------------------------------- ending and delivering

    method FailSwap() returns (won: bool)
      modifies this`closed
      ensures closed && won == !old(closed)
    {
      won := !closed;
      closed := true;
    }

    /** The locked half of `fail`; returns the requests whose abort handles were collected. */
    method FailLocked(t: Terminal, ghost foreign: BudgetState) returns (aborts: set<nat>)
      requires Valid(foreign)
      modifies this`terminal, this`history, this`waitingUpload, historyBudget
      ensures View() == Fail(old(View()), t) && Valid(foreign)
      ensures aborts == pending.Keys
    {
      FailLinked(View(), t);
      terminal := Some(t);
      ClearHistory(foreign);
      waitingUpload := None;
      return pending.Keys;
    }

    method NoteReply(request: nat, prefix: seq<byte>, now: nat, ghost foreign: BudgetState)
      requires Valid(foreign)
      modifies this`history, this`lastProgress
      ensures View() == Channel.NoteReply(old(View()), request, prefix, now) && Valid(foreign)
    {
      var index := None;
      if request in pending && pending[request].entry.Some? {
        index := IndexOf(pending[request].entry.value);
      }
      NoteReplyAt(View(), request, prefix, now, index);
      if index.Some? && history[index.value].replyId != Some(prefix) {
        history := history[index.value := history[index.value].(replyId := Some(prefix), attempts := 0)];
      }
      lastProgress := Some(now);
    }

    /** The locked half of `deliver`. */
    method DeliverLocked(request: nat, prefix: seq<byte>, length: nat, now: nat, ghost foreign: BudgetState)
      returns (outcome: Option<bool>)
      requires Valid(foreign)
      modifies this`history, this`lastProgress, this`replyBytes
      ensures Valid(foreign)
      ensures match Deliver(old(View()), closed, request, prefix, length, now)
        case Dropped => outcome == None && View() == old(View())
        case Overflow(after) => outcome == Some(false) && View() == after
        case Accepted(after) => outcome == Some(true) && View() == after
    {
      if closed || terminal.Some? {
        return None;
      }
      NoteReply(request, prefix, now, foreign);
      if replyBytes + length > MAX_CHANNEL_REPLY_BYTES {
        return Some(false);
      }
      SameLinks(View(), View().(replyBytes := replyBytes + length));
      replyBytes := replyBytes + length;
      return Some(true);
    }

    // -------------------------------------------------------------- recovery

    method ReplayCandidate(now: nat) returns (candidate: Option<Entry>)
      ensures candidate == Choose(View(), now)
    {
      if terminal.Some? || replyBytes > 0 || delivering {
        return None;
      }
      if |Replays(View())| >= MAX_CHANNEL_REPLAYS {
        return None;
      }
      var entries := SortEntries(View(), now, history);
      var i := 0;
      while i < |entries|
        invariant i <= |entries|
        invariant FirstWanted(View(), now, entries) == FirstWanted(View(), now, entries[i..])
      {
        assert entries[i..][1..] == entries[i + 1..];
        if Wanted(View(), now, entries[i]) {
          return Some(entries[i]);
        }
        i := i + 1;
      }
      return None;
    }
  }

  /** `index` is where scanning for `sequence` stops. */
  ghost predicate At(history: seq<Entry>, sequence: Option<nat>, index: Option<nat>) {
    match index
    case Some(i) => i < |history| && sequence == Some(history[i].sequence)
    case None => forall i | 0 <= i < |history| :: sequence != Some(history[i].sequence)
  }

  lemma PutUsage(history: seq<Entry>, index: nat, entry: Entry)
    requires index < |history| && entry.body == history[index].body
    ensures Usage(history[index := entry]) == Usage(history)
  {
    BodyBytesSame(history, history[index := entry]);
  }

  /** Sequences are distinct, so the first entry that matches is the only one. */
  lemma FinishAt(s: State, request: nat, index: Option<nat>)
    requires Increasing(s.history) && request in s.pending && At(s.history, s.pending[request].entry, index)
    ensures Finish(s, request).history ==
      if index.None? then s.history
      else s.history[index.value := FinishEntry(s.history[index.value], request, s.pending[request])]
    ensures Usage(Finish(s, request).history) == Usage(s.history)
  {
    if index.Some? {
      PutUsage(s.history, index.value, FinishEntry(s.history[index.value], request, s.pending[request]));
    }
  }

  lemma RetireAt(s: State, request: nat, index: Option<nat>)
    requires Increasing(s.history) && request in s.pending
    requires At(s.history, if s.pending[request].replay then None else s.pending[request].entry, index)
    ensures Retire(s, request).history ==
      if index.None? then s.history else s.history[index.value := s.history[index.value].(retired := true)]
    ensures Usage(Retire(s, request).history) == Usage(s.history)
  {
    if index.Some? {
      PutUsage(s.history, index.value, s.history[index.value].(retired := true));
    }
  }

  lemma ReplayAt(s: State, sequence: nat, index: nat, foreign: BudgetState, body: seq<byte>, now: nat)
    requires Increasing(s.history) && s.terminal.None?
    requires At(s.history, Some(sequence), Some(index)) && s.history[index].pending.None?
    ensures var l := Channel.Launch(s, false, foreign, body, Some(sequence), now);
      && l.Launched?
      && l.state.history == s.history[index := StartReplay(s.history[index], sequence, s.nextRequest + 1, now)]
      && Usage(l.state.history) == Usage(s.history)
  {
    PutUsage(s.history, index, StartReplay(s.history[index], sequence, s.nextRequest + 1, now));
  }

  lemma NoteReplyAt(s: State, request: nat, prefix: seq<byte>, now: nat, index: Option<nat>)
    requires Linked(s) && At(s.history, EntryOf(s, request), index)
    ensures var noted := Channel.NoteReply(s, request, prefix, now);
      && noted.history == (if index.Some? && s.history[index.value].replyId != Some(prefix)
           then s.history[index.value := s.history[index.value].(replyId := Some(prefix), attempts := 0)]
               else s.history)
      && Linked(noted) && Usage(noted.history) == Usage(s.history)
  {
    var noted := Channel.NoteReply(s, request, prefix, now);
    SameLinks(s, noted);
    BodyBytesSame(s.history, noted.history);
  }

  lemma LivingStep(history: seq<Entry>, i: nat, now: nat)
    requires i < |history|
    ensures var whole := history[..i] + Living(history[i..], now);
      if Lives(history[i], now) then history[..i + 1] + Living(history[i + 1..], now) == whole
      else Without(history, i)[..i] + Living(Without(history, i)[i..], now) == whole
  {
    var rest := Living(history[i + 1..], now);
    assert history[i..][1..] == history[i + 1..];
    if Lives(history[i], now) {
      assert history[..i] + ([history[i]] + rest) == history[..i + 1] + rest;
    } else {
      assert Without(history, i)[i..] == history[i + 1..] && Without(history, i)[..i] == history[..i];
      assert [] + rest == rest;
    }
  }

  lemma LaunchLinked(s: State, foreign: BudgetState, body: seq<byte>, replay: Option<nat>, now: nat)
    requires Linked(s)
    ensures var l := Channel.Launch(s, false, foreign, body, replay, now); l.Refused? || Linked(l.state)
  {
    match replay
    case None => LaunchOriginalLinked(s, foreign, body, now);
    case Some(q) => LaunchReplayLinked(s, foreign, body, q, now);
  }
}
