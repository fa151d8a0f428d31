/** One native client channel: its pending requests and the history of packets that may be replayed.
    Every function here is one section of the source that runs under the channel's mutex. */
module Channel {
  import opened Bytes
  import opened Limits
  import opened Options
  import opened Budgets
  import opened Clock

  const REPLAY_IDLE := 1_000
  const REPLAY_REQUEST := 3_000
  const REPLAY_RETRY := 2_000
  const REPLAY_MAX_AGE := 30_000
  const REPLAY_HISTORY_BYTES := 64 * 1024
  const REPLAY_HISTORY_PACKETS := 16
  const REPLAY_MAX_ATTEMPTS := 3
  const MAX_CHANNEL_REPLAYS := 2
  const HISTORY_LIMITS := BudgetState(128, 2 * 1024 * 1024)

  datatype Entry = Entry(
    sentAt: nat,
    body: seq<byte>,
    sequence: nat,
    attempts: nat,
    lastAttempt: Option<nat>,
    pending: Option<nat>,
    originals: set<nat>,
    retired: bool,
    replyId: Option<seq<byte>>)

  datatype Pending = Pending(
    replay: bool,
    entry: Option<nat>,
    sentAt: Option<nat>,
    receiving: bool,
    generation: Option<nat>)

  datatype Terminal = Transport(code: int) | Error(kind: nat)

  datatype State = State(
    nextRequest: nat,
    pending: map<nat, Pending>,
    history: seq<Entry>,
    replayKey: Option<seq<byte>>,
    replyBytes: nat,
    terminal: Option<Terminal>,
    lastProgress: Option<nat>,
    delivering: bool,
    waitingUpload: Option<(nat, nat)>)

  function Fresh(now: nat): State {
    State(0, map[], [], None, 0, None, Some(now), false, None)
  }

  // ---------------------------------------------------------------- history

  function BodyBytes(history: seq<Entry>): nat {
    if |history| == 0 then 0 else |history[0].body| + BodyBytes(history[1..])
  }

  /** What the history holds of the process-wide history budget. */
  function Usage(history: seq<Entry>): BudgetState {
    BudgetState(|history|, BodyBytes(history))
  }

  /** The history budget admits a body beside this history and what the other channels hold. */
  predicate HasRoom(foreign: BudgetState, history: seq<Entry>, more: nat) {
    && foreign.requests + |history| < HISTORY_LIMITS.requests
    && foreign.bytes + BodyBytes(history) + more <= HISTORY_LIMITS.bytes
  }

  predicate Fits(history: seq<Entry>) {
    |history| <= REPLAY_HISTORY_PACKETS && BodyBytes(history) <= REPLAY_HISTORY_BYTES
  }

  /** An entry the source would rather not evict. */
  predicate Protected(entry: Entry, now: nat) {
    entry.originals != {}
    || (entry.retired && entry.attempts < REPLAY_MAX_ATTEMPTS && Since(now, entry.sentAt) <= REPLAY_MAX_AGE)
  }

  function Without(history: seq<Entry>, index: nat): seq<Entry>
    requires index < |history|
  {
    history[..index] + history[index + 1..]
  }

  /** The oldest unprotected entry, or the oldest of all when every entry is protected. */
  function Victim(history: seq<Entry>, now: nat): (index: nat)
    requires |history| > 0
    ensures index < |history|
    ensures forall j | 0 <= j < index :: Protected(history[j], now)
    ensures Protected(history[index], now) ==> index == 0 && forall j | 0 <= j < |history| :: Protected(history[j], now)
  {
    if !Protected(history[0], now) then 0
    else if |history| == 1 then 0
    else
      var rest := Victim(history[1..], now);
      if Protected(history[1..][rest], now) then 0 else rest + 1
  }

  function Evict(history: seq<Entry>, now: nat): seq<Entry>
    decreases |history|
  {
    if Fits(history) || |history| == 0 then history
    else Evict(Without(history, Victim(history, now)), now)
  }

  function FindBody(history: seq<Entry>, body: seq<byte>): (index: Option<nat>)
    ensures index.Some? ==> index.value < |history| && history[index.value].body == body
    ensures index.None? ==> forall i | 0 <= i < |history| :: history[i].body != body
  {
    if |history| == 0 then None
    else if history[0].body == body then Some(0)
    else match FindBody(history[1..], body)
      case None => None
      case Some(i) => Some(i + 1)
  }

  datatype Remembered = Remembered(history: seq<Entry>, replayKey: Option<seq<byte>>, entry: Option<nat>)

  predicate Replayable(body: seq<byte>) {
    8 <= |body| <= REPLAY_HISTORY_BYTES && body[..8] != ZERO_KEY
  }

  function NewEntry(body: seq<byte>, request: nat, now: nat): Entry {
    Entry(now, body, request, 0, None, None, {request}, false, None)
  }

  /** `foreign` is what the other channels hold of the history budget. */
  function Remember(s: State, foreign: BudgetState, body: seq<byte>, request: nat, now: nat): Remembered {
    if !Replayable(body) then Remembered(s.history, s.replayKey, None)
    else
      var key := Some(body[..8]);
      var kept := if s.replayKey == key then s.history else [];
      match FindBody(kept, body)
      case Some(i) =>
        var entry := kept[i].(originals := kept[i].originals + {request});
        Remembered(Evict(kept[i := entry], now), key, Some(entry.sequence))
      case None =>
        if HasRoom(foreign, kept, |body|)
        then Remembered(Evict(kept + [NewEntry(body, request, now)], now), key, Some(request))
        else Remembered(kept, key, None)
  }

  // ---------------------------------------------------------------- requests

  datatype Launched = Refused(closed: bool) | Launched(state: State, request: nat)

  predicate Eligible(s: State, sequence: nat) {
    exists i :: 0 <= i < |s.history| && s.history[i].sequence == sequence && s.history[i].pending.None?
  }

  function StartReplay(entry: Entry, sequence: nat, request: nat, now: nat): Entry {
    if entry.sequence != sequence then entry
    else entry.(attempts := if entry.attempts < 255 then entry.attempts + 1 else 255,
                lastAttempt := Some(now), pending := Some(request))
  }

  /** The locked section of `launch`; `replay` carries the sequence of the entry being replayed. */
  function Launch(s: State, closed: bool, foreign: BudgetState, body: seq<byte>, replay: Option<nat>,
      now: nat): Launched {
    if closed || s.terminal.Some? then Refused(true)
    else if replay.Some? && !Eligible(s, replay.value) then Refused(false)
    else
      var request := s.nextRequest + 1;
      if replay.Some? then
        Launched(s.(nextRequest := request,
                    history := seq(|s.history|, i requires 0 <= i < |s.history| =>
                      StartReplay(s.history[i], replay.value, request, now)),
                    pending := s.pending[request := Pending(true, replay, None, false, None)]), request)
      else
        var r := Remember(s, foreign, body, request, now);
        Launched(s.(nextRequest := request, history := r.history, replayKey := r.replayKey,
                    pending := s.pending[request := Pending(false, r.entry, None, false, None)]), request)
  }

  function MarkSent(s: State, request: nat, now: nat): State {
    if request !in s.pending then s
    else s.(pending := s.pending[request := s.pending[request].(sentAt := Some(now))])
  }

  function MarkStarted(s: State, request: nat, generation: nat): State {
    if request !in s.pending then s
    else s.(pending := s.pending[request := s.pending[request].(generation := Some(generation))])
  }

  function MarkReceiving(s: State, request: nat, now: nat): State {
    (if request !in s.pending then s
     else s.(pending := s.pending[request := s.pending[request].(receiving := true)])).(lastProgress := Some(now))
  }

  function FinishEntry(entry: Entry, request: nat, pending: Pending): Entry {
    if pending.entry != Some(entry.sequence) then entry
    else if pending.replay && entry.pending == Some(request) then entry.(pending := None)
    else entry.(originals := entry.originals - {request})
  }

  function Finish(s: State, request: nat): State {
    if request !in s.pending then s
    else s.(pending := s.pending - {request},
            history := seq(|s.history|, i requires 0 <= i < |s.history| =>
              FinishEntry(s.history[i], request, s.pending[request])))
  }

  function RetireEntry(entry: Entry, pending: Pending): Entry {
    if !pending.replay && pending.entry == Some(entry.sequence) then entry.(retired := true) else entry
  }

  function Retire(s: State, request: nat): State {
    if request !in s.pending then s
    else s.(history := seq(|s.history|, i requires 0 <= i < |s.history| =>
              RetireEntry(s.history[i], s.pending[request])))
  }

  // ---------------------------------------------------------------- ending and delivering

  /** The locked section of `fail`, run by the one caller that flipped `closed`. */
  function Fail(s: State, terminal: Terminal): State {
    s.(terminal := Some(terminal), history := [], waitingUpload := None)
  }

  datatype Delivery = Dropped | Overflow(state: State) | Accepted(state: State)

  function ResetAttempts(entry: Entry, sequence: Option<nat>, prefix: seq<byte>): Entry {
    if sequence == Some(entry.sequence) && entry.replyId != Some(prefix)
    then entry.(replyId := Some(prefix), attempts := 0) else entry
  }

  function EntryOf(s: State, request: nat): Option<nat> {
    if request in s.pending then s.pending[request].entry else None
  }

  /** A reply that begins with a new prefix gives its entry a fresh set of attempts. */
  function NoteReply(s: State, request: nat, prefix: seq<byte>, now: nat): State {
    s.(lastProgress := Some(now),
       history := seq(|s.history|, i requires 0 <= i < |s.history| =>
         ResetAttempts(s.history[i], EntryOf(s, request), prefix)))
  }

  /** The locked section of `deliver` for a reply of `length` bytes that begins with `prefix`. */
  function Deliver(s: State, closed: bool, request: nat, prefix: seq<byte>, length: nat, now: nat): Delivery {
    if closed || s.terminal.Some? then Dropped
    else
      var noted := NoteReply(s, request, prefix, now);
      if s.replyBytes + length > MAX_CHANNEL_REPLY_BYTES then Overflow(noted)
      else Accepted(noted.(replyBytes := s.replyBytes + length))
  }

  function ReleaseReply(s: State, length: nat): State {
    s.(replyBytes := SaturatingSub(s.replyBytes, length))
  }

  // ---------------------------------------------------------------- recovery

  predicate Lives(entry: Entry, now: nat) {
    entry.originals != {} || entry.pending.Some? || Since(now, entry.sentAt) <= REPLAY_MAX_AGE
  }

  function Living(history: seq<Entry>, now: nat): seq<Entry> {
    if |history| == 0 then []
    else (if Lives(history[0], now) then [history[0]] else []) + Living(history[1..], now)
  }

  function Purge(s: State, now: nat): State {
    var history := Living(s.history, now);
    s.(history := history, replayKey := if |history| == 0 then None else s.replayKey)
  }

  // ---------------------------------------------------------------- the invariant

  predicate IsOriginal(s: State, id: nat, sequence: nat) {
    id in s.pending && !s.pending[id].replay && s.pending[id].entry == Some(sequence)
  }

  predicate IsReplay(s: State, id: nat, sequence: nat) {
    id in s.pending && s.pending[id].replay && s.pending[id].entry == Some(sequence)
  }

  predicate Increasing(history: seq<Entry>) {
    forall i, j :: 0 <= i < j < |history| ==> history[i].sequence < history[j].sequence
  }

  predicate DistinctBodies(history: seq<Entry>) {
    forall i, j :: 0 <= i < j < |history| ==> history[i].body != history[j].body
  }

  predicate Keyed(history: seq<Entry>, key: Option<seq<byte>>) {
    forall i :: 0 <= i < |history| ==> Replayable(history[i].body) && key == Some(history[i].body[..8])
  }

  ghost predicate Numbered(s: State) {
    && (forall i :: 0 <= i < |s.history| ==> 0 < s.history[i].sequence <= s.nextRequest)
    && (forall id :: id in s.pending ==> 0 < id <= s.nextRequest)
    && (forall id :: id in s.pending && s.pending[id].entry.Some? ==> 0 < s.pending[id].entry.value <= s.nextRequest)
  }

  /** A request and a history entry name each other, or neither names the other. */
  ghost predicate Mutual(s: State) {
    && (forall i: int, id: nat :: 0 <= i < |s.history| ==>
         (id in s.history[i].originals <==> IsOriginal(s, id, s.history[i].sequence)))
    && (forall i: int, id: nat :: 0 <= i < |s.history| ==>
         (s.history[i].pending == Some(id) <==> IsReplay(s, id, s.history[i].sequence)))
  }

  ghost predicate Linked(s: State) {
    && Increasing(s.history)
    && DistinctBodies(s.history)
    && Keyed(s.history, s.replayKey)
    && Fits(s.history)
    && Numbered(s)
    && Mutual(s)
  }
}
