# Verified model of the Telegram bridge

This project models the parts of the bridge where correctness spans many functions, many tasks or many
reads and writes, and proves what they promise. To check everything, run `dafny verify dfyconfig.toml`.

## What is modelled

**The H2 media multiplexer** (`src/cf_h2.rs`). Many native clients (channels) share one connection per
origin (lane). Each section that runs under one lock is one pure function or one step of a state machine;
a run is any sequence of enabled steps, so every interleaving is covered, also those of a multi-thread
runtime.

- `Budget`, `Admission`: the three nested budgets and the permits that are acquired, extended, shrunk and dropped.
  `PendingRequests` ties them to the channel's pending map; `BudgetWaiters` is how one waits for room.
- `Channel`, `Eviction`, `Links`, `Candidate`, `ChannelObject`, `MakeRoom`: pending requests and replay
  history, as functions and as an object updated in place that is proved against them.
- `ChannelRuns`, `FailProtocol`, `ReplayBounds`: whole runs of a channel. `HistoryBudget`: many channels that share
  the process budget for their histories, permit by permit.
- `Generations`, `LaneClose`, `LanePool`: connection generations, closing a lane, and the pool of lanes.
- `Replies`, `Post`: what buffered replies are charged for, from the first data frame to the last drop.

**The streaming codecs.** A stream cipher is a keystream and a position; reads and writes move as much
as they like. Each codec equals a one-shot specification for every chunking.

- `Framing`, `ReplyFraming`, `H2Bridge`: MTProto headers, replies and packets of native clients.
- `WsFrames`, `WsWriter`, `WsReader`, `WsMessages`: WebSocket frames, against a decoder that knows nothing of
  either end.
- `Upload`, `Pumps`, `Handshake`, `Serving`: the re-encrypting pumps, the handshakes that fix the four ciphers,
  and a served connection from end to end: what the data centre sees, and what the client reads.
- `FakeTls`: the record stream, poll by poll.

**Two cores ruled by time.** `ReplayCache` (greetings accepted once) and `WarmPool` (sockets dialled ahead).

`Bytes`, `Streams`, `Clock`, `Limits`, `Totals` and `Options` hold what the others share.

## What was found

- *A connection task can outlive the close of the pool.* An eviction takes the handles of a lane's tasks and then
  awaits them (`src/cf_h2.rs:1995-1998`) inside the task of a client. Shutdown aborts the clients just before it
  closes the pool (`src/proxy.rs:78-80`); the handles are dropped with the client, `reap_if_quiescent`
  (`src/cf_h2.rs:986-1009`) finds empty lists, and the close returns while the task, though cancelled, has not
  ended (`LaneClose.DroppedCloserLosesTask`). The comment at `src/proxy.rs:77` promises more. The exact condition
  is `LaneClose.EveryTaskIsAwaited`, what survives without it `LaneClose.EveryTaskIsCancelled`.
- *A request can be registered on a lane that was drained*, when `fail` loses the swap of `closed`
  (`src/cf_h2.rs:1229`) to a task that has not taken the lock yet, and a launch had read the flag before
  (`LaneClose.StraddlingLaunchIsLost`); it is aborted by the section that `fail` still owes.
- *The channel's reply limit can be reached.* Under the process limits the lane's byte-overflow check can
  never fire. The channel's check (`src/cf_h2.rs:1590-1600`) can: a `BufferedReply` drops its fields in
  order (`src/cf_h2.rs:101-106`), so the process share is free again before the channel share, and on a
  multi-thread runtime another reply may be taken in between. It can fire exactly when a reply of the channel
  is half dropped (`Replies.ChannelCheckExactly`), which happens (`Replies.HalfDroppedIsReached`), and never when
  drops are not interrupted (`Replies.SerialChecksNeverFire`).
- *A greeting is accepted once only if no thread stands still too long.* Two acceptances lie within 241 s
  by the wall clock that was read before the lock was taken, and the memory lasts 300 s; so the delay from
  the one to the other must stay within 59 s, and that bound is exact (`ReplayCache.LagThreshold`).
- *The eviction inside `cache_lane` is dead code.* A lane that was just set up holds one of the eight slots
  itself, so at most seven lanes are cached when it arrives (`LanePool.CacheHasRoom`).
- *The two overdue tests of `replay_candidate` differ* on an entry whose original is already receiving, but
  agree wherever the second one is asked (`Candidate.OverdueTestsAgree`, `Candidate.OverdueTestsDiffer`).
- *A refill can wait for up to five seconds past the moment it may be made.* The maintainer reads the clock once to
  decide whether to dial and again to decide when to come back (`src/upstream.rs:646-653`); a next try that falls
  between the two readings gets neither (`WarmPool.StraddlingLookSleepsOn`). The same happens when the checkout that
  emptied the bucket was dropped while it checked its socket (`WarmPool.DroppedCheckoutLosesRefill`). Where a refill
  was asked for, or no checkout has still to ask or was dropped, only such a look loses one
  (`WarmPool.NoRefillIsLost`).

## Model

| member | source | states |
|---|---|---|
| `Budgets.Budget.TryAcquire` | src/cf_h2.rs:184-204 | granted exactly when one more request and its bytes fit; then both counters carry it, otherwise nothing moves |
| `Budgets.Budget.Release` | src/cf_h2.rs:317-325 | the counters fall by one request and the permit's bytes, never below zero |
| `Budgets.BudgetPermit.TryExtendBytes` | src/cf_h2.rs:252-263 | a permit grows only inside the limit and without taking another request slot |
| `Budgets.BudgetPermit.ShrinkBytes` | src/cf_h2.rs:265-272 | permit and budget give back the same bytes |
| `Admission.RunsConserve` | src/cf_h2.rs:161-325 | in every run, at channel, lane and process, requests and bytes are the count and byte sum of the permits alive there and within the limits |
| `Admission.NeverSaturates` | src/cf_h2.rs:317-325 | no saturating subtraction of a release ever saturates |
| `PendingRequests.PendingAtMostEight` | src/cf_h2.rs:1382-1497 | in every run of a channel among all tasks of the process its pending map holds at most eight requests, and each of them one permit at each of the three levels that no other has |
| `Admission.DrainReturnsEverything` | src/cf_h2.rs:1309-1380 | a reservation or launch abandoned at any point, dropping its permits in any order, gives back exactly what it took: the counters become those of the other tasks alone |
| `Admission.ReserveCannotDeadlock` | src/cf_h2.rs:1309-1348 | while a packet of at most MAX_PADDED_PACKET waits, the budget that refuses it has been granted to a task that can move, or owns all three permits, or waits itself for a budget further on: such a chain ends after at most three links |
| `BudgetWaiters.RunsKeepWakeUps` | src/cf_h2.rs:206-226 | in every run of registering, testing, sleeping, releasing and waking in separate steps: whoever sleeps without a stored wake-up finds no room, or a release still owes one |
| `BudgetWaiters.NobodyOversleeps` | src/cf_h2.rs:206-226 | so nobody sleeps on a budget that would admit it, unless a wake-up is stored for it or one is owed, and that one reaches it |
| `Eviction.EvictFits` | src/cf_h2.rs:1286-1305 | the eviction loop ends with at most 16 packets and 64 KiB, having only left entries out |
| `Eviction.EvictKeepsNewest` | src/cf_h2.rs:1269-1306 | the entry just pushed always survives the loop |
| `Eviction.EvictProtectedLast` | src/cf_h2.rs:1286-1305 | a protected entry is evicted only when every entry left is protected |
| `Eviction.EvictOldestFirst` | src/cf_h2.rs:1286-1305 | among unprotected entries the older one goes before the newer |
| `Links.RememberedStays` | src/cf_h2.rs:1250-1307 | the entry `remember` returns is in the history afterwards, with this body and this request among its originals |
| `Links.FreshLinked` | src/cf_h2.rs:1198-1218 | a new channel satisfies the invariant linking requests and history |
| `Links.LaunchOriginalLinked` | src/cf_h2.rs:1382-1431 | launching an original keeps the invariant: names agree both ways, sequences increase, bodies are distinct and start with the replay key |
| `Links.LaunchReplayLinked` | src/cf_h2.rs:1361-1431 | launching a replay keeps the invariant |
| `Links.FinishLinked` | src/cf_h2.rs:1618-1639 | finishing a request keeps the invariant: no entry names it any more |
| `Links.RetireLinked` | src/cf_h2.rs:1641-1666 | retiring a request keeps the invariant |
| `Links.DeliverLinked` | src/cf_h2.rs:1566-1616 | a delivery keeps the invariant |
| `Links.FailLinked` | src/cf_h2.rs:1228-1248 | `fail` keeps the invariant |
| `Links.PurgeLinked` | src/cf_h2.rs:1783-1790 | the recovery loop's purge keeps the invariant |
| `Links.LivingExactly` | src/cf_h2.rs:1783-1790 | the purge keeps exactly the entries still wanted |
| `Links.MarkSentLinked` | src/cf_h2.rs:1532-1536 | marking a request sent keeps the invariant |
| `Links.MarkStartedLinked` | src/cf_h2.rs:1538-1542 | marking a request started keeps the invariant |
| `Links.MarkReceivingLinked` | src/cf_h2.rs:1553-1559 | marking a request receiving keeps the invariant |
| `Candidate.OverdueTestsAgree` | src/cf_h2.rs:1668-1748 | the two overdue tests of `replay_candidate` agree on every entry none of whose originals is receiving |
| `Candidate.OverdueTestsDiffer` | src/cf_h2.rs:1668-1748 | elsewhere they can differ |
| `Candidate.SortSorts` | src/cf_h2.rs:1683-1701 | the candidates are sorted by the key, each as often as before, and those of one key in the order they had |
| `Candidate.ChooseIsPrioritised` | src/cf_h2.rs:1668-1748 | sound, complete and prioritised: the oldest eligible overdue entry, else the newest of an idle channel, else no entry is eligible |
| `FailProtocol.RunsAreSound` | src/cf_h2.rs:1228-1248 | in every run with steps split at the lock boundaries: the linking invariant, one terminal at most, a pending record exactly while its guard lives, and after `fail`'s section every pending request is in its abort list |
| `FailProtocol.FirstTerminalWins` | src/cf_h2.rs:1228-1248 | the terminal first recorded is the only one ever recorded |
| `FailProtocol.NoLaunchAfterFail` | src/cf_h2.rs:1391-1402 | once `fail` has run its locked section no request is ever inserted again, and every request still pending is in its abort list |
| `FailProtocol.InsertionFollowsFlip` | src/cf_h2.rs:1229-1240 | between the flip of `closed` and that section an insertion that had read the flag can still follow, and the section collects it |
| `FailProtocol.NoPacketBeforeTerminal` | src/cf_h2.rs:1836-1867 | from when the terminal is set until it is taken, `receive` yields no packet |
| `FailProtocol.RemovedOnce` | src/cf_h2.rs:1806-1820 | no pending record is removed twice, and each removal finds its record |
| `ReplayBounds.RunsAreBounded` | src/cf_h2.rs:1503-1513 | the pace of replays holds in every state of every run with a monotone clock |
| `ReplayBounds.ReplaysAreBounded` | src/cf_h2.rs:64-73 | in every run: at most 2 replays in flight, at most 1 for an entry, at most 3 attempts between changes of reply prefix, at most 16 in an entry's lifetime |
| `HistoryBudget.RunsStayWithin` | src/cf_h2.rs:1250-1307 | with many channels and one counter moved permit by permit, in every run the counter is exactly the permits of all channels, within its limits; between sections these are the live entries of all histories, counted and weighed |
| `HistoryBudget.ChannelsRunAsAlone` | src/cf_h2.rs:1250-1307 | whatever the others do between two permits of a section, each channel passes through states it can reach alone, and the section does what its specification says with what the others held when it asked |
| `HistoryBudget.NeverSaturates` | src/cf_h2.rs:317-325 | giving back a history permit never saturates |
| `HistoryBudget.EvictReleases` | src/cf_h2.rs:1286-1305 | eviction only ever gives back |
| `ChannelObject.ChannelInner.constructor` | src/cf_h2.rs:1198-1218 | a fresh channel is valid and charges nothing |
| `ChannelObject.ChannelInner.EvictToFit` | src/cf_h2.rs:1286-1305 | the in-place loop leaves the history the eviction function describes and the process budget charged for exactly what is left |
| `ChannelObject.ChannelInner.Remember` | src/cf_h2.rs:1250-1307 | history, replay key, budget and returned entry are those of the specification |
| `ChannelObject.ChannelInner.PurgeHistory` | src/cf_h2.rs:1783-1790 | the purge in place, with the budget released |
| `ChannelObject.ChannelInner.Launch` | src/cf_h2.rs:1382-1431 | refused when closed or not eligible, otherwise the whole new state of the specification |
| `ChannelObject.ChannelInner.FinishRequest` | src/cf_h2.rs:1618-1639 | the whole new state |
| `ChannelObject.ChannelInner.RetireAndAbort` | src/cf_h2.rs:1641-1666 | the whole new state, and whether there was a task to abort |
| `ChannelObject.ChannelInner.FailSwap` | src/cf_h2.rs:1228-1231 | only the first caller wins |
| `ChannelObject.ChannelInner.FailLocked` | src/cf_h2.rs:1232-1248 | the terminal is stored, the history and its charge are dropped, and every pending request is returned for abort |
| `ChannelObject.ChannelInner.NoteReply` | src/cf_h2.rs:1573-1589 | progress and the attempt counter reset when the reply prefix changes |
| `ChannelObject.ChannelInner.DeliverLocked` | src/cf_h2.rs:1566-1616 | dropped, refused or charged, with the new state |
| `ChannelObject.ChannelInner.ReplayCandidate` | src/cf_h2.rs:1668-1748 | the loop returns what the specification chooses |
| `MakeRoom.PickVictim` | src/cf_h2.rs:915-936 | over all channels searched, a stuck request no other stuck request beats, or none exists |
| `MakeRoom.FreeOne` | src/cf_h2.rs:900-942 | for a request of that many bytes: the waiting channel alone when its own budget has no room, else the lane when that has none; at most one request is retired, one that no other searched beats, and nothing else changes |
| `MakeRoom.EndedRequestIsKept` | src/cf_h2.rs:900-942 | the request that is ended is a replay or an original whose packet stays in the history, marked retired and counted as overdue |
| `Generations.RunsAreGood` | src/cf_h2.rs:482-526 | in every run, with registering for the wake-up and testing for poison two steps: counts equal the live guards, every poisoned generation is busy, and whoever waits on a poisoned generation has a wake-up still to come |
| `Generations.PoisonedNeverRises` | src/cf_h2.rs:633-694 | in every run, from when a generation is poisoned on, its count never rises again, and it stays poisoned until it is over for good |
| `Generations.TimeoutSparesOthers` | src/cf_h2.rs:493-509 | a timeout cancels the driver of its generation only at count zero and never touches a newer generation |
| `Generations.LastGuardRetires` | src/cf_h2.rs:1031-1053 | a poisoned generation is retired exactly when its last guard drops, with a wake-up |
| `Generations.OverIsForever` | src/cf_h2.rs:528-615 | a generation that lost its sender never carries a new stream |
| `Generations.LaneConnection.PublishConnection` | src/cf_h2.rs:592-613 | publishing takes the next generation and keeps the previous driver |
| `Generations.LaneConnection.InvalidateConnection` | src/cf_h2.rs:482-491 | only the named generation loses sender and driver, and the driver is cancelled |
| `Generations.LaneConnection.InvalidateIfIdle` | src/cf_h2.rs:493-509 | poisons a busy generation, invalidates an idle one |
| `Generations.LaneConnection.StartRequest` | src/cf_h2.rs:633-694 | wait, start over, or admit and count |
| `Generations.LaneConnection.DropActive` | src/cf_h2.rs:1031-1053 | the guard's drop, with the deferred invalidation |
| `Generations.LaneConnection.ConnectionFinished` | src/cf_h2.rs:511-526 | the sender is dropped only if the generation is still current |
| `Replies.RunsAreGood` | src/cf_h2.rs:1096-1142 | in every run with `try_extend`, `deliver` and drops split at their locks: each lane, channel and the process carry exactly the sums over the live replies |
| `Replies.LanesWithinProcess` | src/cf_h2.rs:449-474 | the lanes' reply bytes sum to at most the process reply bytes, even between the halves of `try_extend` |
| `Replies.LaneCheckNeverFires` | src/cf_h2.rs:449-474 | under the process limits the lane byte-overflow check can never fire |
| `Replies.ChannelCheckNeedsHalfDropped` | src/cf_h2.rs:1566-1616 | the channel byte-overflow check fires only while some reply of that channel is half dropped |
| `Replies.ChannelCheckExactly` | src/cf_h2.rs:1590-1600 | from any state of any run, with every drop uninterrupted from there on and its half-dropped replies left alone, the check of a channel can fire if and only if some reply of the channel is half dropped |
| `Replies.HalfDroppedIsReached` | src/cf_h2.rs:101-106 | such a state is reached, since a reply gives back its lane and process share before its channel share |
| `Replies.SerialChecksNeverFire` | src/cf_h2.rs:1566-1616 | on a runtime where a drop is not interrupted neither check ever fires |
| `Replies.NeverSaturates` | src/cf_h2.rs:1128-1142 | no subtraction of reply bytes saturates |
| `Post.ReplyLane.ChargeReply` | src/cf_h2.rs:449-474 | process and lane are both charged or neither |
| `Post.ReplyLane.TryExtend` | src/cf_h2.rs:1097-1120 | permit, lane and process grow by the same bytes or not at all |
| `Post.ReplyLane.ReadDeclared` | src/cf_h2.rs:805-828 | a body of declared length is the data frames put together and exactly that long |
| `Post.ReplyLane.ReadChunks` | src/cf_h2.rs:815-857 | a body of unknown length is kept in at most 1024 non-empty pieces whose charge is their total at every moment |
| `Post.ReplyLane.Conclude` | src/cf_h2.rs:866-897 | the verdict on the body, and the charge kept or given back |
| `Post.ReplyLane.ReceiveBody` | src/cf_h2.rs:801-897 | on every success the charge is the length is the sum of the parts; on every other outcome nothing stays charged |
| `Post.GatherReplyId` | src/cf_h2.rs:121-138 | `replay_id` of a buffered reply: for every division of the reply into parts, the 24-byte block holds the first 24 bytes of the parts put together (all of them when the reply is shorter) and zeros after them, and the length says how many they are |
| `Post.IdsTellPrefixes` | src/cf_h2.rs:140-144 | two ids are equal exactly when the replies begin with the same 24 bytes, or are the same shorter reply, however each was divided |
| `LanePool.NeverMoreThanEight` | src/cf_h2.rs:1933-2002 | in every run at most eight lanes hold slots and at most eight are cached, all of these open |
| `LanePool.CacheHasRoom` | src/cf_h2.rs:1933-1950 | when a lane that was set up arrives at the cache at most seven are there |
| `LanePool.EvictedIsIdle` | src/cf_h2.rs:1985-1992 | a lane that passes the eviction test has no channel and no reference but the cache and the tracking list |
| `LanePool.SetupIsCached` | src/cf_h2.rs:1933-1963 | a freshly set-up lane always finds room in the cache; the eviction inside `cache_lane` never happens |
| `LanePool.EvictionClosesOne` | src/cf_h2.rs:1980-2002 | an eviction closes one lane, without channels or other references, and takes only it from the cache; of the lanes that could be evicted it is the one used least recently in the run |
| `LanePool.BusyIsNotClosed` | src/cf_h2.rs:1980-2002 | an open lane with a live channel or a task is closed only by closing the pool |
| `LanePool.ClosedForGood` | src/cf_h2.rs:2124-2146 | after the closer took the lanes all are closed, none is cached, and none is ever made |
| `LanePool.RunsAreGood` | src/cf_h2.rs:2006-2146 | slots are conserved, the cache names open tracked lanes under their own hosts, and the one cold open never finds its host taken |
| `LaneClose.NeverPublishedAgain` | src/cf_h2.rs:528-615 | once a closer has taken the sender away, no connect publishes a sender or starts a driver |
| `LaneClose.OnlyStraddlersLaunch` | src/cf_h2.rs:1391-1402 | once `fail` was called on every channel only a launch already past its check starts a request, and each of these at most one |
| `LaneClose.EveryTaskIsCancelled` | src/cf_h2.rs:944-972 | whatever happens, once a closer has cancelled the registered tasks every unfinished one is cancelled, or will be by the locked section a `fail` still owes |
| `LaneClose.EveryTaskIsAwaited` | src/cf_h2.rs:974-1009 | in a run every unfinished task of a drained lane is awaited if and only if no closer was dropped with unfinished tasks in its hands and no launch registered after the draining |
| `LaneClose.PoolCloseIsComplete` | src/cf_h2.rs:2124-2146 | when the close of the pool returns, whichever closers waited for what they took, were dropped, or only aborted as `Lane::close` does, all tasks of a lane have ended if its run was orderly; in any case exactly if each was awaited, and for a reaped lane exactly if each was on its lists or awaited |
| `LaneClose.DisorderLoses` | src/cf_h2.rs:1995-1998 | a closer dropped so, or a launch so late, leaves a task that nobody awaits |
| `LaneClose.DroppedCloserLosesTask` | src/cf_h2.rs:986-1009 | the first happens: the lane is reaped, a later closer returns, and a connection task that was cancelled has not ended |
| `LaneClose.StraddlingLaunchIsLost` | src/cf_h2.rs:1229-1240 | the second happens: a closer loses the swap of the flag to a failing task and returns while a launch registers |
| `LaneClose.QuiescentStays` | src/cf_h2.rs:986-1009 | nothing starts any more on a lane that was reaped while no launch was under way |
| `LaneClose.QuiescentExactly` | src/cf_h2.rs:974-1009 | a reaped lane can start nothing if and only if no launch is under way on it; one can be only where a closer has cleared the list of channels, so that the test no longer sees it |
| `LaneClose.RunsAreGood` | src/cf_h2.rs:944-1017 | what every stage of a closer has taken, cancelled and gathered, in every interleaving of connects, losses, launches, failing tasks, and closers that may be dropped |
| `Framing.HeaderRoundTrip` | src/framing.rs:20-46 | every header a sender writes, quick acknowledgement or not, gives back its own size and the length, whatever follows |
| `Framing.SelfDelimiting` | src/framing.rs:9-46 | the verdict depends on the header alone and a shorter prefix has none |
| `Framing.HeaderUnique` | src/framing.rs:20-46 | an accepted header is the one a sender writes for that length, save that the abridged form may spell a short length in full |
| `Framing.AcceptedFits` | src/framing.rs:39-46 | an accepted packet is at most 16 MiB + 4 with its header |
| `ReplyFraming.FrameIsDelimited` | src/cf_h2.rs:2257-2300 | the frame of a reply says its own prefix size and length |
| `ReplyFraming.WriteEncryptedReply` | src/cf_h2.rs:2325-2395 | for every split into parts, buffer size and pattern of writes, what is written is the one-shot frame encrypted, or the front of it when a write fails |
| `ReplyFraming.ClientReadsFrame` | src/cf_h2.rs:2325-2395 | the client deciphers exactly the frame |
| `ReplyFraming.StripExactly` | src/cf_h2.rs:2149-2183 | stripping accepts exactly a packet followed by at most 15 bytes (encrypted) or 256 bytes (plain) of padding, and returns the packet |
| `ReplyFraming.StripTwice` | src/cf_h2.rs:2149-2183 | stripping is idempotent |
| `H2Bridge.ReadPacket` | src/cf_h2.rs:2204-2250 | for every pattern of reads, the next acceptable body of the plaintext, or the news that there is none |
| `H2Bridge.AcceptedExactly` | src/cf_h2.rs:2222-2249 | a payload is accepted for a body exactly when a client may send that body with the rest as padding |
| `H2Bridge.UploadBodies` | src/cf_h2.rs:2403-2417 | the bodies go up in order, all of them up to the first unacceptable one |
| `H2Bridge.ClientIsHeard` | src/cf_h2.rs:2204-2250 | every packet a client frames, padded or not, arrives without its padding |
| `H2Bridge.DownloadReplies` | src/cf_h2.rs:2419-2470 | replies in any parts become one frame after another under one continuing cipher, and the front of these when one fails |
| `WsFrames.LengthRoundTrip` | src/websocket.rs:291-304 | the length the writer emits is the length read |
| `WsFrames.LengthUnique` | src/websocket.rs:388-406 | each length has exactly one accepted encoding, the writer's |
| `WsFrames.DecodeAllEncoded` | src/websocket.rs:286-312 | frames written one after another are decoded as they were (sections 5.2 and 5.3 of RFC 6455) |
| `WsWriter.Writer.Begin` | src/websocket.rs:286-312 | refused exactly when a frame is unfilled or the length exceeds the limit; otherwise its header is on the wire |
| `WsWriter.Writer.MaskInPlace` | src/websocket.rs:318-320 | masking in place continues the mask where the last piece stopped |
| `WsWriter.Writer.Payload` | src/websocket.rs:314-332 | a piece extends the payload; an overflow changes nothing; the last piece completes the frame |
| `WsWriter.Writer.Binary` | src/websocket.rs:333-336 | one whole binary frame |
| `WsWriter.Writer.Control` | src/websocket.rs:337-343 | one whole control frame, refused while a data frame is unfilled or above 125 bytes |
| `WsWriter.Writer.WireDecodes` | src/websocket.rs:283-343 | the wire decodes to the completed frames, each final and masked, also after a failed write |
| `WsReader.Reader.constructor` | src/websocket.rs:353-360 | a new reader has the whole stream ahead of it |
| `WsReader.Reader.TakeHead` | src/websocket.rs:381-409 | the header at the front of the stream, or why not |
| `WsReader.Reader.TakeControl` | src/websocket.rs:410-433 | a close ends the stream and its status code is echoed at most once, a ping is answered with its own payload, a pong is nothing |
| `WsReader.Reader.NextFrame` | src/websocket.rs:381-449 | one header, judged after the ones before it, takes nothing from the data ahead |
| `WsReader.Reader.NextChunk` | src/websocket.rs:363-451 | for every buffer and pattern of reads a chunk is the front of the data ahead; an ending is reported exactly when none is left |
| `WsReader.DeliverPeels` | src/websocket.rs:371-380 | however a payload is cut by reads, the rest is still to come |
| `WsMessages.DeliverIsByFrames` | src/websocket.rs:363-451 | for every byte stream, the data delivered is that of its decoded frames |
| `WsMessages.AcceptsExactly` | src/websocket.rs:410-449 | frames are taken to the end if and only if each is legal, they are in sequence, and no message exceeds the limit (sections 5.4 and 5.5 of RFC 6455) |
| `WsMessages.ThroughDelivers` | src/websocket.rs:363-451 | what they deliver is the concatenation of their messages and their pings, control frames contributing nothing |
| `WsMessages.ServerIsHeard` | src/websocket.rs:363-451 | a server sending legal frames has every message delivered byte for byte |
| `Upload.ReadRecrypted` | src/proxy.rs:489-495 | bytes read are re-encrypted in the buffer, both ciphers moving on by as many |
| `Upload.ReadHeader` | src/proxy.rs:501-517 | the header is read byte by byte as it asks for more; otherwise the reason there is no packet |
| `Upload.BeginPacket` | src/proxy.rs:518-522 | an accepted length never makes `begin` fail; the encrypted header is the start of the frame |
| `Upload.SendBody` | src/proxy.rs:524-535 | the body fills the frame whatever the reads and the buffer, at the right keystream offset |
| `Upload.OthersWrite` | src/proxy.rs:518-519 | pongs go out only between packets and add no binary frame |
| `Upload.SendPacket` | src/proxy.rs:499-535 | one packet becomes one binary frame |
| `Upload.UploadPackets` | src/proxy.rs:476-537 | the binary frames are the packets of the client's plaintext in order, each re-encrypted where the one before it stopped, on a wire that decodes to final masked frames |
| `Upload.PacketsPartition` | src/framing.rs:16-46 | the packets found are the front of the plaintext and nothing between them is lost |
| `Upload.PacketsOfClient` | src/framing.rs:16-46 | a client that sends packets has exactly those found |
| `Upload.ConcatEncryptEach` | src/proxy.rs:499-535 | deciphered one after another the payloads are the packets |
| `Upload.UploadStream` | src/proxy.rs:488-500 | without packet boundaries, the payloads put together are the client's stream re-encrypted |
| `Pumps.CopyCrypto` | src/proxy.rs:594-625 | what is written is the front of the input re-encrypted, and on a clean end all of it |
| `Pumps.DownloadWs` | src/proxy.rs:540-567 | the client is sent the payload bytes of the origin's frames re-encrypted, all of them when the stream ends by itself |
| `Bytes.AesCtr.ApplyKeystream` | src/crypto.rs:113-139 | a cipher is a keystream and a position |
| `Bytes.CryptConcat` | src/crypto.rs:113-139 | enciphering piece by piece is enciphering at once |
| `Bytes.XorInvolutive` | src/websocket.rs:318-320 | exclusive-or with the same byte twice is nothing |
| `Handshake.ClientIsUnderstood` | src/crypto.rs:48-73 | a handshake sealed with the proxy's secret is read as it was meant |
| `Handshake.AcceptedIsSealed` | src/crypto.rs:48-73 | an accepted handshake was sealed with the secret for the data centre read from it |
| `Handshake.GenerateRelayHandshake` | src/crypto.rs:90-106 | the first draw whose opening is not reserved, with tag and data centre sealed into it, and still not reserved |
| `Handshake.NotMistaken` | src/crypto.rs:75-88 | an opening that is not reserved begins like no obfuscated protocol, HTTP request or TLS record |
| `Handshake.SealedOpens` | src/crypto.rs:90-106 | deciphering a sealed handshake uncovers tag and data centre and what follows from position 64 |
| `Handshake.CryptoContext.constructor` | src/crypto.rs:113-139 | the two directions already used stand at position 64, the two answers at zero under the reversed keys |
| `Serving.NormalizedSign` | src/proxy.rs:282-297 | which indices are served, exactly; the sign goes on to the data centre, the test offset does not |
| `Serving.Relay` | src/proxy.rs:200-201 | the relay handshake, then the client's stream re-encrypted |
| `Serving.ServeTcp` | src/proxy.rs:174-205 | end to end: on a clean end the data centre, deciphering from the first byte, sees the client's protocol, its normalised data centre and exactly the client's plaintext; on any other, once it has the handshake, the front of it; a client is turned away exactly if its greeting is not one the proxy serves |
| `Serving.ServeWs` | src/proxy.rs:227-247 | the relay handshake goes first, in a frame of its own; the payloads of the frames put together are then what the data centre deciphers: all packets of the client, or all it sent, on a clean end, the first of them on any other; when the handshake could not be written, only the front of its frame went out; a client is turned away exactly if its greeting is not one the proxy serves |
| `Serving.Pump` | src/proxy.rs:476-537 | either upload: the frames, deciphered one after another, are what passed of the client's plaintext |
| `Serving.AnswerTcp` | src/proxy.rs:570-592 | what the data centre writes under the reversed keys of the handshake it received, the client reads under its own reversed: the front of it at any time, all of it on a clean end |
| `Serving.AnswerWs` | src/proxy.rs:540-567 | the same for what the frames of the origin carry |
| `Serving.ServeH2` | src/proxy.rs:174-224 | the third route, end to end: no handshake goes up; the request bodies are the acceptable packets of the client's plaintext after its handshake, in order, all of them when the first unacceptable one ends the upload |
| `Serving.AnswerH2` | src/cf_h2.rs:2419-2470 | the client reads, under its own reversed stream, the frames of the replies one after another: the front of them at any time, all when none failed |
| `FakeTls.FakeTlsStream.PollDrainRecord` | src/fake_tls.rs:216-236 | when ready, the wire is exactly the records accepted; otherwise wire and unsent rest still make them up |
| `FakeTls.FakeTlsStream.PollWrite` | src/fake_tls.rs:240-260 | a pending write has taken nothing; a ready one has taken one chunk of at most 16384 bytes |
| `FakeTls.FakeTlsStream.PollFlush` | src/fake_tls.rs:262-266 | when ready nothing is left unsent |
| `FakeTls.FakeTlsStream.WritePolls` | src/fake_tls.rs:240-260 | after any polls the accepted chunks are the front of the data offered |
| `FakeTls.FakeTlsStream.ReadCcs` | src/fake_tls.rs:143-160 | a change-cipher-spec record adds nothing |
| `FakeTls.FakeTlsStream.ActOnHeader` | src/fake_tls.rs:192-208 | what a complete header announces |
| `FakeTls.FakeTlsStream.ReadHeaderPart` | src/fake_tls.rs:175-191 | a header may come in any pieces |
| `FakeTls.FakeTlsStream.ReadBody` | src/fake_tls.rs:161-173 | record bytes go straight to the caller |
| `FakeTls.FakeTlsStream.PollRead` | src/fake_tls.rs:130-213 | a poll hands out the front of the data ahead or gives way with all of it still ahead; an end or an error only when none is left |
| `FakeTls.FakeTlsStream.ReadPolls` | src/fake_tls.rs:130-213 | the same over any number of polls |
| `FakeTls.CarriesPayload` | src/fake_tls.rs:192-209 | records with empty and change-cipher-spec records among them carry the concatenated payload (sections 5.1 and 5.2 of RFC 8446) |
| `FakeTls.RecordsCarry` | src/fake_tls.rs:240-260 | whatever a writer accepted a reader finds |
| `FakeTls.CutShort` | src/fake_tls.rs:130-213 | a stream cut short carries the front of the data |
| `FakeTls.PeerReads` | src/fake_tls.rs:103-113 | at any moment the peer can read the front of what was accepted, and all of it once nothing is unsent |
| `ReplayCache.GenuineIsAccepted` | src/fake_tls.rs:31-64 | a greeting made with the secret is accepted exactly within 120 seconds of its timestamp |
| `ReplayCache.AcceptedIsGenuine` | src/fake_tls.rs:31-64 | every accepted record is such a greeting |
| `ReplayCache.Cache.Admit` | src/proxy.rs:337-345 | forget the old, refuse the known and the overfull, remember the new |
| `ReplayCache.Cache.Greet` | src/proxy.rs:335-346 | a record that does not authenticate leaves the memory alone |
| `ReplayCache.NeverOverCapacity` | src/proxy.rs:341-343 | the memory never exceeds 4096 |
| `ReplayCache.NeverTwice` | src/proxy.rs:335-346 | no record is accepted twice in a run where no thread takes more than 59 s from reading the wall clock to the locked section |
| `ReplayCache.AcceptedTwice` | src/proxy.rs:335-346 | with 59.001 s it can be |
| `ReplayCache.LagThreshold` | src/proxy.rs:335-346 | so the delay the memory can bear is exactly 59 s |
| `WarmPool.BackoffMonotone` | src/upstream.rs:803-805 | the backoff never shrinks and stays between a second and an hour |
| `WarmPool.BackoffDoubles` | src/upstream.rs:803-805 | it starts at one second and doubles until it is an hour |
| `WarmPool.RunsAreGood` | src/upstream.rs:578-699 | the invariants in every interleaving of checkouts, dials, cancellations and time, with a reading of the clock for every place that takes one |
| `WarmPool.NeverOverfull` | src/upstream.rs:622-699 | no bucket ever exceeds its capacity, a finished dial finds room, and every bucket the maintainer turns to exists |
| `WarmPool.NoRefillIsLost` | src/upstream.rs:603-699 | when the maintainer sleeps with no wake-up stored or owed over a bucket that misses a socket, and a refill was asked for there or none of its checkouts has still to ask or was dropped, the sleep ends in time for its next try if and only if the last look did not miss it or the sleep takes no time |
| `WarmPool.MissedNeedsStraddling` | src/upstream.rs:646-653 | only a look in which the next try falls between the two readings that decide misses a bucket |
| `WarmPool.StraddlingLookSleepsOn` | src/upstream.rs:646-653 | such a look happens: at 999 and 1000 around a try at 1000 the bucket is neither dialled nor noted, and the maintainer sleeps until 6000 with the flag still set |
| `WarmPool.DroppedCheckoutLosesRefill` | src/upstream.rs:595-599 | a checkout dropped while it asks for the health of its socket leaves an empty bucket for five seconds |
| `WarmPool.Pool.TakeIdle` | src/upstream.rs:583-592 | the newest waiting socket leaves the bucket, or there is none |
| `WarmPool.Pool.RequestRefill` | src/upstream.rs:603-618 | the flag is raised once, with one wake-up |
| `WarmPool.Pool.Prepare` | src/upstream.rs:631-660 | old sockets go, each judged by its own reading of the clock; the flag, the decision to dial and the next look follow from the two readings after them |
| `WarmPool.Pool.FinishDial` | src/upstream.rs:669-685 | a socket is added and failures forgotten, or the next try is put off |

## Left out

- The `h2` library, TLS, TCP and sockets: reduced to what a call may return (granted, refused, some bytes, nothing yet, failed).
- AES, SHA-256, HMAC and random generators: functions and inputs the theorems hold for; only the keystream's position and purity are used.
- Real time and the scheduler: clocks that never run backwards, steps that interleave freely, an abort that drops its guard at some later step.
- Wrap-around of request ids, generations and sequence numbers: unbounded naturals.
- Allocation failures (`try_reserve_exact`), HTTP status, header and content-length parsing in `post`: the modelled part begins with the response body.
- The runtime of the program has one thread (`src/main.rs:166`); the runs allow more, as the comments of `src/cf_h2.rs` ask for.
- `rotate_stale_replay` (`src/cf_h2.rs:1750-1765`): which replay it aborts (the oldest sent at least 30 s ago whose reply is not being received); the abort itself is a `DropGuard`, which may come at any time in `ChannelRuns`.
- Atomics: `closed` is set and read where the source does it, in `ChannelRuns` and `LaneClose`; its unlocked test at the head of `reserve` only refuses earlier and has no step of its own.
- Generations: the counter of connection generations is never wrapped, and a driver is named by its generation.
- Admission.ReserveCannotDeadlock: says who can move, not that a particular waiter is served; `acquire` gives up after 65 s, which is the step `Refuse`.
- Replies: a reply's parts are lengths there; what the parts hold is in `Post`.
- Post.ReplyLane.ReceiveBody: the frames are given beforehand, so the flow-control credit returned to the peer is not seen.
- LanePool.RunsAreGood: host cool-down is an unconstrained `available` flag.
- LaneClose: modelled on values, as are `LanePool`, `Admission`, `BudgetWaiters`, `Replies`, `HistoryBudget` and `PendingRequests`: what their maps hold is captured, that they are changed in place is not.
- LaneClose.QuiescentStays: that no launch is under way on a lane the pool reaps is not part of that module: an evicted lane has no channels (`LanePool.EvictedIsIdle`), and the close of the pool takes the lanes it drains off the list (`src/cf_h2.rs:2132`).
- LaneClose: no channel is opened on a lane that is being closed; that the pool gives out open lanes only is `LanePool.NeverMoreThanEight`.
- WsReader.Reader.NextChunk: the writer's state is what its lock's last holder left; packets and pongs of the other side happen when the lock is taken.
- Upload.UploadPackets: a write that fails ends the connection, so nothing is said of frames after it.
- Upload.UploadStream: requires a buffer no larger than a frame may be; `src/config.rs:178-180` allows 4096 to 262144.
- Handshake.GenerateRelayHandshake: terminates because some draw is assumed not to be reserved.
- Serving.ServeH2: each body is handed over as it is read; what becomes of it in the channel is the multiplexer, and who sends the replies of `AnswerH2` is not related to who was sent the bodies.
- Serving.AnswerTcp: the two directions of a connection run side by side in the source; each is proved by itself, on ciphers the other does not touch, and the idle timer that ends both is not modelled.
- MakeRoom.FreeOne: the search reads each channel under its own lock, which the given states stand for; a channel dropped between search and retirement is one whose state no longer has the request.
- HistoryBudget.RunsStayWithin: a channel that is dropped gives its entries back one by one; what becomes of its pending tasks is `LaneClose`.
- FakeTls: `build_server_hello` and the shutdown of the transport; a poll that is cancelled is a poll that is not followed by another.
- ReplayCache: the record length check before authentication, and what the masking relay does with a refused greeting.
- WarmPool.NoRefillIsLost: a timer that fires late only adds to the sleep; the sleep begins at a reading of its own, after the one its length was computed from.
- `TcpAttempt`, route ordering, domain fetch, DNS and lookup tables of `src/upstream.rs`; PROXY v1 parsing, masking and logging of `src/proxy.rs`.
- `src/update.rs`, `src/web.rs`, `src/config.rs`, `src/stats.rs`, `src/main.rs`, `scripts/`, `etc/`, `webui/`.
