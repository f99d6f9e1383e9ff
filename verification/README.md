# A Dafny model of the Mediavida backend and watch cores

This project models four parts of the repository whose behaviour is hard to see from any one function, and proves what
they promise. `dafny verify dfyconfig.toml` checks everything.

**The watch message protocol** (`watch/shared/message-side.js`, its device twin `message.js`, and `event.js`).
`WireFormat` gives the two little-endian headers as byte strings with their inverses; `Buffers` writes and reads them at
a moving offset, as the code does. `Sender` is the send loop with its one scratch buffer. `Receiver` holds the classes
`Session` and `MessageBuilder`; `Delivery` proves what they make of any number of messages at once, with nothing lost and
with frames lost, repeated and reordered; `Mixing` does so for messages that share a (traceId, type), and `Dispatch` says which
listeners a message reaches and which request its response resolves. `Events` is the event bus, whose `emit` walks a list its own listeners splice,
and the request table built on it.

**The promise engine** (`watch/shared/es6-promise.js` with the synchronous scheduler of `watch/shared/device-polyfill.js`).
`Promises` is the engine as a small-step machine with its invariant; user code is the environment and may do anything the
interface allows whenever it has control. `PromiseRuns` states sections 2.1, 2.2.2, 2.2.3 and 2.2.6 of Promises/A+ over
every run, `PromiseCalls` which callbacks are called and with what, `PromiseChildren` what becomes of the promises that
`then` returned (section 2.2.7), `PromiseAll` does the same for `Promise.all`, and `PromiseObjects` is the engine as the code has it, objects
and arrays changed in place, proved to take exactly the machine's steps.

**The bubbles poller** (`bubbles.go`). `Poller` is the machine of atomic steps: each lock region and each channel
operation of the ticker, the 16 poll workers, the 8 push workers and `Stop` is one step, in any interleaving, and what a
job learns from outside (is anyone listening, what did the fetch bring) is one step with the lock region that notes it; it
also holds the inflight theorem. `PollerTicks` is about what one tick does for each client; `PollerStop` is about shutdown, `PollerReturn` about when `Stop` returns, `PollerPanic` about
the send on the closed poll channel (both over the continuations of a run, `PollerFollow`), `PollerChain` and `PollerPushes` about the chain of push
jobs, `PollerBreaker` about the circuit breaker over whole runs. `PollerCore` is the per-client state as the code keeps it, with the
breaker and the favourites tracking over any number of jobs.

**Stateful Go cores.** `RateLimiter` (`ratelimit.go`), `Sessions` (`session.go`, `alias.go`, `auth.go`), `TtlCache`
(`cache.go`), `Fcm` (`fcm.go`) and `SessionSave` (`scraper.go`).

A method that changes state is proved against a function of the old state; what the source promises is then proved about
those functions, over all inputs and all runs. `Common` holds what several modules share.

## What turned out not to hold

Each of these is kept as the code has it, with a concrete input at which the promise fails and the exact condition under
which it holds.

- `emit` reaches every listener exactly when none but the last takes itself off while it runs
  (`Events.EmitReachesAllIff`; `Events.EmitSkipsExample` shows two listeners). Matching responses to requests is not
  affected (`Events.ResolvedOnce`).
- A message can be emitted again when its frames are repeated: over all orders in which a bag of frames may arrive, it is
  emitted at most once exactly when some frame of it arrives at most once (`Delivery.EmittedOnceIff`). A message
  delivered n times over is emitted n times (`Delivery.RepeatedMessage`), one of a single frame once per delivery
  (`Delivery.SingleFrameDuplicated`; `Delivery.OneByteTwice`).
- Sessions are told apart by (traceId, type) only, and a traceId comes back: a request emitted twice gets two responses
  under its own, and the counter starts again at 10000 with the module (watch/shared/message-side.js:82). Chunks of
  messages that share one can be emitted as one message that nobody sent (`Mixing.MixedExample`). Whatever is emitted is
  made of chunks of such messages (`Mixing.AlwaysMixed`), an emission is whole exactly when its chunks agree with those of
  one message (`Mixing.WholeIff`), and only whole messages are ever emitted exactly when no chunk that one message can lend
  to another makes anything new of it (`Mixing.NeverMixesIff`).
- The advertised Retry-After is rounded down. In every run of requests, whoever waits that long is allowed exactly when
  the rate and the burst are at least 1 (`RateLimiter.AlwaysSufficesIff`; `RateLimiter.TooShortRun` shows a rate of 0.4).
- A push worker reads `bp.pushCh` when it starts. After `Stop` has taken the channel away it can still return exactly
  when every push worker had started by then (`PollerReturn.StopReturnsIff`; `PollerReturn.HangWitness` is a run that
  hangs).
- `Stop` may close the poll channel while `check` is under way. Some continuation then sends on it and panics exactly when
  `check` has read the channel and not yet taken its snapshot of the sessions, holds a slot, or has entries of the
  snapshot left (`PollerPanic.PanicsIff`; `PollerStop.PollPanicWitness` and `PollerPanic.UnderWayWithoutPanic` show one
  run of each kind).
- Reconciliation drops a duplicate session even when writing its alias failed. `Sessions.FoldedTokenResolves` says exactly
  when a folded token resolves, `Sessions.LostAlias` when it is turned away (`Sessions.LostAliasExample`).
- A token that is an alias of a folded token may stop resolving. `Sessions.OtherTokensUnchanged` says exactly which tokens
  notice (`Sessions.AliasChainExample`).
- Identical favourites pages can report again when one thread has several rows
  (`PollerCore.RepeatReportsNothingIff` says exactly when; `PollerCore.RepeatExample` shows a page).
- The nanoseconds of a Retry-After header from FCM may wrap around. `Fcm.RetryAfterIs` says exactly when the header is
  honoured (`Fcm.OverflowingHeader` shows one that is not); the 10 s bound holds all the same.

## Model

| member | source | states |
|---|---|---|
| WireFormat.DecodeEncode | watch/shared/message-side.js:650-832 | every frame, whatever its header values and payload, is read back byte for byte from what was written for it |
| WireFormat.EncodeDecode | watch/shared/message-side.js:741-832 | reading throws exactly on buffers shorter than the 66-byte header, and otherwise loses nothing: writing what was read gives the same bytes |
| WireFormat.DecodeEncodeBin | watch/shared/message-side.js:296-329 | the 16-byte outer header round-trips; it is refused exactly when the payload exceeds the chunk size; no accepted frame exceeds the message size |
| WireFormat.LayoutIs | watch/shared/message-side.js:650-739 | each header field of a frame is at its own byte offset, low byte first, and the payload follows the 66 bytes |
| WireFormat.OuterLayoutIs | watch/shared/message-side.js:296-329 | the same for the 16-byte outer header |
| Buffers.BuildPayload | watch/shared/message-side.js:650-739 | the writes at the moving offset produce the encoding of the frame, gaps and overlaps excluded |
| Buffers.ReadPayload | watch/shared/message-side.js:741-832 | the reads at the moving offset produce the decoding, or a range error exactly on a short buffer |
| Buffers.BuildBin | watch/shared/message-side.js:296-329 | the outer header as written in place is its encoding, or the refusal of an oversized payload |
| Buffers.ReadBin | watch/shared/message-side.js:372-409 | the outer header as read in place is its decoding |
| Sender.CountBounds | watch/shared/message-side.js:467 | the number of frames: none exactly for empty data, else enough for all bytes and no more |
| Sender.FrameFields | watch/shared/message-side.js:473-521 | frame i carries bytes 3518 * i onwards, 3518 of them or what is left, number i + 1, the total length, the ids and types of the message, and is marked finished exactly when no byte is left |
| Sender.NextChunk | watch/shared/message-side.js:474-521 | although full chunks share one scratch buffer and the tail has its own, chunk i holds exactly its own slice with its sequence number and op code |
| Sender.SendHmProtocol | watch/shared/message-side.js:456-528 | the loop sends exactly the frames of the message, in order, and ends with every byte sent |
| Sender.WireAt | watch/shared/message-side.js:618-638 | no frame is refused by the outer header; on either link, what is sent for frame i is read by the peer as frame i |
| Sender.ConcatAll | watch/shared/message-side.js:456-528 | the payloads of all frames, in order, are the data: nothing lost, nothing twice |
| Sender.FragmentRoundTrip | watch/shared/message.js:840-860 | what the device wraps is handed to the message handler exactly when it is addressed to the port in use |
| Sender.FragmentIs | watch/shared/message.js:840-860 | a Shake gives the port, data (types 4 and 5) and log lines (6) are taken only on the port in use, anything else is ignored |
| Sender.OuterIs | watch/shared/message.js:418-430 | what the device puts in front of a payload |
| Receiver.Find | watch/shared/message-side.js:127 | the first chunk with that sequence number if there is one, else none |
| Receiver.Session.AddChunk | watch/shared/message-side.js:107-121 | the outcome and the whole session state afterwards, also after 'data' and 'error', are those of the value-level session |
| Receiver.Session.CheckIfReceiveAllChunks | watch/shared/message-side.js:123-151 | all chunks there: the finish chunk carries their concatenation and is emitted; one missing: an error and a released session; a wrong length: an error; count not reached: nothing |
| Receiver.Session.Reassemble | watch/shared/message-side.js:126-137 | the loop fills tempBuf with the concatenation of chunks 1 .. count, or releases the session at the first one missing |
| Receiver.Session.ReleaseBuf | watch/shared/message-side.js:156-161 | a released session is as good as new |
| Receiver.GatherMonotone | watch/shared/message-side.js:126-133 | once a chunk is missing the loop cannot succeed by going on, so stopping at the first gap loses nothing |
| Receiver.SettledStep | watch/shared/message-side.js:107-151 | a live session never waits with its count reached and no finish chunk, so tempBuf is empty between frames |
| Receiver.MessageBuilder.OnMessage | watch/shared/message-side.js:858-898 | one arrival opens or finds the session of its key, emits its events in order, destroys the session on 'data' or 'error', and on a short buffer throws with nothing changed (Dispatch says which events those are) |
| Receiver.MessageBuilder.Receive | watch/shared/message-side.js:858-898 | the same for a frame already read; sessions of other keys are untouched |
| Receiver.MessageBuilder.Open | watch/shared/message-side.js:173-200 | the session of the key, created fresh only if there was none |
| Receiver.MessageBuilder.Destroy | watch/shared/message-side.js:179-182 | that session is gone and no other is |
| Delivery.FramesDistinct | watch/shared/message-side.js:473-521 | no two frames of one message are equal, whatever its bytes |
| Delivery.GatherSound | watch/shared/message-side.js:126-137 | from any chunks of one message, the concatenation up to n exists exactly when chunks 1..n are all there, and is then that prefix of the data |
| Delivery.Pigeonhole | watch/shared/message-side.js:123-124 | as many chunks as frames hold every frame exactly when they are a rearrangement of the frames |
| Delivery.AddedExactly | watch/shared/message-side.js:107-151 | the exact outcome of one more frame in any session of a message: the whole message exactly when each frame is there once, an error exactly when the count is reached with a repetition and the last frame, else waiting |
| Delivery.StallIsPermanent | watch/shared/message-side.js:123-124 | a session overfull with repetitions never ends, whatever still arrives |
| Delivery.NeverWrong | watch/shared/message-side.js:107-151 | under any loss, repetition and reordering of the frames of any messages of which no two share a (traceId, type), every emitted event carries one of the messages whole |
| Delivery.EmissionsBounded | watch/shared/message-side.js:858-898 | a message is emitted at most as often as each single one of its frames was delivered |
| Delivery.RepeatedMessage | watch/shared/message-side.js:858-898 | any message, all of whose frames arrive n times over, is emitted n times, with no error and no session left |
| Delivery.SingleFrameDuplicated | watch/shared/message-side.js:858-898 | n deliveries of the frame of a one-frame message give n emissions |
| Delivery.EmittedOnceIff | watch/shared/message-side.js:858-898 | over all orders of a bag of delivered frames, a message is emitted at most once exactly when some frame of it arrives at most once |
| Delivery.OneByteTwice | watch/shared/message-side.js:858-898 | a one-byte message, delivered twice, comes out twice |
| Delivery.Locality | watch/shared/message-side.js:164-205 | sessions do not interfere: what one (traceId, type) sees is the run over its own frames alone |
| Delivery.MineOfAll | watch/shared/message-side.js:164-205 | among the frames of all messages, those of one key are the frames of its message |
| Delivery.Rearranged | watch/shared/message-side.js:107-151 | any rearrangement of the frames of one message yields nothing until the last arrival, then the whole message, then no session |
| Delivery.DeliveredExactlyOnce | watch/shared/message-side.js:858-898 | if the frames of any messages of which no two share a (traceId, type) arrive once each, in any order and interleaving, each message is emitted exactly once with its own bytes, no error is, and no session is left |
| Delivery.SentAreEncoded | watch/shared/message-side.js:456-528 | what the side service puts on the link are the encodings of those frames |
| Delivery.WireDelivered | watch/shared/message-side.js:456-898 | the same end to end, on the byte strings the send loop of the side service produces |
| Delivery.SentAreWrapped | watch/shared/message.js:462-534 | what the device puts on the link are those encodings in the outer header |
| Delivery.DeviceDelivered | watch/shared/message.js:462-904 | the same end to end on a link that ends in onFragmentData: the byte strings of the device's send loop, in any order and interleaving, unwrapped there, come out as exactly its messages |
| Delivery.ReceiveAll | watch/shared/message-side.js:858-898 | a new MessageBuilder fed with any readable byte strings ends with the sessions and emissions of the value-level run |
| Dispatch.TypesAlwaysFit | watch/shared/message-side.js:864-886 | whatever frames arrive, 'request' is emitted only for payload type 1, 'response' for 2, 'call' for 3 |
| Dispatch.DispatchedOnce | watch/shared/message-side.js:864-886 | of messages with distinct keys, each one is emitted exactly once as data and exactly once as request, response or call if its type is 1, 2 or 3, with its bytes, ids and content types, and as nothing else |
| Dispatch.FirstAnnouncement | watch/shared/message-side.js:107-151 | the first thing emitted for a message: the message once all its frames are there once each, 'error' once as many have come with the last one and a repetition among them, nothing before; no session is left |
| Dispatch.BrokenLength | watch/shared/message-side.js:113-118 | a frame whose length field does not fit emits 'error' and ends its session |
| Dispatch.ResponsesAreMessages | watch/shared/message-side.js:881 | every response emitted is one of the messages, of type 2 |
| Dispatch.ResponseResolvesRequest | watch/shared/message-side.js:866-951 | from the frames to the promise: a message of type 2 resolves the request with its traceId with its own bytes, once, if that was issued before and did not time out |
| Mixing.AlwaysMixed | watch/shared/message-side.js:107-151 | under any loss, repetition and reordering, for messages that may share a (traceId, type): every emission carries the last frame of one message, and each chunk of its payload is the chunk of that number of some message of that key |
| Mixing.WholeIff | watch/shared/message-side.js:107-151 | such an emission is the whole message exactly when each of its chunks agrees with that message's own |
| Mixing.LentIsEmitted | watch/shared/message-side.js:858-898 | whatever chunk one message can lend to another of its key, some order of their frames makes the receiver emit the other with that chunk in it, and nothing else |
| Mixing.NeverMixesIff | watch/shared/message-side.js:858-898 | for any messages, only whole ones are emitted under all loss, repetition and reordering exactly when each message with a chunk lent to it by another is one of the messages again |
| Mixing.DistinctKeysAreClosed | watch/shared/message-side.js:164-205 | messages with distinct keys meet that condition |
| Mixing.MixedExample | watch/shared/message-side.js:107-151 | two messages of 3519 bytes with one key, the first frame of the one and the last of the other: what is emitted is neither |
| Events.EventBus.On | watch/shared/event.js:6-12 | the listener goes to the end of its own event's list; other events keep theirs |
| Events.EventBus.Off | watch/shared/event.js:14-23 | the first equal listener is spliced out in place, an absent one changes nothing; other events keep theirs |
| Events.EventBus.OffType | watch/shared/event.js:25-27 | off without a callback forgets that event's list only |
| Events.EventBus.Clear | watch/shared/event.js:28-30 | off without an event forgets all |
| Events.EventBus.Emit | watch/shared/event.js:33-37 | walking the live array while listeners splice themselves out calls exactly the listeners Visited names |
| Events.VisitedSkips | watch/shared/event.js:33-37 | seen on the list as it was, each listener that removes itself hides the one behind it, the same callback registered several times included |
| Events.EmitReachesAllIff | watch/shared/event.js:14-37 | for any list, everyone is reached exactly when none but the last removes itself |
| Events.EmitSkipsExample | watch/shared/event.js:33-37 | two listeners of which the second is not called |
| Events.RequestTable.Request | watch/shared/message-side.js:906-951 | a request gets an id never used before and one listener of its own |
| Events.RequestTable.Timeout | watch/shared/message-side.js:980-994 | a timeout removes that request's listener and no other |
| Events.RequestTable.EmitResponse | watch/shared/message-side.js:922-948 | one response settles exactly the outstanding request with its id and removes only that listener, although the list is spliced under emit and follow-up requests are pushed onto it |
| Events.ApplyStep | watch/shared/message-side.js:906-994 | after any operation, outstanding are the old ones it does not end plus the newly issued ones |
| Events.OutstandingIff | watch/shared/message-side.js:906-994 | in any run a request is outstanding exactly when it was issued and neither its response nor its timeout came since |
| Events.ResolvedOnce | watch/shared/message-side.js:922-951 | in any run each response to an outstanding request resolves that request with its payload, nothing else resolves anything, and no request is resolved twice |
| Promises.NextInv | watch/shared/es6-promise.js:39-431 | every move of the engine or of its users keeps every account: each registered subscription has run, is due in the queue, or waits on a pending promise, in order |
| Promises.SettleInv | watch/shared/es6-promise.js:333-354 | settling moves all subscriptions of a promise into one publish job, keeping their order |
| Promises.ThenInv | watch/shared/es6-promise.js:159-181 | then registers once, behind everything already registered, whether the promise is pending or settled |
| Promises.ResolveInv | watch/shared/es6-promise.js:280-323 | resolving with a value, with itself, or with another promise keeps every account |
| Promises.ReturnInv | watch/shared/es6-promise.js:398-431 | a callback coming back by return or throw keeps every account |
| PromiseRuns.MoveKeeps | watch/shared/es6-promise.js:39-431 | one move either registers one callback by then or registers none, and in both cases changes no settled promise |
| PromiseRuns.SettledForever | watch/shared/es6-promise.js:333-354 | Promises/A+ 2.1: in every run a settled promise keeps its state and its value for ever |
| PromiseRuns.RunsInOrder | watch/shared/es6-promise.js:159-181 | Promises/A+ 2.2.2, 2.2.3, 2.2.6: the subscriptions of a promise are served only after settlement, with its state and value, in the order of registration (PromiseCalls.CallsMade says which callbacks that calls) |
| PromiseRuns.RunAtMostOnce | watch/shared/es6-promise.js:372-396 | no call of then has its callback run twice, on this or any promise |
| PromiseRuns.NothingLeftBehind | watch/shared/es6-promise.js:121-133 | when control is back with the caller, the queue is empty, every job ever queued has run, and every subscription of every settled promise has been served exactly once |
| PromiseRuns.FirstInFirstOut | watch/shared/es6-promise.js:39-53 | at any moment the finished jobs are an initial part of the queued ones, those queued during the flush included |
| PromiseRuns.FlushNeverNests | watch/shared/es6-promise.js:43-50 | with the synchronous scheduler a job queued while jobs run never starts a second flush |
| PromiseRuns.FulfilledWithPlainValue | watch/shared/es6-promise.js:280-323 | a fulfilled promise never holds a promise of its own kind: such a value was adopted |
| PromiseCalls.CallsMade | watch/shared/es6-promise.js:159-181 | 2.2.2, 2.2.3, 2.2.6: at any moment the calls made for a promise are, in order, onFulfilled of each served subscription that has one if it is fulfilled, onRejected if it is rejected, with its value; none while it is pending, all of them at idle |
| PromiseCalls.MoveHandles | watch/shared/es6-promise.js:372-431 | a move calls a callback only for the subscription it comes to, and only the one owed to it |
| PromiseChildren.FateIsPassedOn | watch/shared/es6-promise.js:398-431 | 2.2.7.3 and 2.2.7.4: at idle, a promise returned by then on a settled one without the callback for its fate has the same state and value |
| PromiseChildren.CallbackResult | watch/shared/es6-promise.js:398-431 | 2.2.7.1 and 2.2.7.2: from the return of a callback on, the promise then returned is rejected with what it threw, fulfilled with the plain value it returned, rejected if it returned that very promise, and else settled only as the returned promise is, and so settled at idle once that is |
| PromiseChildren.ResolverResult | watch/shared/es6-promise.js:280-354 | what resolve and reject do to a pending promise, for every value and at every later moment |
| PromiseAll.NextAInv | watch/shared/es6-promise.js:461-565 | every move keeps every enumerator in step with the promises it waits for |
| PromiseAll.AllAtAnyMoment | watch/shared/es6-promise.js:535-552 | a fulfilled Promise.all holds the value of every entry in input order; a rejected one the reason of one of its entries; while pending, _remaining counts the indices without a result and is not 0 |
| PromiseAll.AllWhenIdle | watch/shared/es6-promise.js:461-565 | whenever control is back with the caller, it is fulfilled exactly when all entries are, rejected exactly when some entry is |
| PromiseAll.FirstRejectionFinal | watch/shared/es6-promise.js:535-552 | the first rejection stays, with its reason, whatever the other entries do |
| PromiseObjects.PromiseLibrary.AsapJob | watch/shared/es6-promise.js:39-53 | the job goes to the end of the queue; flush is started exactly when the queue was empty |
| PromiseObjects.PromiseLibrary.FulfillPromise | watch/shared/es6-promise.js:333-344 | in place, the machine's fulfil: nothing on a settled promise, else state, value and at most one publish job |
| PromiseObjects.PromiseLibrary.RejectPromise | watch/shared/es6-promise.js:346-354 | in place, the machine's reject |
| PromiseObjects.PromiseLibrary.SubscribePromise | watch/shared/es6-promise.js:356-370 | in place, the machine's subscribe |
| PromiseObjects.PromiseLibrary.ResolvePromise | watch/shared/es6-promise.js:280-323 | in place, the machine's resolve, adoption of another promise included |
| PromiseObjects.PromiseLibrary.ThenOn | watch/shared/es6-promise.js:159-181 | in place, the machine's then; the child is a new object |
| PromiseObjects.PromiseLibrary.CallbackDone | watch/shared/es6-promise.js:404-431 | in place, what the machine does when a callback has come back |
| PromiseObjects.PromiseLibrary.FlushStep | watch/shared/es6-promise.js:121-133 | one turn of the loop is one move of the machine, and names the callback to call, if any; the last one empties the queue |
| PromiseObjects.PromiseLibrary.PublishStep | watch/shared/es6-promise.js:372-396 | one turn of the loop is one move of the machine, and names the callback to call, if any; the last one empties the subscriber array |
| PromiseObjects.PromiseLibrary.RunSubscription | watch/shared/es6-promise.js:372-431 | it calls onFulfilled with the value of a fulfilled promise and onRejected with the reason of a rejected one, where they were given; otherwise it does in place what the machine does |
| PromiseObjects.PromiseLibrary.EntrySettled | watch/shared/es6-promise.js:535-552 | in place, the machine's report of one entry to its enumerator |
| PromiseObjects.PromiseLibrary.LookAtEntry | watch/shared/es6-promise.js:496-533 | in place, the machine's first look at one entry: settled, pending or plain |
| PromiseObjects.PromiseLibrary.Enumerate | watch/shared/es6-promise.js:490-494 | the loop looks at every entry, in order |
| PromiseObjects.PromiseLibrary.AllPromises | watch/shared/es6-promise.js:461-488 | the constructor is the machine's Promise.all, the empty array included |
| Poller.InflightExact | bubbles.go:302-351 | in every interleaving a client is in inflight exactly when its one job is being enqueued, queued or running, and no client ever has two |
| Poller.DrainedMeansEmpty | bubbles.go:302-351 | every claimed slot is released on the queue-full, discard and completion paths: with nothing enqueued, queued or running, inflight is empty |
| Poller.SlotsTick | bubbles.go:302-326 | claiming, enqueuing and giving back a slot in check keep one slot per client (PollerTicks says when each happens) |
| Poller.SlotsWork | bubbles.go:339-351 | taking, discarding and finishing a job keep one slot per client |
| PollerTicks.EachEntryHasItsFate | bubbles.go:288-318 | if the poll channel is not closed meanwhile, each entry of the snapshot, in order, was in flight at its turn, or was put into the queue, or found 4096 jobs in it |
| PollerTicks.FreeClientsGetOneJob | bubbles.go:288-318 | a client of the snapshot that is not in flight gets exactly one job per tick while there is room; nobody gets two, and nobody outside the snapshot gets one |
| PollerTicks.JobsAreFates | bubbles.go:302-318 | each client gets a job exactly when its entry was queued; a free one is never passed over as busy |
| PollerTicks.PollQueueInOrder | bubbles.go:288-351 | the jobs are taken by the workers in the order in which they were queued, each by one, none lost |
| PollerStop.StopIsClean | bubbles.go:162-223 | in every interleaving nothing is sent on the closed push channel, push jobs are taken in the order of acceptance, and when Stop returns every accepted job was taken and all workers have ended |
| PollerStop.PollPanicOnlyIfClosedUnderCheck | bubbles.go:178-181 | no run sends on the closed poll channel unless Stop closed it while check had read the channel and not yet taken its snapshot, held a slot or had entries left |
| PollerPanic.PanicsIff | bubbles.go:288-313 | when Stop closes the poll channel, some continuation sends on it and panics exactly when check has then read the channel (bubbles.go:295-297) and not yet taken its snapshot (302), holds a slot, or has entries of its snapshot left |
| PollerPanic.UnderWayWithoutPanic | bubbles.go:302-313 | a check under way at that moment that can only come to rest |
| PollerStop.PollPanicWitness | bubbles.go:162-181 | a run in which it does |
| PollerStop.NoWorkerStuck | bubbles.go:339-363 | once the poll channel is closed, every worker that has not ended has a step to take |
| PollerStop.WorkGoesDown | bubbles.go:339-351 | every step of a worker brings it nearer to its end |
| PollerStop.WorkersEnd | bubbles.go:178-181 | from the closing of the poll channel on, unless check may still send on it (the same three cases), the workers together make at most a fixed number of further steps, in any interleaving |
| PollerStop.HungForever | bubbles.go:200-207 | once a push worker ranges over a nil channel, Stop never returns |
| PollerStop.HangsIffLate | bubbles.go:186-207 | from the moment Stop takes the push channel away, the push workers that have not read it stay so or hang for ever, no other joins them, and while there is one Stop does not return |
| PollerStop.PushersEnd | bubbles.go:186-207 | once the poll workers have ended, the push workers together make at most a fixed number of further steps, in any interleaving |
| PollerReturn.StopReturnsIff | bubbles.go:186-207 | after Stop took the push channel away, some continuation lets it return exactly when every push worker had read the channel by then |
| PollerReturn.StopNeverStuck | bubbles.go:186-207 | in that case Stop or a push worker has a step in every later state until Stop has returned |
| PollerReturn.HangWitness | bubbles.go:162-207 | a run in which a push worker starts too late and no continuation lets Stop return |
| PollerChain.ChainedAlways | bubbles.go:437-488 | in every interleaving each client's remembered bubbles, gating and pushes agree with its history, whichever worker holds it and wherever that worker is |
| PollerPushes.PushesFormChains | bubbles.go:437-488 | from a baseline to the next gated tick or baseline, each push's prev is the current of the push before, and the counter deltas add up to last minus baseline; what was handed to enqueuePush is that, in order |
| PollerPushes.NoPushSpansAGap | bubbles.go:437-457 | a comparison is with the record right before it, which is no gated tick, and hangs on a baseline with no gap since |
| PollerPushes.AfterAGateComesABaseline | bubbles.go:440-448 | right after a gated tick nothing is compared, so nothing is pushed |
| PollerPushes.ChainTelescopes | bubbles.go:480-488 | the deltas of any chain of pushes add up to its last minus its first value |
| PollerPushes.BaselineOf | bubbles.go:437-448 | every comparison goes back, without a gap, to one baseline |
| PollerPushes.AcceptedAreSubmitted | bubbles.go:211-223 | the push queue takes the submitted jobs in order, leaving out just those that found no channel or no room |
| PollerPushes.DroppedOnlyWhenFull | bubbles.go:211-223 | a job handed to enqueuePush goes to the end of the push queue, unless there is no channel any more or it holds 4096 jobs; nothing else makes it longer |
| PollerPushes.DeliveredOnce | bubbles.go:200-207 | what is delivered was accepted, each job at most as often; when Stop returns, exactly as often |
| PollerPushes.EnrichDecides | bubbles.go:449-488 | a comparison leads to a push exactly when a counter changed or a favourite rose, and that push carries both bubbles and the number of risen threads |
| PollerPushes.OnlyNewsIsPushed | bubbles.go:449-488 | in every run, each job handed to enqueuePush tells of a changed counter or a risen favourite |
| PollerPushes.RecordedAlways | bubbles.go:449-488 | in every reachable state a worker that compares finds its comparison on record |
| PollerCore.AttemptsBounded | bubbles.go:384-390 | if no scrape succeeds, n jobs scrape at most 3 + n / 17 times, whatever the breaker was before |
| PollerCore.BoundIsMet | bubbles.go:541-555 | the bound is met after 18 jobs |
| PollerCore.FailThenSkip | bubbles.go:541-555 | failure number f is followed by exactly 2, 4, 8, 16, 16, ... skipped jobs and then an admitted one |
| PollerCore.AttemptsKeepComing | bubbles.go:384-390 | no more than 16 jobs in a row are skipped: with listeners, n jobs scrape at least n / 17 times |
| PollerCore.AfterSuccess | bubbles.go:557-564 | the job after a success is never skipped, and the next failure counts as the first |
| PollerBreaker.ScrapesBounded | bubbles.go:339-435 | the same bound in the running system: in every interleaving, over any stretch that begins between two jobs of a client and has no success of it |
| PollerCore.ReportedIff | bubbles.go:498-528 | over any scrapes, failed ones and the first one included: what is reported are exactly the kept rows whose thread the last good scrape did not have, or had with a lower count |
| PollerCore.TrackedIsLastGood | bubbles.go:498-503 | a failed scrape leaves the tracking as it was |
| PollerCore.RepeatReportsNothingIff | bubbles.go:511-526 | the same page again reports nothing exactly when no thread has an earlier row above its last one; always so for distinct threads |
| PollerCore.RepeatExample | bubbles.go:511-526 | a page that reports again |
| PollerCore.BubblesPoller.MarkInflight | bubbles.go:318-326 | true exactly when the slot was free; it is taken afterwards |
| PollerCore.BubblesPoller.ClearInflight | bubbles.go:329-333 | that slot is free, all others as before |
| PollerCore.BubblesPoller.RecordFailure | bubbles.go:541-555 | one more failure, and 2 to the failures, 16 at most, jobs to skip |
| PollerCore.BubblesPoller.RecordSuccess | bubbles.go:557-564 | a known breaker is reset, an unknown one is not created |
| PollerCore.BubblesPoller.EnrichFavorites | bubbles.go:498-528 | the loop reports the threads that rose and replaces the tracking; on a failed scrape it reports none and keeps the tracking |
| PollerCore.BubblesPoller.CheckOne | bubbles.go:379-491 | what one job does to breaker, gating, last bubbles and tracking, that other clients' breakers stay, and that it pushes exactly when a compared counter changed or a tracked thread rose |
| PollerCore.JobStepsAreCheckOne | bubbles.go:379-491 | the machine's job and CheckOne agree on breaker, gating, last bubbles and on whether they compare; and whatever the favourites bring, the machine then carries the very push CheckOne returns, or none |
| RateLimiter.Limiter.Allow | ratelimit.go:46-82 | one call refills by the elapsed time, takes a token if there is one, and changes no other bucket; the wait is that for one full token (AllowedIff says when that is) |
| RateLimiter.Limiter.Middleware | ratelimit.go:89-116 | the exempt paths touch nothing; a refusal carries the wait in whole seconds, at least 1 |
| RateLimiter.ClockIsLatest | ratelimit.go:63-71 | a bucket's refill time is the latest timestamp of its client so far: late-coming earlier timestamps are ignored |
| RateLimiter.WindowBound | ratelimit.go:46-82 | in every window of a client's requests, in whatever order their timestamps arrive, at most burst + rate * (latest - earliest refill time) are allowed |
| RateLimiter.AllowedIff | ratelimit.go:46-82 | for every limiter and run: a request is allowed exactly when, from each request of the client up to it on, at least one is left of burst + rate * (time since) after those allowed in between |
| RateLimiter.BurstAfterRest | ratelimit.go:46-82 | a client that is new, or has rested as long as the burst takes to come back, gets its whole burst |
| RateLimiter.LatestIs | ratelimit.go:62-66 | that refill time is the greatest time stamp of the client |
| RateLimiter.SufficesIff | ratelimit.go:77-108 | the advertised wait is enough exactly when the missing credit takes at most a second, or a whole number of seconds, to come back |
| RateLimiter.AlwaysSufficesIff | ratelimit.go:46-108 | over all runs: no refused request that waits Retry-After seconds is refused again exactly when rate and burst are at least 1; any other limiter has a run in which one is |
| RateLimiter.RetryIsAllowed | ratelimit.go:46-108 | with rate and burst of at least 1, a refused request that waits Retry-After seconds is allowed, in any run |
| RateLimiter.TooShortRun | ratelimit.go:77-108 | a run at rate 0.4 in which waiting as told is not enough |
| Sessions.SessionStore.CanonicalForUser | session.go:303-326 | the walk over the map, in any order, ends at the best matching session |
| Sessions.BestIsUnique | session.go:303-326 | there is only one best, so the answer is the same for every iteration order |
| Sessions.BestMeans | session.go:303-326 | it is the least API token with an authenticated session of that user, or the least such token when no API token has one; none exactly when nobody has |
| Sessions.SessionStore.CanonicalByUser | session.go:342-357 | per account, the least API token with a session for it, in any iteration order, and an entry for every account that has one |
| Sessions.SessionStore.ReconcileAccountSessions | session.go:338-382 | exactly the durable non-API sessions of accounts with a live API session are folded; the result counts them; nothing happens when the table cannot be listed |
| Sessions.OneSessionPerAccount | session.go:338-385 | the table of sessions being readable, a token loses its live session exactly when an API token serves its account, and its record unless the delete fails; its alias names the least such token unless that write fails; nothing else changes |
| Sessions.SessionStore.DropSession | session.go:288-297 | gone from memory always, from the store unless the delete fails; no other session changes |
| Sessions.SessionStore.Lookup | session.go:63-83 | found in memory or brought back from its record; unavailable exactly when it is not in memory and the store cannot be read |
| Sessions.SessionStore.Authorize | auth.go:146-192 | the middleware gives the answer of AnswerLaw; an API token restores nothing, any other at most the session looked up for it or for its owner, and whoever is let in has one |
| Sessions.AnswerLaw | auth.go:146-192 | under every failure of the store: an API token stands for itself; any other for itself with a session of its own, else for the owner it borrows from, an alias before a watch entry; retry when the store cannot say, else refused |
| Sessions.SecondRunFindsNothing | session.go:364-380 | with successful writes no duplicate is left in memory or store, and a second run finds none and changes nothing; it finds some exactly when a delete failed |
| Sessions.ReconciledDuplicates | session.go:364-380 | what is left to do afterwards are exactly the duplicates whose delete failed |
| Sessions.FoldedTokenResolves | auth.go:163-188 | whatever writes failed, a folded token resolves to the least API token of its account exactly when its record is gone or cannot be restored, and its alias was written or named that owner already |
| Sessions.OtherTokensUnchanged | auth.go:154-192 | a token that was not folded gets the answer it got before exactly when it is valid or has a session, its owner was not folded, or the fold of its owner does not show |
| Sessions.LostAlias | session.go:373-376 | a folded token is refused exactly when its alias could not be written, its record is gone too, and no older alias or watch entry leads to a session |
| Sessions.LostAliasExample | session.go:373-376 | a token that was served and is refused after a run in which its alias could not be written |
| Sessions.AliasChainBreaks | auth.go:172-188 | aliases are one level deep: the exact answer to an alias of a folded token that has no session of its own |
| Sessions.AliasChainExample | auth.go:172-188 | a watch paired with a folded device token: served before, refused after |
| TtlCache.Cache.Set | cache.go:54-58 | the entry is stored with its expiry; other keys keep theirs |
| TtlCache.Cache.Get | cache.go:33-51 | without concurrency: a hit is the stored value, unexpired at one of the two clock readings; a miss leaves no entry of the key |
| TtlCache.Cache.Recheck | cache.go:41-49 | under the write lock a refreshed entry is returned and kept, an expired one removed |
| TtlCache.GetsAreAtomic | cache.go:33-59 | in every interleaving under a clock that does not go back, each Get answers as the last unexpired Set of its key at one moment of the call; a hit was stored for that key and unexpired |
| TtlCache.FreshSetsStay | cache.go:33-59 | in every interleaving the last Set of a key stays until it expires, and nothing but the last Set is ever there |
| TtlCache.EvictsOnlyExpired | cache.go:41-49 | a Get removes only the entry of its own key, and only when that has expired |
| TtlCache.LogIsWhatWasSet | cache.go:33-58 | the Sets that the other results speak about are those called, each with its time to live, and each Get asks for the key it was called with |
| Fcm.BackoffCapIs | fcm.go:227-232 | for every attempt, in wrapping 64-bit arithmetic, the cap is min(500 ms * 2^attempt, 10 s) |
| Fcm.FcmBackoff | fcm.go:227-235 | the wait with jitter lies between 0 and that cap |
| Fcm.JitterIsFull | fcm.go:233-235 | every wait from 0 to the cap can be drawn |
| Fcm.AtoiReadsDecimals | fcm.go:243 | the header's number is read back from its decimal notation, signed or not, exactly when it fits 64 bits |
| Fcm.OtherCharacters | fcm.go:243-246 | a header with any other character is unreadable |
| Fcm.HeaderIsHonoured | fcm.go:239-252 | a header of up to 10 s is granted to the second, one up to 9223372036 s gets 10 s |
| Fcm.SleepHonours | fcm.go:168-179 | what FCM asks for is slept; without it the backoff is |
| Fcm.RetryAfterIs | fcm.go:239-252 | every header asks for at most 10 s, an unreadable or negative one for none; any other for min(header, 10 s) exactly when its nanoseconds fit 64 bits or wrap to 10 s and more |
| Fcm.OverflowingHeader | fcm.go:248 | the header "18446744074", which asks for centuries, is taken for 290448384 ns |
| Fcm.Sender.SendOne | fcm.go:146-179 | the loop stops at the first final reply and after 4 attempts at the latest, sleeps once between attempts as the reply asks, each time 10 s and in all 30 s at most, and prunes the token exactly when the last reply calls it stale |
| Fcm.Sender.SendAttempt | fcm.go:185-223 | done except on network errors, 429 and 5xx; the token goes exactly on 404 and 400 |
| Fcm.DedupTokens | fcm.go:380-394 | in place, the front of the array becomes the tokens without repetitions and the rest stays |
| Fcm.DedupedAre | fcm.go:378-394 | what is kept are the first occurrences, in their order |
| Fcm.DedupKeepsTheSet | fcm.go:378-394 | no token is kept twice, none is lost, none is new |
| SessionSave.SameFingerprintIff | scraper.go:380-404 | two cookie lists have the same fingerprint exactly when they hold the same auth cookies, whatever their order and their other cookies |
| SessionSave.AuthIs | scraper.go:396-404 | the auth cookies are the ones with the five names, or with "sess" or "remember" in the name, whatever its case |
| SessionSave.JoinInjective | scraper.go:390-391 | joining the pairs with NUL loses nothing |
| SessionSave.SortedIsUnique | scraper.go:390 | sorting makes the order irrelevant: sorted lists with the same elements are equal |
| SessionSave.ForumScraper.AuthCookieFingerprint | scraper.go:380-393 | the loop over the cookies computes that fingerprint |
| SessionSave.ForumScraper.SaveSession | scraper.go:412-464 | the row and the remembered fingerprint change together, only when the fingerprint is new and the write succeeds |
| SessionSave.ForumScraper.ClearSession | scraper.go:575-588 | fingerprint and jar are emptied, the row goes unless the delete fails |
| SessionSave.RowMatches | scraper.go:412-464 | after any run, a remembered fingerprint means the row holds the cookies of the last save that wrote, and is theirs |
| SessionSave.SaveKeepsRowCurrent | scraper.go:412-464 | a save leaves the row with exactly the jar's auth cookies unless its write failed, and writes exactly when they differ from the last written ones |
| SessionSave.RetriedNotRepeated | scraper.go:421-464 | a failed write is made up for by the next save, a successful one is not repeated |
| SessionSave.ClearedStaysGone | scraper.go:575-588 | a cleared session is gone from jar and store until the next save that writes, and that save is not skipped |
| SessionSave.ClearFails | scraper.go:575-588 | a failed delete keeps the row, but it is not taken for current |

## Left out

- HTTP, TLS, HTML scraping, templates, route handlers, DTOs, notification texts, the Flutter, Swift, Kotlin and watchface code: input, output and formatting; scrape results and replies are inputs here.
- SQLite is a map per table; a write or read may fail where the model says so, and is otherwise immediate.
- Header fields of the message protocol are taken within their widths; a RangeError when writing a larger number is not modelled.
- Events.EventBus.Emit: the listeners it walks may take themselves off, but do not change the list otherwise; pushing during the walk is modelled for responses (Events.RequestTable.EmitResponse).
- Chunks are values: that finishChunk is also an element of chunks, and is overwritten in place just before the session is destroyed, is not captured.
- Listeners of the message builder do not call onMessage again from within; the 'error' listener of request is left out, its handler shadows its own name (watch/shared/message-side.js:917).
- The conversion of a response's bytes to text or JSON in request is taken not to fail.
- message.js differs from message-side.js in logging and in importing the platform's EventBus; the model is the visible one in event.js.
- Delivery.NeverWrong: frames are lost, repeated and reordered, but not altered, since the protocol carries no checksum. No two of the messages share a (traceId, type) and none is empty; without the first it fails, and module Mixing says exactly when.
- Delivery.DeliveredExactlyOnce: the same hypothesis on the messages (predicate Family), as in Delivery.WireDelivered, DeviceDelivered, EmittedOnceIff, EmissionsBounded and MineOfAll.
- Delivery.DeviceDelivered: stated for a link that ends in onFragmentData, which the code calls from ble.createConnect only (watch/shared/message.js:269-272). Frames from the device reach the side service through listen (watch/shared/message-side.js:281-293), from which the platform has already taken the outer header; Delivery.WireDelivered is the statement there.
- Mixing.NeverMixesIff: the messages are not empty; frames are not altered.
- Promises/A+ 2.2.4 is not claimed, the scheduler of the watch being synchronous; nor is that a promise's own resolve function locks after its first call.
- Foreign thenables, _onerror and Promise.race are not modelled; the recursion of the JavaScript stack within flush is unrolled into steps, with user code as the environment.
- PromiseObjects.PromiseLibrary.AllPromises: a flush that a rejection starts while the entries are still being looked at is taken right after the loop; nothing is subscribed to the promise by then.
- The pacing of the poll workers is a step that may happen at any time, so every real schedule is included; wall-clock time and fairness are not modelled.
- Start during Stop, and a second Start, are not modelled. poll re-reads stopCh, which Stop sets to nil, so that goroutine may outlive Stop; its ticks then find no poll channel and do nothing.
- PollerPushes.PushesFormChains: speaks about the jobs handed to enqueuePush; a job dropped there because the queue is full is missing from what is delivered (AcceptedAreSubmitted).
- PollerTicks.FreeClientsGetOneJob: that a tick comes, and that check goes on, is not part of it; the snapshot itself (which sessions are authenticated) is an input.
- PollerStop.WorkersEnd: counts steps; that a fetch comes back at all is not part of it.
- Moderator tracking, daily summaries, SSE notification and the periodic save and refresh in checkOne.
- threadKey and parseUnread are inputs of the favourites rows (activity.go:107-149).
- Client ids and tokens are numbers, only compared for equality and order; user names are compared with ASCII case folding, where ToLower and EqualFold agree.
- A session brought back from the store is taken to serve the user named in its record.
- RateLimiter.WindowBound: credit is a real number; floating-point rounding and waits beyond the range of a Duration are not modelled. A negative burst or rate counts as 0.
- App login, watch pairing and the browser flow of auth.go, and RestoreAll in session.go.
- Sessions.FoldedTokenResolves: the store can be read when the token is used; a store that cannot be read gives a retry.
- SessionSave.RowMatches: the saves of one scraper are taken one at a time, and no record was loaded; SHA-256 is taken as injective, cookie names without '=' and cookies without NUL.
- Expiry dates and flags of saved cookies: the jar gives back only name and value.
