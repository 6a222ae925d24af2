# A verified model of the collaboration server

This project models the protocol logic of a collaborative-editing backend and its client library,
and proves what the protocol is for. To check it with Dafny 4.11: `dafny verify dfyconfig.toml`.

The pieces, in the order in which they build on each other:

- **Sending queue** (`PriorityHeap`, `CollabMessages`, `SinkSpec`, `CollabSinkObject`,
  `SinkMerge`, `AckDiscipline`, `SinkProgress`): `CollabSink` with its priority queue, flying set,
  batching, merging, acknowledgement check and retry timer.
- **Synchronisation** (`YrsDocument`, `SyncProtocol`, `SyncSystem`, `SyncSafety`, `SyncFaults`):
  client document and queue, a network that delays, reorders, repeats and loses, and the server
  document, as one step system. A document is the set of its operations, an update is a set of
  operations, and a state vector covers the insertions below each client's first gap. The main
  result is that no edit is lost, with the exact condition on the environment.
- **Broadcasts** (`BroadcastGaps`, `ServerBroadcasts`, `GapHandshake`, `SubscriberConvergence`): how the
  server numbers what its document gains, when a client notices that something is missing, that it
  then starts a handshake, and that a client which missed nothing holds what the server holds.
- **Sessions and groups** (`UserDeviceKeys`, `SessionRegistry`, `RegistrySafety`, `RegistryService`,
  `RealtimeServerObject`): the server's maps of users, streams, groups and editings; who may not be
  subscribed, and who is.
- **Encodings** (`WireFormat`, `MessageCodec`, `PayloadMeaning`, `FrameProtocol`): the tagged message
  codec with its streaming reader, what payload bytes mean to the protocol, and length-prefixed
  frames in arbitrary chunks.
- **Template documents** (`DocumentParser`, `DocumentTables`, `DocumentRoundTrip`): flattening a
  tree of blocks into tables, and reading it back.
- **Smaller machines** (`AggregateQueue`, `SnapshotQueue`, `SnapshotProgress`, `RateLimiter`,
  `SnowflakeIds`).
- **Helpers**: `Wrappers`, `Integers`, `Sequences`.

Code that works by updating fields is a class or a method with loops, proved against a
specification function or relation on values; the theorems are about that specification.

Where the code does other than its comments or names suggest, the model follows the code, and a lemma shows the
difference:

- The merge loop takes `Ok(false)` ("not merged") for a merge, so an awareness payload swallows the
  update behind it (`SinkMerge.AwarenessSwallowsUpdate`, `SyncFaults.AwarenessLoses`).
- The timer lets sent messages be merged again under the id they were sent with
  (`SyncFaults.LostResendLoses`).
- Message ids start from 0 in every sink and answers find their sink by the object alone, so an
  answer to an earlier sink can settle a message of the new one (`SyncFaults.LeftoversLose`).
- A wrapped Snowflake call waits for the next millisecond and then uses the old one, so it repeats
  an identifier (`SnowflakeIds.WrappedCallRepeats`).
- Subscribers are not sent their own changes, but those take broadcast numbers, so they look like
  gaps (`BroadcastGaps.OwnChangesLookMissing`).
- The rate limiter's window starts at a message, not at a fixed tick, so one second can admit
  twenty messages (`RateLimiter.TwentyIsReached`).

Some files of the repository do not compile as written
(`lib/realtime/src/server/rt_server.rs:196` and `:610`,
`lib/realtime/src/server/collaborate/group.rs:152`,
`lib/client-api/src/collab_sync/sink_queue.rs:7`); the model follows their evident intent.

## Model

| member | source | states |
|---|---|---|
| `SyncSafety.NoEditIsLost` | lib/client-api/src/collab_sync/sink.rs:130-239 | In every state of every reliable run (delay, reordering and duplication allowed; loss too where updates cannot merge), unless a client init sync is queued, each operation of the client document is on the server, in a queued message or, where updates merge, on its way to the server |
| `SyncFaults.NoLostEditIff` | lib/client-api/src/collab_sync/sink.rs:93-111 | For every configuration, that safety holds of every reachable state if and only if: no server fault, no client fault, no `reset`, no message of an earlier sink for the object on the network at the start, no lost request where the size limit lets some update merge, and no awareness change queued where it lets an awareness change merge |
| `SyncSafety.StepKeeps` | lib/client-api/src/collab_sync/sink.rs:130-346 | The inductive invariant behind it (unique ids, answers that match what is queued, a flying id meaning that exactly the queued content was sent) survives every step of client, network and server |
| `SyncSafety.RunInv` | lib/client-api/src/collab_sync/sink.rs:130-346 | The invariant holds in every state of every reliable run |
| `SyncSafety.FinishedMeansSynced` | lib/client-api/src/collab_sync/sink.rs:231-237 | When the sink reports `Finished` in a reliable run, the server holds the whole client document (where updates merge, once no request is under way) |
| `SyncSafety.OnlyInitLeavesWhileQueued` | lib/client-api/src/collab_sync/sink.rs:376-385 | A send step while a client init sync is queued puts nothing but init syncs on the network, in any state and environment |
| `SyncSafety.AnswerAccounts` | lib/client-api/src/collab_sync/sync_control.rs:379-416 | Processing a handshake answer accounts for the whole client document again, whatever had been lost before |
| `SyncFaults.ServerFaultsLose` | lib/realtime/src/server/collaborate/group_broadcast.rs:240-294 | If the server can fail, a run exists in which it cannot get at the document for the first message of an init sync and still answers, so that the sink is done and an edit is lost |
| `SyncFaults.BusyClientLoses` | lib/client-api/src/collab_sync/sync_control.rs:386-386 | If the client document can be locked when an answer arrives, a run exists in which the sink is done and an edit is lost |
| `SyncFaults.ResetLoses` | lib/client-api/src/collab_sync/sync_control.rs:144-147 | If the queue can be cleared, a run exists that loses an edit |
| `SyncFaults.AwarenessLoses` | lib/client-api/src/collab_sync/plugin.rs:150-154 | If awareness changes are queued and small enough to merge, a run exists in which an edit merged behind one disappears |
| `SyncFaults.LostResendLoses` | lib/client-api/src/collab_sync/sink.rs:96-104 | If requests can be lost and some update is small enough to merge, a run exists in which the timer frees a sent message, a later edit merges into it under the same id, the resend is lost and the late answer to the first sending removes both |
| `SyncFaults.LeftoversLose` | lib/client-api/src/ws/client.rs:393-404 | If answers to an earlier sink for the object can be under way, a run exists in which one of them settles an init sync that is still on its way |
| `SyncSafety.OnlyPushed` | lib/client-api/src/collab_sync/sink.rs:311-335 | Where neither an update nor an awareness change is small enough to take others in, queueing only pushes |
| `SyncProtocol.HandshakeConverges` | lib/realtime-protocol/src/protocol.rs:45-103 | For any growth of both documents in between, Step1, Step2 with Step1, Step2 leaves the server with everything the client held when it replied and the client with everything the server held when it answered, invents nothing, and makes both the union when nothing interleaves; each Step2 holds everything of its sender but the gap-free runs the other side had announced, and nothing else |
| `YrsDocument.MissingComplete` | lib/realtime-protocol/src/protocol.rs:61-76 | What one replica sends against the other's state vector, with what the other holds, is everything the first one holds, for documents with gaps and deletions too |
| `YrsDocument.StateVectorOf` | lib/realtime-protocol/src/protocol.rs:45-59 | A state vector covers only operations that the document holds, whatever gaps it has |
| `YrsDocument.StateVectorExact` | lib/realtime-protocol/src/protocol.rs:45-59 | A state vector covers an insertion if and only if the document holds every insertion of that client up to it |
| `SyncProtocol.Step1Answered` | lib/realtime/src/server/collaborate/sync_protocol.rs:10-23 | Either side's answer to a Step1 holds an operation if and only if the replica has it and the received vector does not cover it; the server also asks back with a vector that covers exactly its gap-free runs, the client answers with that one message |
| `SyncProtocol.AnswerTable` | lib/realtime/src/server/collaborate/group_broadcast.rs:240-294 | For each kind of protocol message and each outcome on the server: what it does to the document, which code it is answered with, and when it is not answered |
| `SyncProtocol.CollabBroadcast.HandleClientCollabMessage` | lib/realtime/src/server/collaborate/group_broadcast.rs:240-294 | The server's loop over a client message leaves document, number, answers and broadcast channel as the specification `Serve` says, failures included; `ServerBroadcasts` says what that amounts to |
| `SyncProtocol.CollabBroadcast.HandleOne` | lib/realtime/src/server/collaborate/group_broadcast.rs:256-278 | One protocol message: applied, broadcast under the next number if it changes the document, and answered with the first success or with its error's code |
| `SyncProtocol.CollabBroadcast.ObserveUpdate` | lib/realtime/src/server/collaborate/group_broadcast.rs:77-88 | The document observer puts what was new on the channel, under the number one above the last |
| `SyncProtocol.ObserveCollab.InitSync` | lib/client-api/src/collab_sync/sync_control.rs:162-187 | Replaces the queue by one init sync with the document's state vector |
| `SyncProtocol.ObserveCollab.ProcessPayload` | lib/client-api/src/collab_sync/sync_control.rs:379-416 | Each protocol message changes the document and queues its reply, a server init sync for Step1 and an update otherwise; the first that fails ends the loop and is reported |
| `SyncProtocol.FailureEndsPayload` | lib/client-api/src/collab_sync/sync_control.rs:390-392 | If message i of a payload fails, the client is left as after some processing of the messages before it |
| `SyncProtocol.SkippedTail` | lib/client-api/src/collab_sync/sync_control.rs:390-392 | Once a message has failed, the messages behind it change nothing |
| `SyncProtocol.ObserveCollab.ProcessMessage` | lib/client-api/src/collab_sync/sync_control.rs:297-334 | Acknowledgements, broadcasts and awareness messages change client document, queue and stored number as `MessageProcessed` says; a broadcast of updates behind a gap leaves exactly one fresh init sync with the old document's state vector queued, if one may be sent and none is queued, and any other broadcast of updates leaves the queue as it was |
| `SyncProtocol.ObserveCollab.ProcessBroadcast` | lib/client-api/src/collab_sync/sync_control.rs:336-377 | Stores the number, starts an init sync behind a gap if it may, and processes the payload |
| `SyncProtocol.GapStartsHandshake` | lib/client-api/src/collab_sync/sync_control.rs:311-316 | For every broadcast that asks nothing: a gap, with the debounce time over and no init sync queued, makes one fresh init sync with the old document's state vector the whole queue; otherwise the sink is unchanged |
| `SyncProtocol.BroadcastApplied` | lib/client-api/src/collab_sync/sync_control.rs:317-328 | A broadcast or awareness payload adds exactly its operations to an undisturbed client's document, and nothing while the document is locked |
| `SyncProtocol.PayloadApplied` | lib/client-api/src/collab_sync/sync_control.rs:379-416 | An undisturbed client takes in every operation of a payload of any length, and no other |
| `SyncProtocol.LateAnswerIgnored` | lib/client-api/src/collab_sync/sync_control.rs:317-328 | An answer to a message that is not flying or not the next in turn changes neither document nor queue, whatever it carries |
| `SyncProtocol.HeadAnswerTaken` | lib/client-api/src/collab_sync/sync_control.rs:317-328 | The answer to the head of the queue is accepted, its operations enter the document, and the head leaves the queue |
| `SyncProtocol.StopsWhenRejected` | lib/client-api/src/collab_sync/sync_control.rs:306-310 | A client stops exactly when the server could not apply what it sent, with document, queue and number unchanged |
| `SyncProtocol.AnswerProcessed` | lib/realtime-protocol/src/protocol.rs:138-164 | A client that processes Step2 and Step1 holds its document plus the update and has queued exactly what the server lacks as a server init sync |
| `SyncProtocol.UpdateProcessed` | lib/client-api/src/collab_sync/sync_control.rs:386-412 | Processing a payload of one protocol message is handling that message |
| `PriorityHeap.Pop` | lib/client-api/src/collab_sync/sink_queue.rs:13-46 | Takes an element that no other one precedes and leaves the rest; ties are left open |
| `PriorityHeap.PopsTakeTops` | lib/client-api/src/collab_sync/sink_queue.rs:96-113 | Every element of a pop sequence is a top of what is left at that point |
| `CollabMessages.CompareIsRank` | lib/realtime-entity/src/collab_msg.rs:760-776 | The message order is the total preorder client init sync, server init sync, then smaller id first |
| `CollabSinkObject.GetNextBatchItem` | lib/client-api/src/collab_sync/sink.rs:354-403 | Requeues every popped message and returns a batch that is the front of the queue before any flying message, at most 21 items, ending at an init sync |
| `SinkSpec.BatchIsPriorityPrefix` | lib/client-api/src/collab_sync/sink.rs:354-403 | Batch and rest partition the queue, the batch is in priority order, nothing left behind outranks it and no flying message is overtaken |
| `SinkSpec.OnlyInitIsSent` | lib/client-api/src/collab_sync/sink.rs:376-385 | While an init sync is queued a batch holds at most one message, and it is an init sync |
| `CollabSinkObject.CollabSink.ProcessNextMsg` | lib/client-api/src/collab_sync/sink.rs:241-296 | Sends a batch and adds exactly its ids to the flying set, or changes nothing when paused or when the send fails |
| `CollabSinkObject.CollabSink.QueueMsg` | lib/client-api/src/collab_sync/sink.rs:130-144 | Pushes the message under the next id, then merges unless a lock is held |
| `CollabSinkObject.CollabSink.QueueInitSync` | lib/client-api/src/collab_sync/sink.rs:148-162 | Clears queue and flying set and queues the init sync under the next id |
| `CollabSinkObject.CollabSink.CanQueueInitSync` | lib/client-api/src/collab_sync/sink.rs:163-171 | Peeking at the top answers whether any client init sync is queued |
| `CollabSinkObject.CollabSink.ValidateResponse` | lib/client-api/src/collab_sync/sink.rs:196-239 | Accepts an id exactly when it is flying and the popped top has it; then that message leaves the queue, and an empty queue reports `Finished` |
| `CollabSinkObject.CollabSink.MergeMessages` | lib/client-api/src/collab_sync/sink.rs:298-346 | The queue becomes the merge pass over its messages popped in priority order, flying messages kept apart |
| `CollabSinkObject.CollabSink.Tick` | lib/client-api/src/collab_sync/sink.rs:93-111 | The timer empties the flying set and touches nothing else |
| `CollabSinkObject.CollabSink.Clear` | lib/client-api/src/collab_sync/sink.rs:172-185 | Empties queue and flying set and touches nothing else |
| `CollabSinkObject.CollabSink.PauseSink` | lib/client-api/src/collab_sync/sink.rs:186-189 | Pauses, reports `Pause`, and keeps queue, flying set and counter |
| `CollabSinkObject.CollabSink.Resume` | lib/client-api/src/collab_sync/sink.rs:190-193 | Clears the pause flag and keeps everything else |
| `CollabSinkObject.MergeLoop` | lib/client-api/src/collab_sync/sink.rs:308-335 | The loop over the popped messages keeps what the specification `MergePass` keeps |
| `CollabSinkObject.MergeOne` | lib/client-api/src/collab_sync/sink.rs:311-335 | One turn folds the message into the last kept one or keeps it, with the flying, size and kind checks |
| `SinkMerge.MergePreservesMeaning` | lib/client-api/src/collab_sync/sink.rs:298-346 | For document updates and awareness changes too large to merge: the popped messages fall into consecutive groups; each kept message has exactly the operations of its group and the group's smallest id; only unflying document updates, and awareness changes behind one, share a group; priority order is kept |
| `SinkMerge.MergeKeepsQueue` | lib/client-api/src/collab_sync/sink.rs:298-346 | As a heap: merging keeps the carried operations, the unique ids, and every flying or other message, and invents no id |
| `SinkMerge.MergeKeepsOps` | lib/client-api/src/collab_sync/sink.rs:298-346 | An operation is carried after the merge pass exactly when it was carried before |
| `SinkMerge.MergeKeepsOthers` | lib/client-api/src/collab_sync/sink.rs:309-315 | Flying messages and messages that are not updates are kept exactly as they were |
| `SinkMerge.MergeKeepsIds` | lib/client-api/src/collab_sync/sink.rs:298-346 | Ids stay unique and drawn from the queue whatever is queued, awareness updates included |
| `SinkMerge.AbsorbKeepsBothIff` | lib/client-api/src/collab_sync/sink.rs:323-323 | For any two payloads: folding one message into another keeps the operations of both if and only if, when both are updates, nothing behind their first messages is new, and otherwise the second brings nothing new |
| `SinkMerge.MergePassCarriesIff` | lib/client-api/src/collab_sync/sink.rs:308-335 | For any queue of single-message updates: an operation is carried after the whole pass if and only if some popped message carried it and was not swallowed, that is, not taken in unflying by a message without both being document updates |
| `SinkMerge.NothingMerges` | lib/client-api/src/collab_sync/sink.rs:319-326 | A pass over messages none of which is small enough to take others in keeps them all as they are |
| `SinkMerge.AwarenessSwallowsUpdate` | lib/realtime-entity/src/collab_msg.rs:390-410 | A concrete queue in which an awareness payload swallows the update behind it, because an unmerged pair counts as merged |
| `AckDiscipline.RunsAreDisciplined` | lib/client-api/src/collab_sync/sink.rs:196-239 | In every run of the sink no id is accepted twice and the ids of accepted updates strictly increase, across retries, merges, clears and repeated answers |
| `AckDiscipline.ResponseKeeps` | lib/client-api/src/collab_sync/sink.rs:203-226 | An id is accepted only while it is flying and its message is at the head of the queue |
| `SinkProgress.RoundsFinish` | lib/client-api/src/collab_sync/sink.rs:93-111 | From any queue: each round of timer, batch and accepted answer takes exactly one message off, and when the queue is empty the sink is `Finished` |
| `SinkProgress.CanFinish` | lib/client-api/src/collab_sync/sink.rs:241-296 | From any queue, as many rounds as there are messages can be made |
| `SinkProgress.BatchIsMaximal` | lib/client-api/src/collab_sync/sink.rs:354-403 | A batch of fewer than 21 messages that does not end with an init sync stops only where nothing is left or the next message is flying; with nothing flying a non-empty queue gives a non-empty batch |
| `SinkProgress.HeadAckAccepted` | lib/client-api/src/collab_sync/sink.rs:196-239 | The acknowledgement of the flying head of the queue is accepted and takes that message off |
| `SinkProgress.OtherAckIgnored` | lib/client-api/src/collab_sync/sink.rs:196-239 | An acknowledgement of anything else takes nothing off |
| `SinkProgress.PassKeepsApart` | lib/client-api/src/collab_sync/sink.rs:308-335 | After any merge pass, an unflying document update in front of an unflying message has reached the size limit, or that message cannot be decoded |
| `SinkProgress.MergeOfUpdates` | lib/realtime-entity/src/collab_msg.rs:363-410 | Two updates become one with both contents under the first id while the first is within the limit, and stay apart beyond it |
| `BroadcastGaps.ClientSilentIffComplete` | lib/client-api/src/collab_sync/sync_control.rs:355-377 | A client that handles any messages, its broadcasts delivered in order, never finds a gap if and only if it got the group's broadcasts from number 1 on with none missing |
| `GapHandshake.HandshakeIffIncomplete` | lib/client-api/src/collab_sync/sync_control.rs:336-377 | Over any run of any messages: with none of the group's broadcasts missing, every broadcast leaves the queue as it was; and when a handshake may always be started, one is queued right behind some gap if and only if a broadcast is missing |
| `GapHandshake.EveryGapAnswered` | lib/client-api/src/collab_sync/sync_control.rs:311-316 | In any run, each broadcast of updates is answered by one fresh init sync or by nothing, exactly as its number and the chance to sync say |
| `ServerBroadcasts.GrowthsAreNumbered` | lib/realtime/src/server/collaborate/group_broadcast.rs:81-88 | For every document, start number, payload and outcomes: the final number is the start number plus the number of positions at which the document grew, and growth j is broadcast under start + j + 1 with exactly the operations that were new |
| `ServerBroadcasts.RunsAreNumbered` | lib/realtime/src/server/collaborate/group_broadcast.rs:81-88 | A run of client messages yields the broadcasts 1 to n, one for each change of the document, in order |
| `ServerBroadcasts.BroadcastsCarryGrowth` | lib/realtime/src/server/collaborate/group_broadcast.rs:77-88 | Over any run the broadcasts carry exactly what the document gained, each operation in exactly one of them |
| `ServerBroadcasts.SilentIffStartsRun` | lib/client-api/src/collab_sync/sync_control.rs:355-377 | A client of such a group never finds a gap if and only if what it got are the first broadcasts the group sent, none missing and none its own |
| `SubscriberConvergence.UpToDateHoldsAll` | lib/realtime/src/server/collaborate/group_broadcast.rs:77-88 | A client that started with the group's document, is undisturbed, found no gap and has the group's latest number holds the whole server document, and exactly it if it got broadcasts only |
| `SubscriberConvergence.MessageKeepsDoc` | lib/client-api/src/collab_sync/sync_control.rs:297-334 | No message, and no failure in handling it, takes an operation out of the client's document |
| `BroadcastGaps.SilentIffComplete` | lib/realtime/src/server/collaborate/group_broadcast.rs:81-88 | For every in-order subsequence of the others' numbered changes, no error is raised if and only if it is exactly the first broadcasts |
| `BroadcastGaps.FirstErrorAtFirstGap` | lib/client-api/src/collab_sync/sync_control.rs:355-377 | The first error is raised at position k exactly when the first k broadcasts came without gap and the next number is too large |
| `BroadcastGaps.OwnChangesLookMissing` | lib/realtime/src/server/collaborate/group_broadcast.rs:168-186 | Once a broadcast later than one of the subscriber's own changes arrives, an error has been raised although nothing was lost |
| `BroadcastGaps.ClientRemembersLast` | lib/client-api/src/collab_sync/sync_control.rs:361-362 | The stored number is that of the last broadcast handled, whatever other messages came in between |
| `BroadcastGaps.ForwardBroadcasts` | lib/realtime/src/server/collaborate/group_broadcast.rs:168-186 | A subscriber is sent an in-order part of the others' changes: all of them up to the point where it lags behind the channel, if no sending fails, and none from there on |
| `RegistrySafety.RunKeeps` | lib/realtime/src/server/rt_server.rs:214-292 | In every reachable state every subscription is recorded in the reverse index, only the latest user of a device subscribes or has a stream, and the stream is that of its latest session |
| `RegistrySafety.StepKeeps` | lib/realtime/src/server/rt_server.rs:214-292 | That invariant survives every connect, disconnect, batch of messages and tick |
| `RegistrySafety.OneConnectionPerDevice` | lib/realtime/src/server/collaborate/group.rs:149-160 | In every reachable state a device has at most one stream and at most one subscription per group |
| `RegistrySafety.LateDisconnectIsHarmless` | lib/realtime/src/server/rt_server.rs:280-288 | A `Disconnect` leaves streams of other users and of other sessions, and their subscriptions, as they are |
| `RegistrySafety.DisconnectRemovesEverywhere` | lib/realtime/src/server/rt_server.rs:271-291 | After a `Disconnect` of its current session a user has no stream, is subscribed nowhere and has no recorded editing |
| `RegistrySafety.ConnectRemovesPrevious` | lib/realtime/src/server/rt_server.rs:230-250 | A `Connect` leaves no subscription and no stream of the device's previous user |
| `RegistrySafety.GoneUntilReconnect` | lib/realtime/src/server/collaborate/group_cmd.rs:94-147 | A user that is gone stays unsubscribed through every further event until it connects again, whatever messages are under way |
| `RegistryService.BatchSubscribes` | lib/realtime/src/server/collaborate/group_cmd.rs:94-147 | In every reachable state, a connected user whose batch finds the group, or is the init sync of a client that creates it, is a subscriber afterwards, known by its device key, under the message's origin if it was not subscribed or sends an init sync and as before otherwise; other devices' subscriptions, other groups and other streams are unchanged |
| `RegistryService.BatchRefused` | lib/realtime/src/server/collaborate/group_cmd.rs:94-147 | A batch of a user without a stream, or for a group that it may not create, changes nothing |
| `RegistryService.ConnectLeavesOthers` | lib/realtime/src/server/rt_server.rs:221-251 | In every reachable state a `Connect` leaves streams, subscriptions and their origins of all other devices as they are |
| `RegistryService.DisconnectLeavesOthers` | lib/realtime/src/server/rt_server.rs:271-291 | A `Disconnect` leaves streams, subscriptions and their origins of all other users, and the maps of devices and sessions, as they are |
| `RegistryService.RetiredIsGone` | lib/realtime/src/server/collaborate/all_group.rs:35-53 | Exactly the chosen groups are gone after a tick, and a batch for one of them is refused unless it is an init sync |
| `RegistryService.TickSparesSubscribed` | lib/realtime/src/server/collaborate/all_group.rs:35-53 | No tick removes or changes a group that someone subscribes to |
| `UserDeviceKeys.UserDeviceKeyInjective` | lib/realtime/src/entities.rs:17-19 | The `uid-device` key tells any two devices apart, negative ids and dashes in device ids included |
| `UserDeviceKeys.UserDeviceKeyReads` | lib/realtime/src/entities.rs:17-19 | The key is the user id in decimal, signed if negative and without leading zeros, a dash, and the device id |
| `RealtimeServerObject.RealtimeServer.HandleConnect` | lib/realtime/src/server/rt_server.rs:221-251 | The handler changes the maps as the specification `Connect` says |
| `RealtimeServerObject.RealtimeServer.HandleDisconnect` | lib/realtime/src/server/rt_server.rs:271-291 | The handler changes the maps as the specification `Disconnect` says |
| `RealtimeServerObject.RealtimeServer.RemoveUserEverywhere` | lib/realtime/src/server/rt_server.rs:185-200 | The walk over the user's recorded editings, in any order, removes it from each of those groups and drops the record |
| `RealtimeServerObject.RealtimeServer.RemoveUserFromGroup` | lib/realtime/src/server/collaborate/all_group.rs:61-67 | Drops the user from the subscribers of one group, if there is one |
| `RealtimeServerObject.RealtimeServer.SubscribeGroup` | lib/realtime/src/server/collaborate/group_sub.rs:43-84 | Records the editing and subscribes the user under the message's origin, replacing the subscriber known under the same device key; `RegistryService.BatchSubscribes` says who is served |
| `RealtimeServerObject.RealtimeServer.HandleCollabMessage` | lib/realtime/src/server/collaborate/group_cmd.rs:94-147 | Changes the maps as the specification `HandleMessages` says; what that means for the sender and for others is `RegistryService.BatchSubscribes` and `BatchRefused` |
| `RealtimeServerObject.RealtimeServer.TickGroups` | lib/realtime/src/server/collaborate/all_group.rs:35-53 | Removes only idle groups without subscribers, at most six a tick, and all of them when fewer than six |
| `MessageCodec.MessageRoundTrip` | lib/realtime-protocol/src/message.rs:27-83 | Decoding an encoded message gives it back and leaves exactly the bytes behind it |
| `MessageCodec.SyncTagBytes` | lib/realtime-protocol/src/message.rs:186-201 | The bytes 0 and 0, 1 or 2 in front of the three sync messages |
| `MessageCodec.TagBytes` | lib/realtime-protocol/src/message.rs:27-53 | The tag bytes of awareness (1), denied and granted authorisation (2, 0 and 2, 1) and custom messages (3, 0) |
| `MessageCodec.BufferBytes` | lib/realtime-protocol/src/message.rs:27-53 | The length bytes in front of every buffer shorter than 2^14 bytes |
| `MessageCodec.SyncMetaBytes` | lib/realtime-protocol/src/message.rs:142-156 | A time stamp is eight bytes, low byte first |
| `MessageCodec.MinusOneBytes` | lib/realtime-protocol/src/message.rs:142-156 | A time stamp of -1 is eight bytes of ones |
| `MessageCodec.MessageTruncated` | lib/realtime-protocol/src/message.rs:55-83 | Every proper prefix of an encoding reads as the end of the buffer |
| `MessageCodec.StreamRoundTrip` | lib/realtime-protocol/src/message.rs:258-275 | Reading concatenated encodings gives exactly the messages that were encoded |
| `MessageCodec.StreamTruncated` | lib/realtime-protocol/src/message.rs:258-275 | Wherever the stream is cut, the reader gives exactly the messages wholly before the cut and then stops without an error |
| `MessageCodec.WhollyWithinIsUnique` | lib/realtime-protocol/src/message.rs:266-275 | There is only one such number of messages |
| `MessageCodec.MessageReader.Next` | lib/realtime-protocol/src/message.rs:266-275 | Yields one message and advances behind it, nothing at the end of the buffer, an error on anything else; after the latter two the cursor is somewhere behind where it was |
| `MessageCodec.MessageReader.Collect` | lib/realtime/src/server/collaborate/group_broadcast.rs:252-262 | A loop over the reader that stops at the end or at an error collects what the specification `ReadAll` says |
| `MessageCodec.SyncMetaRoundTrip` | lib/realtime-protocol/src/message.rs:142-156 | The eight-byte time stamp of a custom message comes back for every `i64` |
| `MessageCodec.GenUpdateMessage` | lib/realtime/src/server/collaborate/group_broadcast.rs:347-355 | The hand-written update encoder writes the bytes of an encoded `Sync(Update)` |
| `PayloadMeaning.PayloadRoundTrip` | lib/realtime-protocol/src/message.rs:258-275 | The bytes of a list of messages mean exactly those messages to the protocol |
| `PayloadMeaning.CutPayload` | lib/realtime-protocol/src/message.rs:258-275 | Bytes cut short mean the messages wholly before the cut |
| `PayloadMeaning.BroadcastMeansUpdate` | lib/realtime/src/server/collaborate/group_broadcast.rs:347-355 | The payload of a broadcast means the one update that was applied |
| `PayloadMeaning.SyncBytesMean` | lib/realtime-protocol/src/message.rs:203-222 | Which protocol step the bytes of each sync message stand for, undecodable updates included |
| `PayloadMeaning.AwarenessBytesMean` | lib/realtime-protocol/src/message.rs:55-83 | The bytes of awareness and denied authorisation, and what they stand for |
| `PayloadMeaning.OtherBytesMean` | lib/realtime-protocol/src/message.rs:55-83 | The bytes of granted authorisation and of a custom message, and what they stand for |
| `PayloadMeaning.ClocksOfLast` | lib/realtime-protocol/src/message.rs:203-222 | A decoded state vector has a clock for exactly the clients listed, the last one listed for each |
| `WireFormat.VarRoundTrip` | lib/realtime-protocol/src/message.rs:57-58 | A var-int within the type's range is read back and leaves what follows |
| `WireFormat.VarTruncated` | lib/realtime-protocol/src/message.rs:57-58 | A var-int cut anywhere reads as the end of the buffer |
| `WireFormat.BufRoundTrip` | lib/realtime-protocol/src/message.rs:55-83 | A length-prefixed buffer is read back and leaves what follows |
| `WireFormat.LERoundTrip` | lib/realtime-protocol/src/message.rs:142-156 | A little-endian number of any width is read back |
| `WireFormat.BufTruncated` | lib/realtime-protocol/src/message.rs:55-83 | A length-prefixed buffer cut anywhere reads as the end of the buffer |
| `FrameProtocol.JoinFrames` | lib/client-api/src/native/http_native.rs:68-82 | The client's loop writes each frame behind its length cast to `u32`, big-endian |
| `FrameProtocol.ReceiveFrames` | src/api/workspace.rs:427-458 | However the body is cut into chunks (failed ones skipped), the handler ends with the frames and the rest of the joined bytes, or fails only on a frame that does not decode; if the chunks are any cut of the framing of short frames, exactly these frames come out with an empty buffer, unless one does not decode |
| `FrameProtocol.DrainBuffer` | src/api/workspace.rs:436-455 | The inner loop takes every complete frame off the buffer |
| `FrameProtocol.TakeThenMore` | src/api/workspace.rs:427-458 | Taking frames before more bytes arrive changes neither the frames nor the rest |
| `FrameProtocol.HeaderRoundTrip` | src/api/workspace.rs:437-442 | The four big-endian header bytes give the size back |
| `FrameProtocol.HeaderBytes` | lib/client-api/src/native/http_native.rs:68-82 | The four header bytes of a length, most significant first |
| `FrameProtocol.FramesRoundTrip` | src/api/workspace.rs:427-458 | Frames shorter than 2^32 bytes come back as they were, with nothing left |
| `FrameProtocol.FramesRoundTripIff` | lib/client-api/src/native/http_native.rs:68-82 | The framed list comes back with an empty rest if and only if every frame is shorter than 2^32 bytes |
| `FrameProtocol.CutFrames` | src/api/workspace.rs:436-455 | A body cut at any byte yields exactly the frames wholly before the cut and keeps the other bytes |
| `DocumentTables.JsonToDocument` | lib/workspace-template/src/document/parser.rs:14-32 | The parser builds the document that `DocumentOf` specifies, page identifier drawn first |
| `DocumentTables.GenerateBlocks` | lib/workspace-template/src/document/parser.rs:34-56 | Each call extends the two index maps by exactly the entries of its subtree, children first, and draws identifiers in the specified order |
| `DocumentTables.GenerateChildren` | lib/workspace-template/src/document/parser.rs:39-45 | The loop over the children extends both maps by exactly the entries of all children, in order |
| `DocumentTables.GenerateChildrenMap` | lib/workspace-template/src/document/parser.rs:63-83 | The loop builds the children map specified block by block |
| `DocumentTables.ChildrenMapLists` | lib/workspace-template/src/document/parser.rs:63-83 | After any number of turns each block's list holds exactly its children among the blocks seen, in order, and no other key is present |
| `DocumentParser.EntriesDistinct` | lib/workspace-template/src/document/parser.rs:34-56 | No block identifier, children key or text identifier is used twice |
| `DocumentParser.SubtreeChildren` | lib/workspace-template/src/document/parser.rs:39-45 | The blocks that name a block as parent are the roots of its subtrees, in sibling order |
| `DocumentRoundTrip.DocumentRoundTrips` | lib/workspace-template/src/document/parser.rs:14-110 | Following the children and text tables from the page identifier rebuilds the template: types, data, text and sibling order |
| `DocumentRoundTrip.ListedExactlyOnce` | lib/workspace-template/src/document/parser.rs:63-83 | Every block but the page is listed as a child exactly once, and the page nowhere |
| `DocumentRoundTrip.ListedUnderParent` | lib/workspace-template/src/document/parser.rs:71-79 | The list that holds a block belongs to the block it names as its parent, and repeats nothing |
| `DocumentRoundTrip.DocumentHolds` | lib/workspace-template/src/document/parser.rs:34-83 | The tables hold every entry under its identifier, its text under its text identifier and its children under its children key |
| `DocumentRoundTrip.ListKeys` | lib/workspace-template/src/document/parser.rs:63-83 | A page without children has an empty children map; otherwise exactly the blocks' children keys are present, a leaf's with an empty list |
| `DocumentRoundTrip.TextKeys` | lib/workspace-template/src/document/parser.rs:85-110 | The text map has exactly the blocks' external identifiers; a block with one has external type `text`, one without has none, and no block keeps its delta in its data |
| `AggregateQueue.NextBatchMessage` | lib/client-api/src/ws/msg_queue.rs:88-114 | Pops a priority prefix that ends exactly when a limit is passed or the heap is empty, split by object |
| `AggregateQueue.AggregateMessageQueue.Push` | lib/client-api/src/ws/msg_queue.rs:28-33 | Adds exactly the given messages to the heap |
| `AggregateQueue.AggregateMessageQueue.Clear` | lib/client-api/src/ws/msg_queue.rs:34-36 | Empties the heap |
| `AggregateQueue.AggregateMessageQueue.Tick` | lib/client-api/src/ws/msg_queue.rs:49-54 | One turn of the sender takes one batch with at most ten init syncs before the last message |
| `AggregateQueue.SplitKeepsMessages` | lib/client-api/src/ws/msg_queue.rs:102-105 | Splitting a batch by object drops, repeats and invents no message |
| `AggregateQueue.OfSorted` | lib/client-api/src/ws/msg_queue.rs:102-105 | Within an object the messages of a batch stay in priority order |
| `AggregateQueue.BatchBounds` | lib/client-api/src/ws/msg_queue.rs:106-111 | A batch exceeds the size limit by its last message at most, holds at most one init sync too many, and is not empty unless the heap is |
| `AggregateQueue.BatchIsMaximal` | lib/client-api/src/ws/msg_queue.rs:88-114 | Every proper prefix of a batch is within both limits, and a batch within both limits is the whole heap |
| `AggregateQueue.TickIsMaximal` | lib/client-api/src/ws/msg_queue.rs:49-54 | A turn of the sender leaves messages behind only if its batch has more than ten init syncs or exceeds the size limit |
| `AggregateQueue.NothingLostOrRepeated` | lib/client-api/src/ws/msg_queue.rs:28-33 | Over any run of pushes and batches, what was queued is what was sent plus what is still queued, message by message |
| `AggregateQueue.BatchesFollowPriority` | lib/client-api/src/ws/msg_queue.rs:88-114 | Without new messages successive batches follow one priority order |
| `AggregateQueue.TicksDrain` | lib/client-api/src/ws/msg_queue.rs:88-114 | Enough batches empty the heap, each message sent exactly once |
| `SnapshotQueue.NeverLosesIff` | src/biz/snapshot/snapshot_control.rs:199-294 | Data last queued for an object, if it decodes, is always its newest snapshot or cached with a pending item, if and only if no cache write fails and no entry expires; failed reads, transactions, writes and removals do no harm |
| `SnapshotQueue.ReliableRunsAreSafe` | src/biz/snapshot/snapshot_control.rs:225-294 | The invariant of reliable runs: the cache holds nothing but the latest data of a queued object, and nothing decodable is lost |
| `SnapshotQueue.FailedStoreLoses` | src/biz/snapshot/snapshot_control.rs:209-211 | A run in which a failed cache write loses decodable data |
| `SnapshotQueue.ExpiryLoses` | src/biz/snapshot/snapshot_control.rs:251-254 | A run in which an expired entry loses decodable data |
| `SnapshotQueue.KeyInjective` | src/biz/snapshot/snapshot_control.rs:297-304 | Different objects have different cache keys |
| `SnapshotQueue.AttemptsFollowQueueOrder` | src/biz/snapshot/queue.rs:69-74 | In every run items are attempted in sequence order even after being put back, and successes never exceed attempts |
| `SnapshotProgress.DrainWritesLatest` | src/biz/snapshot/snapshot_control.rs:225-294 | In every reliable run, once as many attempts as there are items have succeeded, the queue is empty and the newest snapshot of every queued object is the data last queued for it, if that decodes |
| `SnapshotProgress.CanDrain` | src/biz/snapshot/snapshot_control.rs:225-294 | As many attempts as there are items can be made |
| `SnapshotProgress.SuccessWritesLatest` | src/biz/snapshot/snapshot_control.rs:271-288 | In every reliable run, the first attempt that succeeds for an object writes what was last queued for it, takes the cache entry away and counts one success |
| `SnapshotProgress.SuccessfulAttempt` | src/biz/snapshot/snapshot_control.rs:271-288 | An attempt at a cached, decodable object whose answers all succeed makes the cached data its newest snapshot, takes item and cache entry away, counts one success and touches nothing else |
| `SnapshotProgress.HopelessAttempt` | src/biz/snapshot/snapshot_control.rs:234-260 | An attempt without a cache entry, or with data that does not decode, drops the item and changes nothing else |
| `SnapshotProgress.RetriedAttempt` | src/biz/snapshot/snapshot_control.rs:253-293 | An attempt that cannot read the cache, begin or write leaves everything but the attempt count as it was |
| `SnapshotQueue.SnapshotCommandRunner.InsertSnapshot` | src/biz/snapshot/snapshot_control.rs:201-212 | Queues an item under the next sequence number and caches the data if the cache takes it |
| `SnapshotQueue.SnapshotCommandRunner.ProcessNextBatch` | src/biz/snapshot/snapshot_control.rs:225-294 | Attempts a top item, as `Attempted` says for each answer of cache and database; `SnapshotProgress` says what is written, dropped and kept |
| `SnapshotQueue.SnapshotCommandRunner.WriteSnapshot` | src/biz/snapshot/snapshot_control.rs:234-294 | The part behind the pop, as `Finished` says: put back, drop, or write the cached data, count it and take the cache entry away |
| `SnapshotQueue.SnapshotCommandRunner.PushItem` | src/biz/snapshot/queue.rs:30-32 | Adds the item to the heap |
| `SnapshotQueue.SnapshotCommandRunner.GenerateItem` | src/biz/snapshot/queue.rs:19-29 | Hands out successive sequence numbers |
| `RateLimiter.RealtimeClient.Handle` | lib/realtime/src/client/rt_client.rs:254-263 | Opens a window when more than an interval has passed, counts the message, and admits it when the count is at most ten |
| `RateLimiter.WindowAdmitsFirstTen` | lib/realtime/src/client/rt_client.rs:254-263 | A counting window admits exactly its first ten messages |
| `RateLimiter.AnySecondBound` | lib/realtime/src/client/rt_client.rs:254-263 | For every arrival sequence of a clock that never goes back, any closed stretch of one second admits at most twenty messages |
| `RateLimiter.WindowBound` | lib/realtime/src/client/rt_client.rs:254-263 | Messages of one counting window, from whichever of them one starts, are admitted at most ten times |
| `RateLimiter.TwentyIsReached` | lib/realtime/src/client/rt_client.rs:254-263 | Twenty is exact: an arrival sequence and a second in which twenty are admitted |
| `SnowflakeIds.IncreasingIff` | lib/snowflake/src/lib.rs:24-41 | Identifiers strictly increase over a run, and are distinct, if and only if no millisecond sees more than 4096 calls |
| `SnowflakeIds.IdsDecode` | lib/snowflake/src/lib.rs:38-40 | Every identifier of a run is non-negative and decodes to its call's time, the node and the number of the call within its millisecond |
| `SnowflakeIds.WaitLimitsCalls` | lib/snowflake/src/lib.rs:42-47 | Since a wrapped call waits, at most 4097 calls can start in one millisecond |
| `SnowflakeIds.WrappedCallRepeats` | lib/snowflake/src/lib.rs:29-37 | Call 4097 of a millisecond returns the identifier of call 1 again |
| `SnowflakeIds.SequenceCounts` | lib/snowflake/src/lib.rs:29-37 | The sequence field numbers the calls within a millisecond, modulo 4096 |
| `SnowflakeIds.Snowflake.WaitNextMillis` | lib/snowflake/src/lib.rs:42-47 | Reads the clock until the first reading that differs from the last timestamp |
| `SnowflakeIds.PackedIsSum` | lib/snowflake/src/lib.rs:38-40 | Within their ranges the shifted and or-ed parts are the sum of the parts |
| `SnowflakeIds.Snowflake.Next` | lib/snowflake/src/lib.rs:24-41 | A call panics exactly when the clock went back or is before the epoch; otherwise it returns the packed parts with the timestamp read first, even after waiting |
| `SnowflakeIds.Snowflake.Advance` | lib/snowflake/src/lib.rs:29-37 | Numbers the call within its millisecond and waits for the clock exactly when the numbers run out |

## Left out

- SyncFaults.NoLostEditIff: the environment is described by what it can do at all (lose requests, fail at the server, leave messages of an earlier sink on the network, and so on), not by how often; a single leftover that happens to do no harm still counts as a leftover.
- SyncProtocol.HandshakeConverges: covers an exchange whose steps all succeed; failed steps are part of `SyncSystem` instead.
- DocumentRoundTrip.DocumentRoundTrips: assumes that `nanoid!(10)` repeats no identifier; for a depth below the height of the template the reading function stops early by design.
- SnowflakeIds.IncreasingIff: assumes a clock that never goes back and stays within 2^41 ms of the epoch, and a node number below 1024, which the code does not check.
- SubscriberConvergence.UpToDateHoldsAll: starts when the group does; a client that joins later first catches up by the handshake of `SyncProtocol.HandshakeConverges`.
- RegistryService.BatchSubscribes: is about batches whose messages name the object they are filed under, as a client's aggregate queue files them.
- BroadcastGaps.SilentIffComplete: is about one life of a group, in-order delivery and numbers below 2^32; a group that is dropped and opened again starts from 1 while the client keeps its number.
- The concurrency inside one step: sending a batch and marking it as flying is one step, each actor handler and subscription is one step, and a failed `try_lock` is a step not taken, except where it skips a merge (allowed in every run) or loses a reply (an explicit fault of the environment).
- The id that a queue item stores beside its message: it is always the message's own id, so the two are one field.
- Wrap-around of the 32- and 64-bit counters (message ids, broadcast numbers, snapshot sequence numbers, attempt counts, the client's `size_count`).
- How often a client payload can fail, and what a failed payload logs: every outcome of every message is allowed in faulty environments.
- `yrs` itself: block structure, pending updates and delete sets are abstracted to sets of operations; how update bytes decode is a parameter.
- The contents of awareness states and authorisation reasons, which travel as opaque bytes, and the `lib0` and `bincode` crates beyond the var-int, buffer and 8-byte readers that the codec calls.
- A `ServerInitSync` sent by the server, and the `SyncCheck` exchange at run time: only their encodings are modelled.
- A server document that shrinks: storage reload and group eviction between messages of one client.
- The senders of a group and its command queue: a message is handled when it is taken, so messages still in the queue are the ones "under way" in `RegistrySafety.GoneUntilReconnect`.
- Decompression, parsing and validation of a frame: one predicate over its bytes.
- JSON parsing of a template: the model starts from the parsed block tree.
- The Redis client, the snapshot table and its pruning: maps whose answers are parameters; the table keeps the newest snapshot of each object.
- `send_batch_message` and the one-second interval of the aggregate queue, and the channel that takes a batch: a batch counts as sent once it is taken.
- What `handle` does with an admitted websocket message (ping, close, forwarding).
- Access control, HTTP handlers, SQL, S3, GoTrue, metrics, configuration, compression, encryption and the wasm variants: routing and foreign runtime around the modelled logic.
- `ClientCollabV1` grouping, flush timing and the Redis-over-Postgres cache: side conditions would outweigh what could be said.
- Snowflake arithmetic in a release build before the epoch, where the subtraction wraps instead of panicking.
