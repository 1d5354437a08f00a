# A verified model of the IC WebSocket CDK

The IC WebSocket CDK turns a canister into the server end of WebSocket connections that
run through gateways. Clients open and close connections and send numbered messages; the
canister queues its own messages per gateway, indexes the queued messages in a
certification tree, and answers each gateway's polls with a batch of messages and a
certificate. Two timers acknowledge received messages and drop clients and gateways that
have gone quiet. The code keeps nine global maps, a tree and two timer ids consistent with
one another by updating them one at a time.

The model has two levels and a proof that the lower refines the upper.

* **The canister** (`Canister.dfy`, `Registered.dfy`): a class whose fields are the global
  maps, and two classes for the records that are updated in place. Each function of the
  source is a method; the loops over hash maps visit their keys in an arbitrary order; the
  binary search over string keys is a loop. `Valid()` says that the fields agree with the
  abstract state reached by the public calls made so far, and every entry point and timer
  callback keeps it. Errors are results; nothing is rolled back.
* **The protocol** (`Network.dfy`, `Protocol.dfy`): a principal has at most one
  connection, a gateway registration is the whole history of messages sent through it with
  the number already deleted, and a log records what was sent, accepted and announced.
  Connections and gateway registrations carry fresh identities, so reopening with the same
  key and registering again are told apart. Each entry point is a script of atomic
  actions; a run is a sequence of entry points, timer callbacks and passages of time.
  After every removal the script sends whatever the application's on_close handler sends:
  the handler is an arbitrary function, the same at both levels.

`Store.dfy` and `Refinement.dfy` hold the agreement between the two levels and its
preservation by every update; `Coherence.dfy` says what agreement means for the maps
alone, and `Outcomes.dfy` what each entry point does to the maps and puts on the wire.
About all runs: `Streams.dfy` (numbering, callbacks, acknowledgements), `Retention.dfy`
(when messages leave a queue), `Polling.dfy`, `Replies.dfy` and `Delivery.dfy` (what
gateways and clients receive), `Timing.dfy` (bounds on silence and retention),
`Failures.dfy` (runs in which an expected property fails).
`Keys.dfy` relates the string order of message keys to the order of nonces and
`Witness.dfy` shows what a certified range discloses.

Assumptions: a principal's text is lower-case base32 with dashes (section 6 of RFC 4648),
so it contains no underscore, and different principals have different texts; time does not
go backwards, and timers fire at their deadlines; CBOR serialization does not fail. Candid,
CBOR, SHA-256, the tree's root hash and the system's certificate are arbitrary functions.
The caller, the clock and the decoding of a message are parameters.

What the proofs brought to light:

* With a maximum of zero returned messages a poll claims the end of a queue that still
  holds messages; the flag is right exactly otherwise (`Polling.EndFlagTruth`,
  `Failures.EndFlagLies`).
* Removing a client key that is not registered also forgets the current key of its
  principal; the maps stay coherent exactly when that principal has no other live key
  (`Store.RemovingUnregistered`). Every caller has checked registration first.
* The certified data is always the root of the tree that was certified last. That is the
  present tree, except from the creation or a wipe until the next send, deletion or
  gateway expiry, and then the present tree is empty (`Coherence.CertifiedExactly`). A wipe
  can leave the root of a tree that held messages (`Failures.WipeLeavesRoot`).
* A gateway that expires and registers again starts over at nonce 0 without its poller
  being told: a run exists in which a poller that read everything misses the first message
  of the new registration for good (`Failures.RestartLosesMessage`). A cursor is safe
  exactly if it is not past the oldest queued message, so for a new registration exactly if
  it is 0 (`Polling.MissesNothingIff`, `Polling.SafeCursors`).
* The close reason for an invalid service message is never sent in any run
  (`Streams.InvalidServiceReasonUnused`): such a message is refused after its number has
  been counted, and the connection goes on (`Streams.InvalidServiceMessageKept`).
* The comment at `src/ic-websocket-cdk/src/types.rs:108` numbers messages from 0; the code
  numbers them from 1 in both directions. The model follows the code.

## Model

| member | source | states |
|---|---|---|
| Keys.ParseFormat | src/ic-websocket-cdk/src/state.rs:355-360 | Reading a message key back, text before the underscore and number after it, returns the gateway and the nonce it was made from; so keys are injective. |
| Keys.KeyLength | src/ic-websocket-cdk/src/state.rs:359 | For every 64-bit nonce the key is the gateway's text and 21 more characters: an underscore and twenty digits. |
| Keys.PaddedOrder | src/ic-websocket-cdk/src/state.rs:359 | The string order of zero-padded numbers up to 2^64 is the numeric order, both ways. |
| Keys.SameGatewayOrder | src/ic-websocket-cdk/src/state.rs:374-377 | The string order of one gateway's keys is the order of their nonces. |
| Keys.KeyRange | src/ic-websocket-cdk/src/state.rs:513-516 | A key lies between two keys of a gateway exactly if it is that gateway's and its nonce lies between theirs; no other gateway's key falls in the range. |
| Network.ActInv | src/ic-websocket-cdk/src/state.rs:303-353 | Every atomic action keeps the invariant: clients' gateways are registered, a gateway is marked empty exactly when no client names it, queues are sorted by time, and nothing queued for an emptied gateway is newer than its emptying. |
| Protocol.RunInv | src/ic-websocket-cdk/src/lib.rs:57-284 | The invariant holds in every state of every run. |
| Streams.OutgoingStreams | src/ic-websocket-cdk/src/state.rs:580-631 | After any run each connection's messages are numbered 1, 2, 3, … in nonce order within one gateway registration, the open message exactly first, a close message at most last; a live connection's counter is the last number sent and all its messages are on record with its gateway. |
| Streams.IncomingStreams | src/ic-websocket-cdk/src/lib.rs:193-209 | The messages accepted on a connection are numbered exactly 1, …, n without gap or repeat, and n is the number the canister acknowledges. |
| Streams.RightNumberCounts | src/ic-websocket-cdk/src/lib.rs:195-220 | The whole state after the next number in sequence: the sender's counter, its last keep-alive time exactly if the message is a keep-alive, on_message exactly if it is an application message, and nothing else. |
| Streams.InvalidServiceMessageKept | src/ic-websocket-cdk/src/state.rs:553-569 | An undecodable or unexpected service message with the right number is refused, but counted; the connection stays and nothing is sent on it. |
| Streams.InvalidServiceReasonUnused | src/ic-websocket-cdk/src/types.rs:325-335 | In no run is a close message for an invalid service message ever sent, although the reason is defined. |
| Streams.WrongNumberEnds | src/ic-websocket-cdk/src/lib.rs:199-207 | Any other number ends the connection, and the last message of its stream is the close message with that reason, whatever the handler sends. |
| Streams.EndsWithFarewell | src/ic-websocket-cdk/src/state.rs:319-353 | So does every removal with a reason: its farewell is the last message on the connection even though the handler sends afterwards. |
| Streams.RemovalFarewell | src/ic-websocket-cdk/src/state.rs:319-353 | Removal for a reason adds exactly one message, the close message, to the connection's stream. |
| Streams.NothingAfterRemoval | src/ic-websocket-cdk/src/state.rs:314-353 | Whatever happens later, even if the client reopens with the same key, nothing is sent on a removed connection. |
| Streams.CallbackConservation | src/ic-websocket-cdk/src/state.rs:343-352 | For each principal on_open and on_close alternate from on_open, and opens exceed closes by one exactly while it is connected. |
| Streams.AckRound | src/ic-websocket-cdk/src/timers.rs:77-107 | In whatever order clients are visited, a round sends each exactly one ack carrying the number of messages accepted from it, removes nobody and leaves everybody waiting. |
| Streams.WipeEmpties | src/ic-websocket-cdk/src/state.rs:41-74 | A wipe leaves no client and no gateway, and every on_open matched by an on_close. |
| Streams.RunLedger | src/ic-websocket-cdk/src/state.rs:303-353 | The bookkeeping behind the stream theorems holds after every run. |
| Retention.LeadingOverdueExact | src/ic-websocket-cdk/src/types.rs:249-275 | On times in order, the deletion loop stops after exactly those of the first n entries that are overdue. |
| Retention.TrimExact | src/ic-websocket-cdk/src/types.rs:245-275 | A send deletes exactly those of the five oldest queued messages that have outlived the ack interval. |
| Retention.NoMessageLostEarly | src/ic-websocket-cdk/src/state.rs:114-142 | A step other than a wipe either keeps a queued message unchanged under its nonce or the message's age strictly exceeds the ack interval, by deletion as by gateway expiry. |
| Retention.DeletedOnlyByAge | src/ic-websocket-cdk/src/state.rs:480-495 | Whatever a registration has deleted by the end of a run was at some step of it still queued, overdue, and deleted. |
| Retention.DrainRate | src/ic-websocket-cdk/src/state.rs:480-495 | While the interval is unchanged, k messages sent through a gateway delete at least min(s, 5k) of s overdue ones, whatever else happens in between. |
| Polling.EndFlagTruth | src/ic-websocket-cdk/src/state.rs:379-384 | The end-of-queue flag says whether the batch reaches the end, exactly unless the maximum is zero while messages remain. |
| Polling.AnswerLength | src/ic-websocket-cdk/src/state.rs:379-384 | A poll returns the configured maximum or, if that is less, all there is from the cursor on; a non-empty reply claims the end exactly in the second case. |
| Polling.MissesNothingIff | src/ic-websocket-cdk/src/state.rs:374-391 | While a registration lasts, a reader from any cursor has been given or seen deleted everything below its cursor, if and only if it did not start past the oldest message still queued. |
| Polling.SafeCursors | src/ic-websocket-cdk/src/state.rs:374-391 | For all continuations at once, as a test before the first poll: nothing is ever missed if and only if the cursor is not past the oldest queued message. |
| Polling.StaleCursorMisses | src/ic-websocket-cdk/src/state.rs:374-377 | No poll returns a nonce below the cursor, whatever happens in between, also when the gateway registers again. |
| Failures.RestartLosesMessage | src/ic-websocket-cdk/src/state.rs:116-142 | A possible run in which a registration of one message expires and a second starts at nonce 0: a poller that read the first is told that there is nothing to read and no further poll returns the new message. |
| Failures.EndFlagLies | src/ic-websocket-cdk/src/state.rs:425-427 | A possible run after which a canister with maximum zero claims the end of a queue it has not begun to return. |
| Failures.WipeLeavesRoot | src/ic-websocket-cdk/src/state.rs:65-67 | A possible run after which the tree is empty and the certified data is the root of a tree that was not. |
| Polling.SentIsPolled | src/ic-websocket-cdk/src/lib.rs:261-264 | After a send, a gateway that had read everything polls exactly that message: its bytes under its connection's next sequence number. |
| Replies.SentBytesArePolled | src/ic-websocket-cdk/src/state.rs:604-614 | The same as the reply itself: one message under the next key, whose content is the serialization of the application's very bytes with the next sequence number and the present time. |
| Polling.PollToEndYieldsSuffix | src/ic-websocket-cdk/src/state.rs:414-439 | Polling an otherwise idle canister to the end flag terminates and yields all the queue holds from the cursor on. |
| Polling.ExactlyOnce | src/ic-websocket-cdk/src/state.rs:362-439 | From any cursor, polls interleaved with any steps of one registration deliver strictly increasing nonces, each the message sent under it, passing over only deleted ones; the next cursor is one past the last message. |
| Replies.KeyCursorCounts | src/ic-websocket-cdk/src/tests/integration_tests/utils/messages.rs:67-77 | The number read back from the last returned key, plus one, is the cursor one past the last message. |
| Replies.RepliesExactlyOnce | src/ic-websocket-cdk/src/tests/integration_tests/utils/messages.rs:67-77 | Exactly-once delivery on the canister's replies, with the cursor parsed from keys: nonces in the keys increase, each reply is the message sent under its nonce with its content, and every other one at or above the first cursor was deleted. |
| Polling.SkippedWereOverdue | src/ic-websocket-cdk/src/types.rs:245-275 | A nonce passed over was deleted at an earlier step because its message had outlived the ack interval. |
| Delivery.RunRecorded | src/ic-websocket-cdk/src/state.rs:459-476 | After every run the gateways' histories and the log of sent messages are the same messages under the same nonces. |
| Delivery.HistoryInOrder | src/ic-websocket-cdk/src/state.rs:580-631 | In a gateway's history each connection's messages come in sequence-number order. |
| Delivery.HistoryComplete | src/ic-websocket-cdk/src/state.rs:580-631 | Every earlier message of a connection stands at an earlier nonce of the same history. |
| Delivery.DeliveredInOrder | src/ic-websocket-cdk/src/tests/integration_tests/utils/messages.rs:67-77 | What polling delivers of one connection is in strictly increasing sequence-number order over any run. |
| Delivery.DeliveredWithoutGap | src/ic-websocket-cdk/src/tests/integration_tests/utils/messages.rs:67-77 | Before message t of a connection every earlier one was delivered, except those deleted for their age at some step of the run. |
| Timing.RunTimely | src/ic-websocket-cdk/src/timers.rs:48-72 | The bounds relating last sightings and emptied gateways to the two timers hold after every possible run. |
| Timing.SilenceBound | src/ic-websocket-cdk/src/timers.rs:113-145 | No registered client has been silent, since opening, keep-alive or initialisation, for longer than the ack interval plus 60 s. |
| Timing.KeepAliveExact | src/ic-websocket-cdk/src/timers.rs:113-145 | A check removes a client exactly when its last opening or keep-alive strictly precedes the ack round 60 s earlier. |
| Timing.TimedOutExact | src/ic-websocket-cdk/src/timers.rs:120-134 | For a client the age test of the check is the comparison with the last round. |
| Timing.CheckRemoves | src/ic-websocket-cdk/src/timers.rs:113-145 | A check removes exactly the clients that wait for a keep-alive and are silent for more than 60 s, in any order. |
| Timing.CheckFollowsRound | src/ic-websocket-cdk/src/timers.rs:48-72 | A check that is due was scheduled by an ack round of the run exactly 60 s before. |
| Timing.LastSeenExact | src/ic-websocket-cdk/src/state.rs:539-551 | Over any step a connection that stays keeps its last keep-alive time, unless the step is a keep-alive it sends in sequence; a new one starts with the present. |
| Timing.RetentionUpperBound | src/ic-websocket-cdk/src/state.rs:114-142 | A gateway without clients stays registered no longer than twice the interval after emptying or the last initialisation. |
| Timing.RetentionLowerBound | src/ic-websocket-cdk/src/state.rs:114-142 | Apart from a wipe only a check unregisters a gateway, only one without clients, and only strictly later than an interval after emptying. |
| Timing.NoCheckPending | src/ic-websocket-cdk/src/types.rs:487-491 | Because the interval exceeds the timeout, no check is pending when a round starts. |
| Store.SendAgrees | src/ic-websocket-cdk/src/state.rs:580-631 | The updates of a send to deques, counters, tree and certified root agree with the abstract send. |
| Store.AddAgrees | src/ic-websocket-cdk/src/state.rs:303-312 | Adding a client agrees with a new abstract connection; its gateway is counted and no longer marked for removal. |
| Store.DropAgrees | src/ic-websocket-cdk/src/state.rs:95-112 | Dropping a client agrees with the end of its connection; its gateway's count was positive, so the decrement never saturates. |
| Store.ExpireAgrees | src/ic-websocket-cdk/src/state.rs:133-141 | Unregistering any set of gateways removes their queues and exactly their keys from the tree. |
| Store.CancelCoversAll | src/ic-websocket-cdk/src/timers.rs:39-42 | The two stored ids cover every pending timer, so there are at most two. |
| Store.RestartLeavesOne | src/ic-websocket-cdk/src/lib.rs:64-68 | Cancelling the stored timers leaves nothing pending, and scheduling then leaves exactly the new ack timer. |
| Store.RescheduledAgrees | src/ic-websocket-cdk/src/timers.rs:50-54 | After a round one timer of each kind is pending, at the present plus the interval and plus 60 s. |
| Store.RemovingUnregistered | src/ic-websocket-cdk/src/state.rs:333-335 | Removing an unregistered key leaves maps that some abstract state agrees with exactly if its principal has no live key. |
| Refinement.SendRefines | src/ic-websocket-cdk/src/state.rs:580-631 | In every reachable state a send to a registered client takes none of the early returns, and a send to any other key changes nothing. |
| Refinement.InitRefines | src/ic-websocket-cdk/src/lib.rs:57-69 | Cancelling and scheduling agree with the abstract restart, with one pending timer. |
| Refinement.ExpireRefines | src/ic-websocket-cdk/src/state.rs:116-142 | Listed gateways are registered and were emptied in the past, so the subtraction is safe; removing the expired ones agrees with the abstract expiry. |
| Refinement.SilentExact | src/ic-websocket-cdk/src/timers.rs:116-135 | The keys the check collects are those of exactly the timed-out connections, and no last keep-alive lies in the future. |
| Coherence.AgreeingIsSound | src/ic-websocket-cdk/src/state.rs:19-38 | All laws of the maps below, in every state that agrees with a reachable one. |
| Coherence.ClientMaps | src/ic-websocket-cdk/src/state.rs:185-193 | The client maps have the same keys, the current-key map gives each principal its only registered key, and the waiting set is a part of the clients. |
| Coherence.Accounting | src/ic-websocket-cdk/src/state.rs:76-112 | A gateway's count is the number of registered clients naming it, clients' gateways are registered and counted, and the gateways listed for removal are exactly those with count zero. |
| Coherence.QueueIsShaped | src/ic-websocket-cdk/src/types.rs:194-205 | Queued keys carry contiguous nonces up to the next one; the deques are equally long; times are sorted, not in the future, and not after the gateway's emptying. |
| Coherence.TreeIndex | src/ic-websocket-cdk/src/state.rs:445-511 | The tree holds exactly the keys of queued messages, each with the hash of its content; different messages have different keys; the certified data is the root of the tree certified last. |
| Coherence.CertifiedExactly | src/ic-websocket-cdk/src/state.rs:40-74 | The certified tree is the present one if and only if there was a certification since the creation or the last wipe, or the empty tree was certified before; so always while a message is queued. |
| Coherence.TimersFollow | src/ic-websocket-cdk/src/timers.rs:39-72 | At most one timer of each kind is pending, under the stored ids, and a check only beside an ack timer. |
| Witness.PartitionPoint | src/ic-websocket-cdk/src/state.rs:377 | Binary search: the index separates the keys below the given one from the rest. |
| Witness.QueueOrder | src/ic-websocket-cdk/src/state.rs:374-377 | In a queue, being below the cursor's key as a string is being below it as a nonce. |
| Witness.SearchIsClamp | src/ic-websocket-cdk/src/state.rs:375-377 | The search on strings finds the cursor clamped to the range of queued nonces. |
| Witness.WitnessExact | src/ic-websocket-cdk/src/state.rs:513-525 | Between the first and last returned key the tree holds exactly the returned messages' keys, each with its content's hash. |
| Witness.ExactMeans | src/ic-websocket-cdk/src/state.rs:513-525 | The same as a statement about the disclosed tree's keys and values. |
| Store.SendLast | src/ic-websocket-cdk/src/state.rs:580-631 | A successful send as a value: the message at the end of the queue, from the arguments. |
| Outcomes.OnTheWire | src/ic-websocket-cdk/src/state.rs:604-629 | A queued message stands in its gateway's deque under its key, serialized with an application message's bytes as they are or with a service message's Candid encoding. |
| Outcomes.NewStays | src/ic-websocket-cdk/src/types.rs:249-275 | A message sent now is not deleted by anything else that happens now. |
| Outcomes.FarewellOutcome | src/ic-websocket-cdk/src/state.rs:319-328 | After a removal with a reason the gateway's queue holds that close message for the client, under the nonce and number next before, whatever the handler sent. |
| Outcomes.LeaveOutcome | src/ic-websocket-cdk/src/state.rs:330-346 | A removal takes exactly one key out of the clients and the principal out of the current keys. |
| Outcomes.EmptiedOutcome | src/ic-websocket-cdk/src/state.rs:95-112 | If the client was its gateway's last, the gateway is listed with the present time. |
| Outcomes.RoundOutcome | src/ic-websocket-cdk/src/timers.rs:77-104 | For every registered key an acknowledgement of this round, with its nonce, number and content. |
| Outcomes.RoundKeeps | src/ic-websocket-cdk/src/timers.rs:77-107 | A round registers and removes nobody and leaves everybody waiting. |
| Outcomes.CheckOutcome | src/ic-websocket-cdk/src/timers.rs:113-145 | Who is left after a check, by the waiting set and the times, and the close messages of the others. |
| Outcomes.ExpiryOutcome | src/ic-websocket-cdk/src/state.rs:114-142 | Which gateways are left after a check, by the list and the interval. |
| Outcomes.OpenOutcome | src/ic-websocket-cdk/src/lib.rs:80-117 | Which keys are registered after an opening, the new key's entries in every map, and that its gateway is not listed for removal. |
| Outcomes.MessageOutcome | src/ic-websocket-cdk/src/lib.rs:209-220 | What a message with the right number adds to the log, to the expected number and to the time of the last keep-alive. |
| Outcomes.MessageReply | src/ic-websocket-cdk/src/lib.rs:171-220 | The answer to every message, by the current keys and the expected numbers. |
| Registered.RegisteredGateway.DeleteOldMessages | src/ic-websocket-cdk/src/types.rs:249-275 | Pops both deques alike; returns the deleted keys in order; on sorted times deletes exactly the overdue of the oldest n. |
| Registered.RegisteredGateway.DecrementClientsCount | src/ic-websocket-cdk/src/types.rs:229-232 | The count decreases by one unless it is zero; nothing else changes. |
| Registered.RegisteredGateway.IncrementClientsCount | src/ic-websocket-cdk/src/types.rs:224-226 | One more client; nothing else changes. |
| Registered.RegisteredGateway.IncrementNonce | src/ic-websocket-cdk/src/types.rs:219-221 | The next nonce; nothing else changes. |
| Registered.RegisteredGateway.AddMessageToQueue | src/ic-websocket-cdk/src/types.rs:235-244 | Message and time are appended to the two deques together. |
| Registered.RegisteredClient.UpdateLastKeepAliveTimestamp | src/ic-websocket-cdk/src/types.rs:300-302 | The time of the last keep-alive is the present. |
| CanisterState.Canister.constructor | src/ic-websocket-cdk/src/state.rs:19-38 | A new canister agrees with the initial abstract state, has empty maps and no timers, returns at most 50 messages and acknowledges every 300 s. |
| CanisterState.Canister.ValidIsSound | src/ic-websocket-cdk/src/state.rs:19-38 | After any sequence of public calls the canister's fields satisfy every law of `Coherence`. |
| CanisterState.Canister.Init | src/ic-websocket-cdk/src/lib.rs:57-69 | Refused, without any change, exactly for an interval of at most 60000 ms; otherwise the new parameters hold and one timer is pending, due after the interval and every interval from then. |
| CanisterState.Canister.WsOpen | src/ic-websocket-cdk/src/lib.rs:72-118 | Refused exactly for the anonymous caller and for a key already registered. Otherwise the key replaces any other of the caller, its record, numbers and gateway are as given, and the last message of the gateway's queue is the serialized open message with number 1. |
| CanisterState.Canister.WsClose | src/ic-websocket-cdk/src/lib.rs:124-139 | Answers by the three checks in their order; a success takes exactly that client out of the maps and, if it was its gateway's last, lists the gateway with the present time. |
| CanisterState.Canister.WsMessage | src/ic-websocket-cdk/src/lib.rs:167-221 | Every outcome by the maps and the message as it came: the two mismatches; a wrong number, with the connection gone and its close message queued; on_message with the message's content; and the three answers to a service message by what its content decodes to. |
| CanisterState.Canister.Send | src/ic-websocket-cdk/src/lib.rs:261-264 | Succeeds exactly for a principal with a current key; the last message of its gateway's queue is then the serialization of the given bytes under the next nonce, number and the present time. |
| CanisterState.Canister.Close | src/ic-websocket-cdk/src/lib.rs:269-275 | Succeeds exactly for a principal with a current key; the client is then out of the maps and its close message, for this reason, in its gateway's queue under the next nonce and number. |
| CanisterState.Canister.Wipe | src/ic-websocket-cdk/src/state.rs:41-74 | Removes every client, in any order, and empties every map and the tree. |
| CanisterState.Canister.WsGetMessages | src/ic-websocket-cdk/src/lib.rs:224-231 | The slice of the caller's queue from the cursor on, no longer than the maximum, with the end flag; the tree holds exactly the returned keys with their contents' hashes, and the certificate is that of the tree's root. The same messages as the abstract answer. |
| CanisterState.Canister.GetMessagesForGatewayRange | src/ic-websocket-cdk/src/state.rs:362-391 | The range found by searching string keys is the one that arithmetic on nonces, queue length and the configured maximum selects. |
| CanisterState.Canister.GetMessagesForGateway | src/ic-websocket-cdk/src/state.rs:393-411 | Every index is present; the result is that slice of the queue. |
| CanisterState.Canister.GetCertMessages | src/ic-websocket-cdk/src/state.rs:414-439 | As WsGetMessages, for a registered gateway. |
| CanisterState.Canister.WsSend | src/ic-websocket-cdk/src/state.rs:580-631 | For any map contents, which failure is reported and what has been done by then: a missing sequence number leaves the nonce incremented. |
| CanisterState.Canister.SendServiceMessageToClient | src/ic-websocket-cdk/src/state.rs:571-577 | In a coherent state a registered client's message is always sent: the queue ends with the serialization of its Candid encoding under the next nonce and number. |
| CanisterState.Canister.TakeNumbers | src/ic-websocket-cdk/src/state.rs:588-606 | The nonce before and the sequence number after incrementing, with the early returns between. |
| CanisterState.Canister.IncrementOutgoingMessageNonce | src/ic-websocket-cdk/src/state.rs:171-183 | Increments a registered gateway's nonce only. |
| CanisterState.Canister.IncrementOutgoingMessageToClientNum | src/ic-websocket-cdk/src/state.rs:259-270 | Increments an initialised client's number only. |
| CanisterState.Canister.DeleteOldMessagesForGateway | src/ic-websocket-cdk/src/state.rs:480-495 | The gateway's overdue messages leave its deques and the tree together, and the root is certified again. |
| CanisterState.Canister.DeleteKeysFromCertTree | src/ic-websocket-cdk/src/state.rs:497-511 | Exactly the given keys leave the tree and its new root is certified. |
| CanisterState.Canister.PutCertForMessage | src/ic-websocket-cdk/src/state.rs:445-456 | The key maps to the content's hash and the new root is certified. |
| CanisterState.Canister.PushMessageInGatewayQueue | src/ic-websocket-cdk/src/state.rs:459-476 | Appends to a registered gateway's deques only. |
| CanisterState.Canister.AddClient | src/ic-websocket-cdk/src/state.rs:303-312 | All the maps know the new client, its numbers start at 1 and 0, and its gateway counts it. |
| CanisterState.Canister.InsertClient | src/ic-websocket-cdk/src/state.rs:185-193 | The client's record and its principal's current key are replaced together. |
| CanisterState.Canister.IncrementGatewayClientsCount | src/ic-websocket-cdk/src/state.rs:78-89 | The gateway is no longer listed for removal, exists, and counts one more client. |
| CanisterState.Canister.DecrementGatewayClientsCount | src/ic-websocket-cdk/src/state.rs:95-112 | One client fewer; a gateway left without clients is listed with the present time. |
| CanisterState.Canister.DropClient | src/ic-websocket-cdk/src/state.rs:330-346 | The key leaves every map, registered or not; its gateway counts one client fewer if it was. |
| CanisterState.Canister.RemoveClient | src/ic-websocket-cdk/src/state.rs:319-353 | Performs the abstract removal of a registered client: farewell if there is a reason, all maps, on_close and what it sends. |
| CanisterState.Canister.CallOnClose | src/ic-websocket-cdk/src/state.rs:348-351 | Calls the handler once and sends its messages in order, each to whoever is connected then. |
| CanisterState.Canister.SendNow | src/ic-websocket-cdk/src/lib.rs:261-264 | A send as a handler makes it, in the middle of a removal: the queue ends with the serialization of the given bytes. |
| CanisterState.Canister.OpenConnection | src/ic-websocket-cdk/src/lib.rs:101-115 | Registering, sending the open message and calling on_open succeed together. |
| CanisterState.Canister.HandleReceivedServiceMessage | src/ic-websocket-cdk/src/state.rs:553-569 | Only a keep-alive has an effect; undecodable and other service messages are refused. |
| CanisterState.Canister.HandleNumbered | src/ic-websocket-cdk/src/lib.rs:193-220 | The five outcomes of a message from a client's current key, with the connection's fate in each. |
| CanisterState.Canister.HandleKeepAliveClientMessage | src/ic-websocket-cdk/src/state.rs:539-551 | Renews a registered client's time; ignores other keys. |
| CanisterState.Canister.IncrementExpectedIncomingMessageFromClientNum | src/ic-websocket-cdk/src/state.rs:289-301 | Increments an initialised client's expected number only. |
| CanisterState.Canister.AcceptNext | src/ic-websocket-cdk/src/lib.rs:209 | In a coherent state a registered client's increment never fails. |
| CanisterState.Canister.CheckClosable | src/ic-websocket-cdk/src/lib.rs:127-134 | The three checks of a close, in their order. |
| CanisterState.Canister.InitMessageNums | src/ic-websocket-cdk/src/state.rs:306-309 | The expected incoming number starts at 1, the outgoing number at 0. |
| CanisterState.Canister.EnsureGateway | src/ic-websocket-cdk/src/state.rs:83-87 | An unknown gateway is registered with empty deques, nonce 0 and count 0; a known one stays as it is. |
| CanisterState.Canister.AddClientToWaitForKeepAlive | src/ic-websocket-cdk/src/state.rs:238-242 | The key joins the waiting set. |
| CanisterState.Canister.ClientKeysToRemove | src/ic-websocket-cdk/src/timers.rs:116-135 | The waiting keys registered and silent for more than 60 s, with a subtraction that cannot underflow. |
| CanisterState.Canister.UnregisterGateway | src/ic-websocket-cdk/src/state.rs:133-141 | The gateway's record goes and exactly its queued keys leave the tree. |
| CanisterState.Canister.TrimQueue | src/ic-websocket-cdk/src/state.rs:485-490 | The expired prefix leaves both deques and its keys are returned. |
| CanisterState.Canister.GetRegisteredClient | src/ic-websocket-cdk/src/state.rs:195-202 | The record of a registered key, or which key is not connected. |
| CanisterState.Canister.GetClientKeyFromPrincipal | src/ic-websocket-cdk/src/state.rs:204-213 | The principal's current key, or which principal is not connected. |
| CanisterState.Canister.AdvanceTime | src/ic-websocket-cdk/src/timers.rs:48-72 | Time passes up to the next deadline and changes nothing else. |
| CanisterState.Canister.SendAckToClients | src/ic-websocket-cdk/src/timers.rs:77-107 | The loop over clients performs an ack round in some order that visits each client once. |
| CanisterState.Canister.AckOne | src/ic-websocket-cdk/src/timers.rs:78-103 | Neither ignored error occurs, the subtraction does not underflow, and the client waits for a keep-alive. |
| CanisterState.Canister.AckTimerFires | src/ic-websocket-cdk/src/timers.rs:48-57 | Each client's gateway queue holds a new message for it whose content is the serialized acknowledgement of the number before the expected one; everybody waits; the check is due in 60 s and the interval timer again after the interval. |
| CanisterState.Canister.RemoveEmptyExpiredGateways | src/ic-websocket-cdk/src/state.rs:116-142 | Exactly the gateways emptied longer than an interval ago go, with their tree keys, in any order. |
| CanisterState.Canister.TakeExpired | src/ic-websocket-cdk/src/state.rs:117-131 | The filtering loop takes exactly the expired entries off the list, each once. |
| CanisterState.Canister.RemoveAll | src/ic-websocket-cdk/src/timers.rs:137-138 | The loop removes each of the given clients once, in some order. |
| CanisterState.Canister.CheckClients | src/ic-websocket-cdk/src/timers.rs:113-148 | Gateways expire first; then exactly the timed-out clients are removed with a close message. |
| CanisterState.Canister.CheckKeepAliveTimerFires | src/ic-websocket-cdk/src/timers.rs:63-72 | The clients left are exactly those not both waiting and silent for more than 60 s; the others' close messages are in their queues; the gateways left are exactly those not listed for longer than the interval; only this timer is no longer pending. |
| CanisterState.Canister.CancelTimers | src/ic-websocket-cdk/src/timers.rs:39-42 | No id is stored and no stored timer pending any more, every other timer as before; in a disciplined state nothing is pending at all. |
| CanisterState.Canister.CancelAckTimer | src/ic-websocket-cdk/src/timers.rs:23-27 | The stored ack timer, if any, is forgotten and no longer pending; all other timers stay. |
| CanisterState.Canister.CancelKeepAliveTimer | src/ic-websocket-cdk/src/timers.rs:33-37 | Likewise for the keep-alive timer. |
| CanisterState.Canister.ScheduleSendAckToClients | src/ic-websocket-cdk/src/timers.rs:48-57 | Exactly one more timer is pending: the stored one, due after the interval and every interval from then; all others stay. |
| CanisterState.Canister.ScheduleCheckAndRearm | src/ic-websocket-cdk/src/timers.rs:50-72 | After a round the check is due in 60 s and the interval timer again after the period it was scheduled with. |

## Left out

- 64-bit counters are unbounded numbers; polling requires that a gateway has sent at most 2^64 messages, the others have no bound to respect.
- Application handlers other than by what they send. The on_close handler's messages are part of the step; on_open and on_message handlers run last in their entry points, so their sends are the next steps of the run. A handler that calls other entry points is not modelled (the source forbids `close` in on_close).
- Handlers that are not set: an absent handler is one that sends nothing.
- Candid, CBOR, SHA-256, the hash tree's structure and the system certificate: library code; the witness is the map of entries that it discloses.
- Timers of the runtime: deadlines are ideal, and a one-shot timer counts as pending until its callback has ended.
- Memory details: cell borrowing and cloning of records.
- The printing macros, the Candid interface files, the test canister and the deprecated aliases.
- CanisterState.Canister.RemoveClient: stated for registered keys, as all callers establish; the effect on any other key is stated by `CanisterState.Canister.DropClient` and judged by `Store.RemovingUnregistered`.
- Timing.RetentionUpperBound: counts from the last initialisation if that is later than the emptying, because initialising again restarts the timers.
- Retention.DrainRate: excludes re-initialisation, because a longer interval makes overdue messages current again.
- Retention.NoMessageLostEarly: excludes the wipe, which the source reserves for tests.
