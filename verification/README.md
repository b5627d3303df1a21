# HIL interface stack: a verified model

This project models the protocol core of a hardware-in-the-loop interface stack and proves what it promises.
Everything is one Dafny program; `dafny verify dfyconfig.toml` checks all of it.

| part | files | what is modelled |
|---|---|---|
| shared | `Common`, `Catalogue`, `Messages`, `Ordered`, `Struct`, `Endian` | codes and results, the contract's catalogue, messages, insertion-ordered dictionaries, packed integers |
| wire and reassembly | `Wire`, `Video`, `Payload`, `Reassembly`, `Reassembler`, `Delivery`, `Transfers` | framing on CAN FD and UDP, video packets, packed payload tables, bounded reassembly and what it delivers over a run |
| admission and steps | `Registry`, `SessionRegistry`, `Queue`, `ModelQueue`, `Batch`, `Maintenance`, `Receiver`, `Guards`, `Lifecycle`, `Gateway` | sessions and the lossy replay cache, the input queue, preview-then-commit maintenance, run retirement, storage feedback, lifecycle actions, one packet from bytes to feedback, whole runs |
| resource upload | `Budget`, `Storage`, `Opening`, `ResourceStore`, `WorkDesk`, `ResourceWorker` | the rate budget, the chunk store, the single storage thread and its callers |
| sender | `Dispatch`, `Dispatcher` | the cooperative sender and its record reservation |
| records and captures | `Chain`, `Streams`, `Recorder`, `History`, `Pcap`, `PcapNg` | the persist-before-reclaim recorder and its hash chain, history decoding, capture containers |

## How to read it

Objects whose methods update their fields are classes. Where one has many interacting tables, its tables are also
given as a value (`Tables`, `Store`, `Shelf`, `Desk`, `Assembly`, `Board`), each operation has a specification on that
value, the class methods are proved against it, and invariants and run-wide results are lemmas about it. Ghost
histories record a whole run: admissions, claims and published feedback of the registry; inputs that entered and left
the queue; jobs submitted and answered; transmissions, replies and the ending of every exchange; every row observed.
Because they only ever grow, a statement about them is a statement about the whole run.
The registry's cancellations of storage work are a list; each operation of `Receiver` hands the new ones to the worker.

Time is an integer argument or an answer of the environment. Policy values are arbitrary numbers; only the relations a
property needs are assumed. Message validation is an arbitrary decision that implies the structural facts the schema
fixes, digests are opaque numbers, and checksums arbitrary functions of the bytes they cover. The chain result assumes nothing of its
hash: it names a collision where the chains differ. The source session, the transport, the clocks, the model backend,
the disk and the storage thread's scheduling may answer anything.

## What the proofs show about the code

- **Payload tables.** `encode(decode(raw)) = raw` needs every byte outside the fields to be zero, which `decode` does
  not check; and two names of one enumeration sharing a code do not survive. Both conditions are exact
  (`Payload.EncodeDecode`, `Payload.EnumRoundTrip`).
- **Replay cache.** With a cache above 64 records the refusals at session.py:311-312 and 376-378 cannot be reached
  (`Registry.AlwaysRoom`).
- **Lifecycle.** On the path of a received request (receiver.py:526-600) an applied action other than START leaves
  nothing of its model queued, because the packet's own maintenance removes whatever has no session before the service
  runs (`Gateway.Gateway.Receive`). The service alone does not: called directly, it leaves the inputs of sessions
  revoked or expired earlier queued until the next maintenance (`Gateway.Gateway.ActBehindRevocation`,
  `Lifecycle.NothingRemains`). They are discarded before `begin_step` looks, so the LATE branch at
  model_queue.py:190-191 is never taken in any run (`Gateway.Gateway.Run`).
- **Lifecycle evidence.** The bytes reserved before the model is touched (lifecycle_service.py:401-405) hold every
  record whose receipt has at most two samples more than the step count; a receipt with three more, which is refused
  but kept, can exceed the reservation and so the byte limit (`Lifecycle.EvidenceFits`, `Lifecycle.EvidenceOverruns`).
- **Maintenance.** The order in which rejected inputs are reported is session by session, not the preview's queue
  order; the inputs are the same (`Maintenance.RemovedAsPreviewed`).
- **Sender.** The reservation made at submission suffices for every interleaving: no call of `Record` is ever refused. The branch at
  dispatch.py:323-324 cannot be reached, because an exchange with no deadline set has a fragment left to send.
- **Sender's heartbeat.** `enable_heartbeat` stores the provider before it reads the clock (dispatch.py:224-225); a
  clock that fails there before any reading has succeeded leaves a schedule without a due time, under which every later
  poll that gets as far as the heartbeat breaks on the comparison and enabling again is refused
  (`Dispatcher.UDPDispatcher.EnableHeartbeat`, `Heartbeat`, `Poll`).
- **Recorder.** The refusals at evidence_recorder.py:528-560 cannot be reached while producers only append. The CAN
  stream is saved sender after sender (evidence_archive.py:402), so it is in recording order exactly when the senders
  recorded one after the other; each sender's own rows stay in order (`Streams.SavedInOrder`, `Streams.FromMerged`).

## Model

| member | source | states |
|---|---|---|
| `Wire.Split` | icd_runtime/wire.py:68-91 | Chunking gives exactly ceil(length / chunk size) chunks, none longer than the chunk size |
| `Wire.ChunksJoin` | icd_runtime/wire.py:68-91 | The chunks of a payload concatenate to the payload |
| `Wire.BuildFrames` | icd_runtime/wire.py:68-91 | The loop builds one frame per chunk, in index order, each carrying its own index and the common count |
| `Wire.Encode` | icd_runtime/wire.py:60-91 | Encoding yields those frames, or the first refusal among the header's, the transport's and the fragment count's checks |
| `Wire.ChunkAccepted` | icd_runtime/wire.py:93-113 | Every chunk the sender cuts meets every layout and reservation check of the receiver, which names the sender's own fragment |
| `Wire.EncodeDecode` | icd_runtime/wire.py:68-171 | Round trip: frame i of an encoded message decodes to the fragment with chunk i, for both transports, and the chunks rejoin to the payload |
| `Wire.DecodeCanonical` | icd_runtime/wire.py:133-171 | Only canonical frames are accepted: rebuilding the frame from the decoded fragment gives back the same frame, byte for byte |
| `Wire.Rewrite` | icd_runtime/wire.py:115-131 | Patching header words and checksum of an accepted frame gives the frame of the same fragment under the new header; otherwise the decoder's or the header's own refusal |
| `Wire.UdpPatched` | icd_runtime/wire.py:115-131 | In-place patching of a datagram equals building it afresh with the new header, checksum included |
| `Wire.CanPatched` | icd_runtime/wire.py:115-131 | The same for the CAN FD frame, whose checksum also covers its identifier |
| `Wire.RewriteEncoded` | icd_runtime/wire.py:68-131 | rewrite(encode(m)[i], h) is encode(m under h)[i], for every fragment of every message encodable under both headers |
| `Struct.PackUnpack` | icd_runtime/wire.py:133-171 | A packed record has one encoding per value: packing what was read gives the bytes read |
| `Struct.UnpackPack` | icd_runtime/wire.py:68-91 | Reading a packed record back gives the values written, whatever follows |
| `Struct.PackInto` | icd_runtime/payload.py:24-44 | Overwriting a slice of the buffer in place changes exactly that slice |
| `Video.Encode` | icd_runtime/video.py:58-69 | One packet per chunk, or the refusal of the frame check |
| `Video.ChunkLayout` | icd_runtime/video.py:58-96 | Every chunk of an accepted frame meets the layout check of the receiver |
| `Video.EncodeDecode` | icd_runtime/video.py:58-96 | Every packet of an accepted frame decodes to its own chunk, and the chunks rejoin to the frame |
| `Video.DecodeCanonical` | icd_runtime/video.py:71-96 | Accepted video datagrams are canonical: the fragment determines every byte |
| `Payload.Encode` | icd_runtime/payload.py:24-44 | The buffer filled field by field in place is the specified encoding of the payload |
| `Payload.Decode` | icd_runtime/payload.py:46-73 | Building the dictionary field by field gives the specified decoding, or the first field's refusal |
| `Payload.WrittenOutside` | icd_runtime/payload.py:24-44 | Writing leaves every byte outside all fields alone |
| `Payload.WrittenField` | icd_runtime/payload.py:24-44 | With disjoint fields each field ends up holding its own bytes, whatever is written after it |
| `Payload.ReadAllField` | icd_runtime/payload.py:46-73 | Decoding succeeds only if every field reads, and then holds each field's value |
| `Payload.EnumRoundTrip` | icd_runtime/payload.py:24-73 | Enumeration names survive a round trip exactly when no two names of the table share a code |
| `Payload.DecodeEncode` | icd_runtime/payload.py:12-73 | For any in-bounds table of disjoint fields with unambiguous codes, decode(encode(p)) = p |
| `Payload.EncodeDecode` | icd_runtime/payload.py:12-73 | encode(decode(raw)) = raw for an accepted raw if and only if every byte no field covers is zero; hence always when the fields tile the payload |
| `Reassembly.AdmittedPiece` | icd_runtime/reassembly.py:121-169 | A fragment that passes the stateless checks lies inside its reservation and belongs to the key it is filed under |
| `Reassembly.SweptEffect` | icd_runtime/reassembly.py:108-119 | After a sweep exactly the groups with time left remain, unchanged, and every remaining terminal entry is still inside its retention |
| `Reassembly.SweptInv` | icd_runtime/reassembly.py:108-119 | A sweep keeps the reassembler's invariant |
| `Reassembly.PushInv` | icd_runtime/reassembly.py:155-220 | Whatever a push does, reserved bytes stay the sum of the groups' reservations and within the limit, slots stay within bounds and live deadlines after the last time |
| `Reassembly.GroupWithinReservation` | icd_runtime/reassembly.py:155-203 | The bytes a live group holds never exceed its reservation, nor all reservations the byte limit |
| `Reassembly.DiscardedEffect` | icd_runtime/reassembly.py:82-101 | Discarding a session removes exactly its groups and terminal entries |
| `Reassembler.Reassembler.constructor` | icd_runtime/reassembly.py:35-49 | A new reassembler is empty and satisfies the invariant |
| `Reassembler.Reassembler.Remember` | icd_runtime/reassembly.py:73-77 | Terminal entries are kept newest last and trimmed to the cache size, oldest first |
| `Reassembler.Reassembler.Drop` | icd_runtime/reassembly.py:79-80 | Dropping a group returns exactly its reservation |
| `Reassembler.Reassembler.Expire` | icd_runtime/reassembly.py:108-119 | Reports exactly the overdue groups in order and leaves the swept state |
| `Reassembler.Reassembler.Push` | icd_runtime/reassembly.py:155-220 | Refuses without any change, or sweeps and files the fragment as specified; the outcome and the whole new state are determined |
| `Reassembler.Reassembler.Route` | icd_runtime/reassembly.py:174-201 | A key in the terminal cache is refused with its code; a new group needs its quotas; otherwise the fragment is stored |
| `Reassembler.Reassembler.Store` | icd_runtime/reassembly.py:188-203 | Conflicting header, count, reservation or content drops the whole group; an exact repeat changes nothing; the last missing piece completes it |
| `Reassembler.Reassembler.Refuse` | icd_runtime/reassembly.py:189-197 | A conflict releases the reservation and remembers the refusal |
| `Reassembler.Reassembler.Finish` | icd_runtime/reassembly.py:202-220 | A completed group is released; its key is remembered if completions are retained or validation failed |
| `Reassembler.Reassembler.DiscardSession` | icd_runtime/reassembly.py:82-90 | Exactly the session's groups and terminal entries go, and their reservations return |
| `Reassembler.Reassembler.DiscardInactive` | icd_runtime/reassembly.py:92-101 | Refuses active identities outside 1..2^32-1; otherwise the sessions discarded are exactly those present, nonzero and not active |
| `Reassembler.Reassembler.Clear` | icd_runtime/reassembly.py:103-106 | Everything is released; only the clock floor stays |
| `Delivery.DeliveredAtLastMissing` | icd_runtime/reassembly.py:155-220 | Under any interleaving with other traffic, repeats, sweeps and discards of other sessions, an open transfer is delivered exactly when its last missing index arrives |
| `Delivery.TransferDelivered` | icd_runtime/reassembly.py:155-220 | A transfer whose first fragment fits the quotas and whose fragments come before its deadline delivers the sender's bytes at the arrival that completes it, and at no other of its arrivals up to that one |
| `Delivery.NotDeliveredAgain` | icd_runtime/reassembly.py:73-77 | While the terminal entry of a key is inside its retention and fewer rivals than the cache holds can push it out, every further fragment of that key is refused with the remembered code |
| `Delivery.ReceivingAfter` | icd_runtime/reassembly.py:155-220 | While an index is missing, a transfer's group holds exactly what has arrived of it, whatever else arrives |
| `Delivery.CompletedState` | icd_runtime/reassembly.py:155-220 | The completing arrival closes the group and leaves its terminal entry as the newest |
| `Delivery.DeliveredOnce` | icd_runtime/reassembly.py:73-220 | One whole life of a transfer in any mixed traffic, when completed transfers are retained: pending until the arrival that completes it, delivered there with the sender's bytes, refused as a duplicate ever after inside its retention |
| `Transfers.MessageTransfer` | icd_runtime/wire.py:68-113 | The fragments of any encodable message form one such transfer: same admitted key, under the grant's namespace for an opening, same reservation, contents rejoining to the payload |
| `Transfers.FrameTransfer` | icd_runtime/video.py:58-96 | The packets of any accepted video frame form one such transfer |
| `Transfers.MessageDelivered` | icd_runtime/reassembly.py:73-220 | An encoded message sent through any mixed traffic is delivered once, with the payload the sender encoded, at the arrival of its last missing fragment; every other fragment of it is pending before and refused as a duplicate after |
| `Transfers.FrameDelivered` | icd_runtime/reassembly.py:73-220 | The same for a video frame |
| `Registry.CurrentInv` | icd_gateway/session.py:152-164 | Expiry keeps the registry's invariant |
| `Registry.CurrentIdempotent` | icd_gateway/session.py:152-164 | Expiring again at the same time changes nothing and finds nothing overdue |
| `Registry.RoomyKeeps` | icd_gateway/session.py:308-314 | Making room in the replay cache never evicts a record that waits for storage |
| `Registry.AlwaysRoom` | icd_gateway/session.py:308-312 | With a cache above 64 records there is always one to evict: the refusal at lines 311-312 and 376-378 cannot occur |
| `Registry.FreshOnce` | icd_gateway/session.py:322-389 | A request decided fresh was never admitted before in the run, despite eviction, expiry and revocation; an opening gets a session number never used |
| `Registry.AdmitInv` | icd_gateway/session.py:322-389 | Admission changes sessions, openings and cache consistently and enters the run's history once |
| `Registry.ClaimInv` | icd_gateway/session.py:415-435 | An admission that can be claimed was never claimed before in the run |
| `Registry.RespondInv` | icd_gateway/session.py:437-467 | Storing feedback keeps the invariant provided what was stored is a prefix of it |
| `Registry.DeferralPromise` | icd_gateway/session.py:663-701 | After a passed deferral check, claiming and deferring at the same time succeed |
| `Messages.AckShort` | docs/interfaces/baseline/input-simulator-business-v0.3.schema.json:5319-5421 | An acknowledgement with fields in range has at most 350 canonical bytes |
| `Registry.PairFits` | icd_gateway/session.py:469-492 | Two valid acknowledgements never exceed the feedback bound, so a completion is never refused for its size |
| `Registry.CompletableExactly` | icd_gateway/session.py:523-649 | A consumer's pair completes a request exactly when the request is live, unanswered and served, and the pair answers it as RECEIVED and APPLIED at its target step |
| `SessionRegistry.SessionRegistry.constructor` | icd_gateway/session.py:78-117 | A new registry is empty with an empty history |
| `SessionRegistry.SessionRegistry.Expire` | icd_gateway/session.py:152-164 | Returns the overdue sessions in order, drops overdue openings and records and cancels their storage work |
| `SessionRegistry.SessionRegistry.Accept` | icd_gateway/session.py:322-389 | Refuses, replays exactly the feedback published for that key, or admits freshly; the whole new state is determined |
| `SessionRegistry.SessionRegistry.Allocate` | icd_gateway/session.py:379-389 | Session, opening and admission are entered together under the next number |
| `SessionRegistry.SessionRegistry.Remember` | icd_gateway/session.py:308-314 | One record enters, at most one unpinned oldest leaves |
| `SessionRegistry.SessionRegistry.PreviewOpen` | icd_gateway/session.py:345-389 | Gives the decision an opening would get, allocating nothing |
| `SessionRegistry.SessionRegistry.ClaimAdmitted` | icd_gateway/session.py:431-435 | Succeeds exactly for a live unclaimed admission of this very content, and then is in the claim history once |
| `SessionRegistry.SessionRegistry.RequireAdmitted` | icd_gateway/session.py:398-401 | Gives the reception time of a claimable admission without claiming it |
| `SessionRegistry.SessionRegistry.ObserveAdmitted` | icd_gateway/session.py:403-413 | Checks an admission live without maintenance; only the clock floor moves |
| `SessionRegistry.SessionRegistry.Store` | icd_gateway/session.py:465-467 | Published feedback only ever grows: what a replay returned before is a prefix of what it returns later |
| `SessionRegistry.SessionRegistry.RecordResponse` | icd_gateway/session.py:437-467 | Stores first feedback once, exactly when it is bounded, correlated and session-layer only |
| `SessionRegistry.SessionRegistry.RecordCompletion` | icd_gateway/session.py:469-492 | Stores a consumer's completion pair once, exactly when the consumer holds the operation and the pair completes the live request, and renews its retention |
| `SessionRegistry.SessionRegistry.RecordLifecycle` | icd_gateway/session.py:494-521 | Stores a lifecycle operation's pair once, even when the operation has ended its session |
| `SessionRegistry.SessionRegistry.Preauthorize` | icd_gateway/session.py:289-306 | The first failing check of peer, message kind, session, grant, role and model, on tables brought up to date |
| `SessionRegistry.SessionRegistry.Close` | icd_gateway/session.py:190-201 | Every session and record goes; the history that keeps sequences used stays |
| `SessionRegistry.SessionRegistry.CheckResourceDeferral` | icd_gateway/session.py:685-701 | Passes exactly when a claimable chunk's first reply is its own RECEIVED, fewer than 64 wait and its deadline is ahead |
| `SessionRegistry.SessionRegistry.DeferResourceResponse` | icd_gateway/session.py:663-683 | Pins a claimed chunk until storage finishes or its original deadline |
| `SessionRegistry.SessionRegistry.FinishResourceResponse` | icd_gateway/session.py:703-712 | Appends the storage result to the pinned feedback, unpins it and restarts its retention |
| `SessionRegistry.SessionRegistry.NextFeedbackSequence` | icd_gateway/session.py:391-396 | Feedback numbers count up per session and never wrap |
| `SessionRegistry.SessionRegistry.Revoke` | icd_gateway/session.py:166-170 | The session goes and its storage work is cancelled; the history that keeps its sequences used stays |
| `SessionRegistry.ReplayStored` | icd_gateway/session.py:316-343 | A decision to replay returns exactly what was published for that key |
| `Queue.JudgedFits` | icd_gateway/model_queue.py:94-138 | An input that passes every check fits: capacity, disjoint slots, unclaimed admission, target ahead of the model's step |
| `Queue.EnteredInv` | icd_gateway/model_queue.py:139-146 | Entering a checked input overwrites nothing: slots, writers and bytes stay exactly those of the pending inputs |
| `Queue.LeftInv` | icd_gateway/model_queue.py:148-152 | Removing an input frees exactly its own slots and bytes |
| `Queue.DisjointSlots` | icd_gateway/model_queue.py:127-133 | Two different pending inputs never write one path at one step of a model |
| `Queue.LinkedMoved` | icd_gateway/model_queue.py:172-184 | A model's step may move anywhere below every registered session's pending targets |
| `Queue.LinkedOpened` | icd_gateway/session.py:379-389 | A session opened under a number no pending input carries leaves the queue's link to the registry intact |
| `ModelQueue.ModelQueue.constructor` | icd_gateway/model_queue.py:41-62 | An empty queue, every model at step 0 |
| `ModelQueue.ModelQueue.Enqueue` | icd_gateway/model_queue.py:94-146 | Queues an input and claims its admission together, or refuses with the first failing check and nothing but clock and expiry changed; a queued key was never pending or claimed before |
| `ModelQueue.ModelQueue.Remove` | icd_gateway/model_queue.py:148-152 | One input leaves the tables and enters the list of those that left |
| `ModelQueue.ModelQueue.DiscardSession` | icd_gateway/model_queue.py:154-159 | Removes exactly the session's inputs, in order, and frees the paths it owned |
| `ModelQueue.ModelQueue.Expire` | icd_gateway/model_queue.py:161-170 | Discards session by session, ascending, exactly what no registered session owns |
| `ModelQueue.ModelQueue.BeginStep` | icd_gateway/model_queue.py:172-197 | All that is due leaves once: ready inputs target exactly this step and are under the control timeout, the rest are reported; the LATE branch is never taken |
| `ModelQueue.ModelQueue.OpenStep` | icd_gateway/model_queue.py:184-197 | The step advances and exactly what is due by it leaves; every usable input targets this very step |
| `ModelQueue.ModelQueue.Triage` | icd_gateway/model_queue.py:186-197 | Splits what is due into usable and overtaken, in order, losing none |
| `ModelQueue.ModelQueue.Clear` | icd_gateway/model_queue.py:199-205 | Every input is returned once and every table is empty |
| `ModelQueue.ModelQueue.Close` | icd_gateway/model_queue.py:207-210 | The same, for good |
| `ModelQueue.ModelQueue.MoveStep` | icd_gateway/lifecycle_service.py:460-461 | The step may be set anywhere past which no registered session's input lies |
| `ModelQueue.DueExactly` | icd_gateway/model_queue.py:183-191 | Once stale sessions are discarded, what is due by the next step is due exactly then: nothing is late |
| `ModelQueue.AdmitKeepsLink` | icd_gateway/session.py:322-389 | Admissions while inputs are pending never disturb the queue: session numbers are not reused |
| `ModelQueue.ReadyCommutes` | icd_gateway/model_queue.py:184-197 | The ready inputs of a step write disjoint paths, so applying them in any order gives the same ports |
| `Batch.ApplyAllEffect` | icd_gateway/model_queue.py:127-133 | After a batch of disjoint writes each written path has its own input's content and no other path changed |
| `Batch.OrderIrrelevant` | icd_gateway/model_queue.py:127-133 | Such a batch has the same effect in every order |
| `Batch.PendingDisjoint` | icd_gateway/model_queue.py:127-133 | Inputs pending for one step of one model form such a batch |
| `Maintenance.SessionBySession` | icd_gateway/model_queue.py:154-170 | Discarding session by session removes the same inputs as one pass over the queue |
| `Maintenance.RemovedAsPreviewed` | icd_gateway/model_queue.py:81-87 | The inputs maintenance removes are exactly those previewed, as many and the same, whatever the order |
| `Maintenance.PreviewedSessions` | icd_gateway/session.py:145-164 | The sessions a preview leaves are the sessions maintenance leaves |
| `ModelQueue.BatchFacts` | icd_gateway/model_queue.py:172-205 | What leaves the queue when a step opens is returned once each, ready or refused for its session or its age, never as late |
| `Receiver.Receiver.constructor` | icd_gateway/receiver.py:74-156 | Owners share one registry; no record is held |
| `Receiver.Receiver.Tick` | icd_gateway/receiver.py:162-181 | All or nothing: a refusal leaves every owner untouched; otherwise exactly the previewed sessions and inputs are gone and on record, within capacity |
| `Receiver.Receiver.Purge` | icd_gateway/receiver.py:162-181 | After the preview neither deletion can fail, and both remove what was previewed |
| `Receiver.Receiver.Refresh` | icd_gateway/receiver.py:177-180 | The storage worker's live sessions and the fragments follow the sessions left |
| `Receiver.TrimmedKeeps` | icd_gateway/session.py:152-164 | Expiry keeps every pending input linked to the registry and, its cancellations taken over, the worker's live sessions registered |
| `Receiver.AdmittedTrim` | icd_gateway/session.py:322-389 | A fresh admission keeps both as well |
| `Receiver.Receiver.Preauthorize` | icd_gateway/receiver.py:538 | Authorizing a fragment disturbs no owner |
| `Receiver.Receiver.Push` | icd_gateway/receiver.py:540-545 | A fragment changes the reassembler alone, exactly as its push does |
| `Receiver.Receiver.Admit` | icd_gateway/receiver.py:558 | Admission keeps queue, reassembler and worker valid; a key admitted fresh was never admitted before in the run |
| `Receiver.Receiver.EnqueueInput` | icd_gateway/model_queue.py:94-146 | Queueing keeps every owner valid, under a key never queued before |
| `Receiver.Receiver.BeginStep` | icd_gateway/model_queue.py:172-205 | Opening a step keeps every owner valid; every input that leaves is returned once, none as late |
| `Receiver.Receiver.SubmitChunk` | icd_gateway/resource_worker.py:97-127 | Submitting keeps every owner valid, under a key never submitted before |
| `Receiver.Receiver.RecordReplies` | icd_gateway/session.py:437-467 | Storing feedback keeps every owner valid |
| `Receiver.Receiver.RecordCompletion` | icd_gateway/session.py:469-492 | Storing a completion keeps every owner valid |
| `Receiver.Receiver.RecordLifecycle` | icd_gateway/session.py:494-521 | Storing a lifecycle pair keeps every owner valid and every session |
| `Receiver.Receiver.StorageStep` | icd_gateway/resource_worker.py:226-255 | Any step of the storage thread keeps every owner valid and only adds answers |
| `Receiver.Receiver.DrainStorage` | icd_gateway/resource_worker.py:159-180 | Aborted uploads are asked for once and handed over once |
| `Receiver.Receiver.EndSession` | icd_gateway/receiver.py:232-244 | Refused for a closed or busy receiver or an identity out of range; otherwise the session's inputs are returned and nothing of it is left |
| `Receiver.Receiver.RevokeAlone` | icd_gateway/session.py:166-170 | Revoking in the registry alone keeps every owner valid and leaves the session's inputs behind |
| `Receiver.Receiver.Close` | icd_gateway/receiver.py:343-377 | Every input still queued is returned once; no session or fragment is left |
| `Receiver.Receiver.SweepGroups` | icd_gateway/receiver.py:162-181 | Exactly the fragments of live sessions inside their deadline remain |
| `Receiver.Receiver.ResourceFeedback` | icd_gateway/receiver.py:183-209 | Finished storage jobs are handed on in order until none is left or there is no more room; exactly those are released, each on record once |
| `Receiver.Receiver.FeedbackOne` | icd_gateway/receiver.py:188-208 | Each outcome gets its own correlated reply, now the last stored for its request, or a reason with nothing stored; a retired session always the latter |
| `Receiver.Receiver.FinishReply` | icd_gateway/receiver.py:194-199 | Storing the result disturbs neither the queue nor the worker |
| `Receiver.OutcomeFacts` | icd_runtime/contract.py:166-184 | Every outcome the worker keeps passes the resource feedback validator |
| `Receiver.Receiver.RetireSession` | icd_gateway/receiver.py:232-244 | One session leaves registry, queue, reassembler and storage work; nothing of any other session does |
| `Receiver.Receiver.RetireRun` | icd_gateway/receiver.py:266-341 | Refuses before deleting anything, returns the recorded retirement, or completes: everything captured is gone, recorded, and nothing else is |
| `Receiver.Receiver.Retire` | icd_gateway/receiver.py:313-341 | Once the checks pass the cleanup has no failing path |
| `Receiver.Receiver.ClearInputs` | icd_gateway/lifecycle_service.py:446-450 | Exactly the selected sessions' inputs and fragments go; the sessions stay |
| `Receiver.AllGone` | icd_gateway/receiver.py:330-334 | What is found gone after a cleanup is all that was captured |
| `Guards.DecisionBoundary` | icd_gateway/semantic_guards.py:98-138 | Where each action leaves the model, which actions clear queues or end sessions, and the state it leads to |
| `Lifecycle.SamplesInOrder` | icd_gateway/lifecycle_service.py:277-317 | An accepted STEP was observed safe at each of its steps, in order, at strictly increasing times |
| `Lifecycle.OrphansRemain` | icd_gateway/lifecycle_service.py:440-461 | After the cleanup what remains queued for the model is exactly what belongs to sessions gone before |
| `Lifecycle.NothingRemains` | icd_gateway/lifecycle_service.py:440-461 | Nothing of the model remains queued if and only if no such orphan was there; maintenance removes them |
| `Lifecycle.AheadAfter` | icd_gateway/lifecycle_service.py:440-461 | After any applied action every remaining registered target lies ahead of the model's step, including the rewind to 0 on RESET |
| `Lifecycle.EvidenceFits` | icd_gateway/lifecycle_service.py:155-166 | The reservation holds the evidence of every operation whose receipt has at most two samples more than the step count |
| `Lifecycle.EvidenceOverruns` | icd_gateway/lifecycle_service.py:155-166 | From three samples more on, a receipt of full size does not fit its reservation |
| `Lifecycle.ModelLifecycleService.Conduct` | icd_gateway/lifecycle_service.py:414-490 | The one attempt leaves complete evidence: request, answer, context, receipt, decision, inputs and fragments |
| `Lifecycle.ModelLifecycleService.constructor` | icd_gateway/lifecycle_service.py:169-191 | Nothing attempted, nothing recorded |
| `Lifecycle.ModelLifecycleService.Observe` | icd_gateway/lifecycle_service.py:236-242 | A reading is accepted exactly when it regresses neither behind its floor nor behind the last one |
| `Lifecycle.ModelLifecycleService.Admitted` | icd_gateway/lifecycle_service.py:244-249 | The request is still admitted, live and inside its validity |
| `Lifecycle.ModelLifecycleService.CheckScope` | icd_gateway/lifecycle_service.py:348-358 | Sessions, inputs and fragments are the same as captured and the queue stands where the model was read |
| `Lifecycle.ModelLifecycleService.Prepare` | icd_gateway/lifecycle_service.py:414-428 | A decision is reached only on a checked context, an unchanged scope and, for a new session, room for its evidence |
| `Lifecycle.ModelLifecycleService.Confirm` | icd_gateway/lifecycle_service.py:429-439 | Only a receipt that matches the decision, with the scope unchanged, is confirmed |
| `Lifecycle.ModelLifecycleService.Cleanup` | icd_gateway/lifecycle_service.py:440-464 | Sessions, inputs and fragments go first and the queue step is set last; a failed retirement changes nothing |
| `Lifecycle.ModelLifecycleService.Attempt` | icd_gateway/lifecycle_service.py:414-475 | Unless the action was applied nothing of sessions, inputs or step has changed; if it was, all its effects hold |
| `Lifecycle.ModelLifecycleService.Screen` | icd_gateway/lifecycle_service.py:369-409 | Everything refused before the attempt leaves the receiver as it was |
| `Lifecycle.ModelLifecycleService.Respond` | icd_gateway/lifecycle_service.py:369-493 | A request is attempted at most once; an APPLIED answer means every effect took place and carries the step the queue now stands at; the evidence was reserved before the model was touched |
| `Gateway.Gateway.constructor` | icd_gateway/receiver.py:74-156 | A gateway over one lifecycle service and its receiver |
| `Gateway.Gateway.Operate` | icd_gateway/lifecycle_service.py:369-493 | On a queue without orphans an applied action other than START leaves nothing of its model queued, the queue stands at the step the model reports, and no orphan arises |
| `Gateway.Followed` | icd_gateway/lifecycle_service.py:440-464 | Whatever a lifecycle action does, the inputs left belong to the sessions left |
| `Gateway.ClearedWhole` | icd_gateway/lifecycle_service.py:440-464 | Without orphans an applied action that clears queues leaves nothing of its model |
| `Gateway.Gateway.Arrive` | icd_gateway/receiver.py:526-545 | After maintenance, authorization and decoding at one time, no session is overdue and every pending input belongs to a registered session |
| `Gateway.Gateway.Handle` | icd_gateway/receiver.py:558-629 | A whole message is replayed, refused, or admitted and served; what a lifecycle action applied is settled |
| `Gateway.Gateway.ServeLifecycle` | icd_gateway/receiver.py:591-600 | Received, then carried out once or refused with its failure stored |
| `Gateway.Gateway.ServeChunk` | icd_gateway/receiver.py:611-619 | Received, then queued for the storage thread or refused with its failure stored |
| `Gateway.Gateway.ServeOther` | icd_gateway/receiver.py:601-629 | What another service answers is stored for its request |
| `Gateway.Gateway.Refuse` | icd_gateway/receiver.py:597-600 | A refused request is answered with its reception and a FAILED acknowledgement |
| `Gateway.Gateway.Acknowledge` | icd_gateway/receiver.py:390-401 | An acknowledgement answers the request under a fresh number and is valid itself |
| `Gateway.Gateway.Receive` | icd_gateway/receiver.py:526-629 | One packet from bytes to feedback: after every APPLIED action other than START the queue holds no input of that model, and its step is the one the model reported; every owner stays valid and history only grows |
| `Gateway.Gateway.Apply` | icd_gateway/receiver.py:162-629 | Any packet, maintenance, queueing, step, storage step, feedback, revocation, retirement, direct service call or shutdown keeps every owner valid and only adds to the past |
| `Gateway.Gateway.Run` | icd_gateway/receiver.py:162-629 | Over any run in any interleaving each key is admitted, claimed, queued, taken out, submitted and answered at most once, only claimed keys are queued or submitted, and no input is ever refused as late |
| `Gateway.Gateway.ActAlone` | icd_gateway/lifecycle_service.py:369-493 | The lifecycle service on its own touches no input whose session is not registered |
| `Gateway.Gateway.ActBehindRevocation` | icd_gateway/lifecycle_service.py:369-493 | An input queued, its session revoked in the registry alone, then the service called directly: the input stays queued whatever the action does |
| `Budget.ResourceBudget.constructor` | icd_runtime/resource_budget.py:7-14 | An empty history of grants |
| `Budget.ResourceBudget.Reserve` | icd_runtime/resource_budget.py:24-35 | Grants the previewed due time and appends it to the history, or refuses and changes nothing |
| `Budget.DueIncreases` | icd_runtime/resource_budget.py:24-35 | Due times strictly increase along a run |
| `Budget.RateBound` | icd_runtime/resource_budget.py:24-35 | Over any stretch of a run, bits times 10^9 are at most the rate times the time from first start to last due |
| `Storage.TilesChecked` | icd_gateway/resources.py:264-276 | The forward inspection of tiling chunks reaches exactly their end |
| `Storage.ManifestFits` | icd_gateway/resources.py:248-250 | A manifest of admitted chunks always fits the metadata bound |
| `Storage.PublishedInspects` | icd_gateway/resources.py:243-277 | What is published passes the inspection that reopening performs |
| `Storage.ExtendedFacts` | icd_gateway/resources.py:394-449 | A taken chunk continues the upload without gap or overlap and reaches the declared size exactly when final |
| `Storage.DropTaken` | icd_gateway/resources.py:473-479 | A recorded chunk whose upload fails leaves a consistent store |
| `Storage.WriteTaken` | icd_gateway/resources.py:435-452 | A taken chunk that is not the last leaves a consistent store with a longer upload |
| `Storage.PublishTaken` | icd_gateway/resources.py:453-472 | Publishing leaves a consistent store whose new object passes inspection |
| `Storage.AcceptedInv` | icd_gateway/resources.py:361-479 | Whatever becomes of a chunk: chunks tile [0, offset) below the size, data is their concatenation, evidence equals the requests held, and all counters stay in bounds |
| `Storage.SuccessConsistent` | icd_gateway/resources.py:175-185 | Progress reported for an accepted chunk covers it and is complete exactly when the file is |
| `Storage.FailureConsistent` | icd_gateway/resource_worker.py:182-187 | Progress reported with an error is never complete and never beyond the size |
| `Storage.DrainedInv` | icd_gateway/resources.py:336-341 | Draining returns exactly the evidence of the drained records |
| `Opening.ListedInv` | icd_gateway/resources.py:118-124 | Every directory taken on passes inspection and keeps the store's bounds |
| `Opening.ReopensWhole` | icd_gateway/resources.py:68-132 | Reopening the root of a closed store succeeds, whatever order its directories are found in, with the same manifests and bytes |
| `ResourceStore.ResourceStore.Open` | icd_gateway/resources.py:68-132 | Abandoned staging, a directory that fails inspection or a bound exceeded refuses the root; otherwise the store opens consistent over exactly what was found |
| `ResourceStore.ResourceStore.Accept` | icd_gateway/resources.py:361-479 | Stores a chunk, answers a retry or refuses; a receipt equals the progress then reported |
| `ResourceStore.ResourceStore.Write` | icd_gateway/resources.py:426-479 | The chunk is recorded, written and, if last, published; a failure after recording ends its upload |
| `ResourceStore.ResourceStore.Abort` | icd_gateway/resources.py:299-310 | The upload moves to the aborted records with its requests |
| `ResourceStore.ResourceStore.AbortSession` | icd_gateway/resources.py:312-319 | Exactly the session's uploads end, in order |
| `ResourceStore.ResourceStore.AbortResource` | icd_gateway/resources.py:321-334 | Only its own session may end an upload whose time ran out |
| `ResourceStore.ResourceStore.DrainAborted` | icd_gateway/resources.py:336-341 | Every aborted record is handed over once and its evidence freed |
| `ResourceStore.ResourceStore.Close` | icd_gateway/resources.py:348-359 | Every upload ends once and the store stays closed |
| `WorkDesk.SubmittedInv` | icd_gateway/resource_worker.py:108-127 | A submission overwrites no job: its key was never submitted before |
| `WorkDesk.AnsweredInv` | icd_gateway/resource_worker.py:217-224 | A stored job gets its first and only answer |
| `WorkDesk.ReleasedInv` | icd_gateway/resource_worker.py:151-157 | Releasing a result touches no waiting job |
| `WorkDesk.FailedInv` | icd_gateway/resource_worker.py:259-270 | When the thread fails every job still unanswered gets its one answer |
| `WorkDesk.AllAnswered` | icd_gateway/resource_worker.py:226-285 | Once the thread has ended, everything submitted has been answered, exactly once |
| `WorkDesk.SubmittedOrder` | icd_gateway/resource_worker.py:111-123 | The waiting jobs stay sorted by due time, each due before its validity ends |
| `ResourceWorker.ResourceWorker.constructor` | icd_gateway/resource_worker.py:43-81 | An idle worker with an empty history |
| `ResourceWorker.ResourceWorker.Submit` | icd_gateway/resource_worker.py:97-127 | Either refused, with desk and budget unchanged, or claimed, paced and queued behind everything due earlier |
| `ResourceWorker.ResourceWorker.Screen` | icd_gateway/resource_worker.py:98-115 | The refusal, if any, is that of the first failing check, in order |
| `ResourceWorker.ResourceWorker.Claim` | icd_gateway/resource_worker.py:116-118 | After the screening neither the claim nor the deferral of the first reply can be refused |
| `ResourceWorker.ResourceWorker.Commit` | icd_gateway/resource_worker.py:119-127 | The due time reserved is the one previewed and later than every one before |
| `ResourceWorker.ResourceWorker.Synchronize` | icd_gateway/resource_worker.py:129-138 | Takes over the live sessions unless the clock regresses or the worker is unavailable |
| `ResourceWorker.ResourceWorker.CancelSession` | icd_gateway/resource_worker.py:144-149 | Only the live set shrinks |
| `ResourceWorker.ResourceWorker.ReleaseResult` | icd_gateway/resource_worker.py:151-157 | Frees exactly a finished job's bytes; its answer stays in the history |
| `ResourceWorker.ResourceWorker.Pick` | icd_gateway/resource_worker.py:230-247 | Cleanup first, then a drain, then the head of the queue once due, cancelled or closing; ends only when closing and empty |
| `ResourceWorker.ResourceWorker.StoreJob` | icd_gateway/resource_worker.py:189-203 | A cancelled, closing or overdue job never touches the store |
| `ResourceWorker.ResourceWorker.AnswerJob` | icd_gateway/resource_worker.py:204-224 | Exactly one answer, with the final error the races decide and a consistent payload |
| `ResourceWorker.ResourceWorker.Report` | icd_gateway/resource_worker.py:212-218 | The payload reported passes the feedback conditions in every case |
| `ResourceWorker.ResourceWorker.FinishAbort` | icd_gateway/resource_worker.py:248-251 | The session's uploads end and it is no longer tracked |
| `ResourceWorker.ResourceWorker.FinishDrain` | icd_gateway/resource_worker.py:252-256 | The drain hands over all aborted records |
| `ResourceWorker.ResourceWorker.BeginClose` | icd_gateway/resource_worker.py:292-295 | Closing cancels every session |
| `ResourceWorker.ResourceWorker.Fail` | icd_gateway/resource_worker.py:259-270 | A fatal error answers every unanswered job once and stops the thread |
| `ResourceWorker.ResourceWorker.Advance` | icd_gateway/resource_worker.py:226-270 | One step of the storage thread from wherever it stands; answers are only added |
| `ResourceWorker.ResourceWorker.RequestDrain` | icd_gateway/resource_worker.py:168-174 | A drain is requested once and refused only of a worker that has ended |
| `ResourceWorker.ResourceWorker.TakeDrained` | icd_gateway/resource_worker.py:175-180 | What was drained is taken once |
| `ResourceWorker.ResourceWorker.Finalize` | icd_gateway/resource_worker.py:271-285 | By the end submitted and answered keys are the same, each once |
| `Dispatch.SubmissionCovered` | input_simulator/dispatch.py:185-209 | The reservation made at submission, less its own record, covers every transmission, eight replies and a terminal record |
| `Dispatch.PreviewLongest` | input_simulator/dispatch.py:180-186 | No real request is longer than the preview that sized its reservation (decimal lengths of its counters) |
| `Dispatch.SameSizes` | input_simulator/dispatch.py:183-204 | The real datagrams are as many and as long as the previewed ones |
| `Dispatch.TxCovered` | input_simulator/dispatch.py:346-366 | Recording a transmission leaves what can still be sent and recorded covered |
| `Dispatch.RxCovered` | input_simulator/dispatch.py:241-289 | Recording a bounded reply leaves the rest covered |
| `Dispatch.LastCovered` | input_simulator/dispatch.py:161-166 | There is always room for the terminal record |
| `Dispatch.NotedInv` | input_simulator/dispatch.py:148-159 | Recording keeps the books balanced: used is what is kept, reserved is what exchanges hold, both within the limits |
| `Dispatch.EndedInv` | input_simulator/dispatch.py:161-166 | Ending an exchange returns exactly what it had left |
| `Dispatch.StoryBounded` | input_simulator/dispatch.py:291-378 | An exchange on the books has recorded exactly the transmissions of its attempts so far, never more than fragments times attempts, and fewer than eight replies |
| `Dispatch.RestartedInv` | input_simulator/dispatch.py:311-321 | A retry spends nothing of the reservation |
| `Dispatcher.UDPDispatcher.constructor` | input_simulator/dispatch.py:59-93 | Empty books |
| `Dispatcher.UDPDispatcher.Record` | input_simulator/dispatch.py:148-159 | Records exactly when the exchange's own reservation holds the record; otherwise nothing changes |
| `Dispatcher.UDPDispatcher.Finish` | input_simulator/dispatch.py:161-166 | The terminal record always fits; the exchange ends once and for all |
| `Dispatcher.UDPDispatcher.CheckLease` | input_simulator/dispatch.py:168-172 | While the lease lives nothing changes; after it every exchange ends FAILED |
| `Dispatcher.UDPDispatcher.Submit` | input_simulator/dispatch.py:174-210 | Refused with nothing reserved, or entered whole under a sequence never used, with unambiguous feedback and its record within the reservation |
| `Dispatcher.Sizing` | input_simulator/dispatch.py:183-204 | Count, bytes and request length reserved from the preview bound the real ones |
| `Dispatcher.UDPDispatcher.Enter` | input_simulator/dispatch.py:204-209 | Entering and recording a submission balances the books |
| `Dispatcher.UDPDispatcher.NoteSent` | input_simulator/dispatch.py:346-366 | The transmission record always fits, even with a failed clock; the exchange advances by one fragment |
| `Dispatcher.UDPDispatcher.NoteReply` | input_simulator/dispatch.py:281-282 | The reply record always fits below the eighth |
| `Dispatcher.UDPDispatcher.TakeReply` | input_simulator/dispatch.py:252-289 | An exchange completes if and only if the reply is bounded, checked, in lease, in time, terminal and without error; exactly when it goes on, times out or moves the lease |
| `Dispatcher.UDPDispatcher.Receive` | input_simulator/dispatch.py:241-289 | Replies only touch exchanges already sent in full; the lease never moves back |
| `Dispatcher.UDPDispatcher.Await` | input_simulator/dispatch.py:305-330 | May send exactly when it is its turn and time, attempt, validity and group limits allow; times out exactly when they say so |
| `Dispatcher.UDPDispatcher.SendOne` | input_simulator/dispatch.py:331-366 | A fragment goes out only with permission and transport, is recorded once and advances its own exchange only |
| `Dispatcher.UDPDispatcher.AfterSent` | input_simulator/dispatch.py:359-373 | A failed clock, an ended lease or a late heartbeat end the exchange; otherwise nothing changes |
| `Dispatcher.UDPDispatcher.Turn` | input_simulator/dispatch.py:296-373 | One exchange's turn leaves every other exchange alone unless an error is raised |
| `Dispatcher.UDPDispatcher.Transmit` | input_simulator/dispatch.py:291-378 | At most 64 fragments, the count returned being the transmissions recorded; first transmissions follow the order of sequences |
| `Dispatcher.UDPDispatcher.Heartbeat` | input_simulator/dispatch.py:227-239 | A late tick ends the schedule and is never caught up; a due one is submitted and the schedule advances one period; without a due time the comparison breaks |
| `Dispatcher.UDPDispatcher.EnableHeartbeat` | input_simulator/dispatch.py:216-225 | A schedule is enabled once; it is left without a due time exactly when no reading ever succeeded and the clock fails after the provider is stored |
| `Dispatcher.UDPDispatcher.Poll` | input_simulator/dispatch.py:380-386 | Whatever session, transport and clocks answer, one poll keeps the books and ends no exchange twice; under a schedule without a due time no poll completes, and it stays so |
| `Dispatcher.UDPDispatcher.Cancel` | input_simulator/dispatch.py:407-418 | Ends exactly the one exchange |
| `Dispatcher.UDPDispatcher.Close` | input_simulator/dispatch.py:388-405 | Every exchange ends; the dispatcher stays closed |
| `Dispatcher.UDPDispatcher.DrainRecords` | input_simulator/dispatch.py:420-427 | Every record is handed over once; reservations are untouched |
| `Chain.CountsSaved` | input_simulator/evidence_recorder.py:85-92 | The counts a link ends with are the lengths of what is saved up to it, stream by stream |
| `Chain.TipDetermines` | input_simulator/evidence_recorder.py:66-100 | Two accepted chains with one tip are the same chain, segment by segment, or the hash has collided |
| `Chain.ReadChain` | input_simulator/evidence_recorder.py:668-762 | Accepts exactly the non-empty linked chains of one run, format and channel within the running limits and matching the trusted count and tip |
| `Chain.ReadableWithin` | input_simulator/evidence_recorder.py:704-733 | A chain is read whole by any reader whose limits are not below its totals |
| `Recorder.Producer.Append` | input_simulator/evidence_recorder.py:374-391 | A row appended is live and charged |
| `Recorder.Producer.Reclaim` | input_simulator/evidence_recorder.py:571-589 | The rows given up are a prefix; a log gives back exactly what they were charged, a history keeps its rows |
| `Streams.FromMerged` | input_simulator/evidence_archive.py:397-403 | From the one saved stream of several senders each sender's rows can be told, in order |
| `Streams.MergedAlone` | input_simulator/evidence_archive.py:397-403 | A stream with one producer is that producer's rows |
| `Streams.SavedInOrder` | input_simulator/evidence_archive.py:397-403 | A stream saved sender after sender is in recording order if and only if no row of a later sender came before a row of an earlier one |
| `Streams.TakingTurns` | input_simulator/evidence_archive.py:402 | Two senders taking turns are not saved in recording order |
| `Recorder.ObservationRecorder.constructor` | input_simulator/evidence_recorder.py:147-258 | Everything present at attachment counts as observed; several producers may share a stream |
| `Recorder.ObservationRecorder.Observe` | input_simulator/evidence_recorder.py:374-391 | Rows appended during a write disturb neither the job nor what was saved |
| `Recorder.ObservationRecorder.Flush` | input_simulator/evidence_recorder.py:432-482 | One job at a time saves everything then live, continuing the chain; a refusal changes nothing |
| `Recorder.ObservationRecorder.WriteEnds` | input_simulator/evidence_recorder.py:484-497 | The writer's end alone reclaims nothing |
| `Recorder.ObservationRecorder.PollJob` | input_simulator/evidence_recorder.py:503-596 | Commits if and only if the job was written and read back unchanged; then all streams reclaim exactly what was saved, otherwise none does |
| `Recorder.ObservationRecorder.ReclaimAll` | input_simulator/evidence_recorder.py:571-589 | In every stream what was live is the saved rows followed by what is still live |
| `Recorder.ObservationRecorder.Commit` | input_simulator/evidence_recorder.py:571-595 | For every producer the rows saved from it followed by its live rows remain every row it ever recorded, in order; a stream of one producer is saved as recorded |
| `Recorder.ObservationRecorder.Close` | input_simulator/evidence_recorder.py:598-665 | Seals the counts of what was not persisted; nothing is dropped |
| `Recorder.ObservationRecorder.ReadsBack` | input_simulator/evidence_recorder.py:668-733 | Whatever the recorder has committed, the reader accepts under the recorder's own tip, and its counts are exact |
| `History.PushedEffect` | input_simulator/history.py:289-300 | After the explicit sweep a push meets nothing overdue: it adds its piece or completes its group |
| `History.Feed` | input_simulator/history.py:294-307 | The decoder's own groups and the reassembler's stay in one-to-one correspondence, with the same pieces, at every push |
| `History.SweepBefore` | input_simulator/history.py:289-290 | A group overdue at a packet refuses the whole capture |
| `History.DecodeDomain` | input_simulator/history.py:277-314 | Every packet of the domain ends in exactly one record and nothing is left incomplete |
| `History.SplitDomains` | input_simulator/history.py:266-273 | Succeeds exactly when no packet precedes its epoch or goes back in its domain; the lists partition the packets |
| `History.SortRecords` | input_simulator/history.py:317 | The records come in the order of their first packets, none gained or lost |
| `History.Decode` | input_simulator/history.py:266-317 | If decoding succeeds, the records partition the capture, are strictly ordered by first packet, and each message is assembled from exactly its own packets |
| `History.Partitioned` | input_simulator/history.py:266-317 | In a decoded capture every packet is in some record and in no two |
| `Pcap.PcapEnvelopes` | input_simulator/_capture_envelopes.py:59-80 | The loop over the file gives the parsed packets or the first refusal |
| `Pcap.ParseExactly` | input_simulator/_capture_envelopes.py:49-80 | The parser returns a format and packets if and only if the file is exactly their container, all legal and within the limit |
| `Pcap.ExactTime` | input_simulator/_capture_envelopes.py:36-42 | Every PCAP packet has an exact time in nanoseconds, within 64 bits, for both resolutions |
| `Pcap.PcapBytes` | input_simulator/reference_pcap.py:105-120 | Writes the container of the frames, exactly when every frame and timestamp is legal |
| `Pcap.RoundTrip` | input_simulator/reference_pcap.py:105-120 | Writing then parsing gives back the frames and their timestamps to the nanosecond, for any list within the limit |
| `PcapNg.ReadOptions` | input_simulator/_capture_envelopes.py:83-108 | The walk over the buffer gives the specified options or refusal |
| `PcapNg.OptionsRead` | input_simulator/_capture_envelopes.py:83-108 | Any legal list of options laid out one after the other is read back in order |
| `PcapNg.BlockExactly` | input_simulator/_capture_envelopes.py:152-157 | A block is accepted exactly where its own layout stands, both lengths included |
| `PcapNg.CloseSection` | input_simulator/_capture_envelopes.py:126-133 | A section closes exactly when its declared length, if any, is that of its blocks |
| `PcapNg.PcapngEnvelopes` | input_simulator/_capture_envelopes.py:116-232 | Accepts exactly the readable files: the slices concatenate to the file, each is its own blocks, packets and losses are what those blocks mean, all bounds hold, and there is only one such reading |
| `PcapNg.SameBlocks` | input_simulator/_capture_envelopes.py:152-157 | A byte string has at most one reading as blocks |
| `PcapNg.SliceDetermines` | input_simulator/_capture_envelopes.py:126-133 | The bytes of a returned slice alone determine its packets |

## Left out

- Sockets, SocketCAN, Scapy, HTTP, command lines, locks and real threads: each operation is one atomic step, and the storage and writer threads are steps of their own.
- JSON schema validation, the RFC 8785 encoder, base64, SHA-256 and the CRC polynomials: arbitrary functions, except that lengths of canonical acknowledgements, manifests and requests are computed where a bound needs them.
- Owner-identity checks, busy locks and the execution-ready and qualification constants: single-branch facts about object identity.
- The source session and its transport beyond what the sender asks of them; that they note accepted feedback without failing is assumed, and their own evidence inbox is not modelled.
- The near-identical consumer response recorders: one parametrised completion stands for them.
- C-core bridges, management services, preparation and assertion modules, evidence row codecs, endpoint and MAC parsing, CAN database checks, physics guards.
- Gateway.Gateway.Receive: openings answered by a status service under that service's own clock, the reception service's own capacity check, and error and admission counters are not modelled.
- ResourceWorker.ResourceWorker.Submit: the availability check and the locked section are one step; a thread failure between them is not modelled.
- ResourceStore.ResourceStore.Abort: removal of the staging directory is taken to succeed; a failed removal and its unfinished-resource records are not modelled.
- ResourceStore.ResourceStore.Accept: the read-back comparison of a retry is on the store's own bytes, so a file changed from outside shows only as a digest or length mismatch reported by the disk.
- Lifecycle.ModelLifecycleService.Respond: a receiver without queue or worker is not modelled.
- Recorder.ObservationRecorder.Close: the checkpoint file's fields and its later verification are reduced to whether writing it succeeded.
- Chain.ReadChain: directory listing, pending copies and the close checkpoint are left out; segments are given in order.
- History.Decode: decoding and stream selection of one packet, and the acceptance of a finished record, are arbitrary answers; declared stream counts and the replay policy are not compared.
- Pcap.Timestamp: the fraction of a nanosecond resolution is not exposed, only whether the time is exact.
- PcapNg.PcapngEnvelopes: which bytes form a bounded printable UTF-8 name is an arbitrary predicate, and the order of refusals within a block is not stated.
