# The life of a blob in a gozara node

A machine-checked model of how a blob travels through a gozara node: a client posts it over
HTTP, the bridge reserves its id, takes permits and cuts the body into chunks, the coordinator
pushes the chunks to peers, and the client is told that the blob is stored globally.

Run `dafny verify dfyconfig.toml` in this directory.

## How the model is built

| file | models |
|---|---|
| `Prelude.dfy` | bytes, hashes (BLAKE3 is a parameter `hasher`), sums and concatenations |
| `Frames.dfy` | length-prefixed frames, and a duplex stream that may end or break anywhere |
| `Session.dfy` | a two-party request/reply session, byte by byte, over a link that may be cut |
| `Transfer.dfy` | push and pull: both ends as methods, and both ends composed as a session |
| `Chunking.dfy` | the streaming loops of `new_blob`, the fixed-size split, storing chunks by hash |
| `Bridge.dfy` | the status map, `Admission`, the permit budget, `new_blob` |
| `Coordinator.dfy` | the `Pipeline` class, its event handlers, chunk assignment |
| `Node.dfy` | all of it as one state machine: requests, channels, pipeline, upload tasks, clock |
| `Custody.dfy`, `Budget.dfy`, `Order.dfy`, `Reservations.dfy`, `PermitTable.dfy`, `Attempts.dfy`, `Timing.dfy` | the invariants of the machine |
| `Finality.dfy` | exactly when Finalized is final and when attempts overlap, timely or not: what the channel of updates holds decides |
| `Theorems.dfy` | the guarantees, for every run |
| `Progress.dfy` | every blob that was handed over can still be stored |
| `Uploads.dfy` | uploads from the client's side: what a request is, when it may start, that it can give up, and that it can succeed |
| `Reports.dfy` | how upload tasks end, what their updates say, what a stale one does, and the bounds of the channels |
| `Hints.dfy` | how long storage provider hints last |
| `Witness.dfy` | two concrete runs that show where the guarantees end |

The imperative parts (`Stream`, `Pipeline`, `BridgeState`, `Admission`, `StreamBody`, the four
transfer methods) are proved against functions, and the state machine of `Node.dfy` takes its steps with
the same functions, so what holds of the machine holds of the handlers.

In the machine each branch body of the coordinator's `select!` loop is one step. Requests move
one step between their await points, upload tasks end whenever they like, and time passes in
between. A run is a list of steps. An upload task that ends gives its slot back in one step and
sends its update in another (`bin/client/src/coordinator.rs:232-252`), so that others may run in
between; the channel from the tasks to the coordinator delivers the updates in the order in
which they were sent. The fields `ticket` and `log`
record what happened and no step depends on them; of a request's `body` only the length matters,
which is the code's `received`. Time is in milliseconds.

`CHUNK_SIZE` is defined in `admission.rs`, which is not part of this model; it is a parameter
`size` with 0 < `size` < 2^32. The id type comes from a library; validation followed by printing
is a parameter `canon`.

Two results differ from what one might expect of the code:

- `new_blob` reserves the validated form of the id, but sends the id as the client wrote it
  (`bin/client/src/bridge.rs:57-63` and `265`). The Finalized update then finds its entry exactly
  when the id prints back to itself. Otherwise it is dropped as unsolicited, and the blob reads
  "pending" for good. `UpdatesAreSolicitedExactly` and `StatusIsTruthful` give the exact
  condition. Whether the id library accepts any id that it prints differently is not known
  here: `AliasStaysPending` shows a run with a `canon` made up for the purpose.
- Finalized can be undone: the update of a failed or late attempt is keyed by the hash alone, and
  the todo about healthy transitions (`bin/client/src/coordinator.rs:402`) is open. A Finalized
  chunk stays so, whatever happens until its blob is reported as stored, if and only if it is
  not threatened (`Threatened`): no failure of it waits in the channel of updates, unless the
  updates ahead of it complete the blob, and no attempt for it that has not sent its update may
  still fail, unless the updates in the channel complete the blob (`FinalizedLastsExactly`).
  A second attempt for a chunk can start beside an outstanding one exactly from 31 s after the
  first was assigned, given a free slot and a permit (`OverlapsExactly`), so if every attempt is
  over and its update handled within less than that (`TimelyRun`), every transition is healthy
  and what was finalized stays, even if the node is late afterwards (`TimelyFinalizedLasts`).
  `LateUpdateUndoesFinalized` is a run in which it does not. End-to-end safety, the budget, the
  order of blobs and the status map need no timing at all.

What the theorems about the status map assume: `StatusIsTruthful`, `UpdatesAreSolicitedExactly`
and `ReservationsArePending` take runs (`StableRun`) in which every accepted id that occurs
prints as an id that is accepted and prints as itself, as it does if printing is canonical.
`IdsAreNeverReused` and `FailedUploadsLeaveNoTrace` assume nothing of the printer. The hash is
assumed free of collisions only where a row says so, and only on the data it names.

## Model

| member | source | states |
|---|---|---|
| Theorems.FinalizedMeansStored | bin/client/src/coordinator.rs:412-425 | in every run, for a blob reported as finalized: if the peers whose pushes of its own chunks returned Ok are honest, and the hash does not collide on its chunks and the data checked against them, every leaf has a copy some peer verified, and these in leaf order are the uploaded body; no other peer and no other blob matters |
| Theorems.HonestlyPushedMeansStored | bin/client/src/coordinator.rs:228-240 | one honest peer for each leaf whose push returned Ok is enough for that, whatever the other peers are |
| Theorems.FinalizedWasPushed | bin/client/src/coordinator.rs:228-240 | in every run, whatever the timing, each chunk hash of a blob reported as finalized has had a push return Ok, and if that peer is honest it checked data with that hash |
| Theorems.VerifiedCopiesRebuildTheBody | bin/client/src/bridge.rs:242-258 | any copies honest peers checked against the leaves of a blob are, in leaf order, its body, as long as declared, if the hash does not collide on this blob's chunks and the data checked against them |
| Theorems.AttemptsNeverOverlap | bin/client/src/coordinator.rs:199-262 | in a timely run no two attempts for a chunk are outstanding together, and every outstanding one finds its chunk in the current blob, in flight to its own peer; no update leaks into a later blob |
| Timing.OutstandingIsDueFrom31Seconds | bin/client/src/coordinator.rs:199-203 | the chunk of an outstanding attempt is due again exactly from 31 s after its assignment |
| Timing.UpdateFindsItsChunk | bin/client/src/coordinator.rs:387-406 | every handled update finds its chunk in the current blob, in flight to the peer it speaks of |
| Theorems.FinalizedLastsExactly | bin/client/src/coordinator.rs:385-428 | in every run, timely or not: a Finalized chunk stays so in every continuation until its blob is reported as stored, if and only if no failure of it is in the channel with nothing ahead of it that completes the blob, and no attempt for it may yet send one while nothing in the channel completes the blob |
| Theorems.TimelyFinalizedLasts | bin/client/src/coordinator.rs:402-428 | what a timely run has finalized stays in every continuation, even one that is late |
| Theorems.OverlapsExactly | bin/client/src/coordinator.rs:180-203 | in every run, while an attempt is outstanding and its chunk is as the attempt found it, the timer may start another attempt for that chunk if and only if 31 s have passed since the first was assigned, a slot is free, and some permit holds |
| Reports.TimeoutsAreSilent | bin/client/src/coordinator.rs:224-259 | in every run, an upload that is cut off gives its slot back, and in every continuation it is over and no update of it is in the channel |
| Reports.ExpiresExactly | bin/client/src/coordinator.rs:224-231 | in every run, a running upload may be cut off exactly from 30 s after its assignment |
| Reports.ReportsAreTrue | bin/client/src/coordinator.rs:233-252 | in every run, every update tells of an upload that ended: success only of one whose push returned Ok, failure only of one whose push returned an error |
| Reports.StaleUpdatesDoNothing | bin/client/src/coordinator.rs:394-401 | in every run, timely or not, an update whose chunk the current blob does not have is taken from the channel and changes nothing else |
| Reports.NextUpdateWaitsExactly | bin/client/src/coordinator.rs:412-422 | the next update can be handled at once unless it completes the blob while 128 reports wait for the bridge |
| Reports.ChannelsAreBounded | bin/client/src/lib.rs:129-130 | in every run at most 16 messages wait for the coordinator and at most 128 for the bridge |
| Reports.EventsAreTaken | bin/client/src/coordinator.rs:302-378 | gossip, ticks, permits and look-ups are taken at any time, whatever the state |
| Theorems.FinalizedIsNeverUndone | bin/client/src/coordinator.rs:402-428 | step by step, in a timely run, a Finalized chunk is left alone until its blob leaves, and then all its chunks are Finalized |
| Witness.LateUpdateUndoesFinalized | bin/client/src/coordinator.rs:394-408 | without timeliness: a run whose last update takes a Finalized chunk back to Pending |
| Theorems.WorkIsConserved | bin/client/src/coordinator.rs:374-428 | in a timely run chunks received are chunks acknowledged plus chunks remaining; the remainder grows only by what a new blob brings, falls by one per Finalized update, and is zero exactly when every received blob is archived |
| Timing.UpdateTakesOne | bin/client/src/coordinator.rs:403-428 | a success takes exactly one chunk off the remaining work, a failure none, and no blob without work stays |
| Theorems.ResourcesAreConserved | bin/client/src/bridge.rs:220-271 | in every run free permits and those held by requests, messages, waiting blobs and the current blob make 1536, and free slots and running uploads make 20 |
| Theorems.MemoryStaysWithinBudget | bin/client/src/bridge.rs:225-256 | in every run no request, message or blob holds more bytes than its permits times the chunk size |
| Theorems.UploadsStayWithinSlots | bin/client/src/coordinator.rs:220-232 | in every run the copies of chunks that running uploads hold fit into twenty chunks |
| Theorems.UploadsArePaidFor | bin/client/src/coordinator.rs:220-224 | in a timely run each outstanding upload's bytes are a chunk that the current blob stores, another one for each, and the blob holds the permits for all it stores: no copy outlives its permits |
| Budget.QueuedWithinPermits | bin/client/src/bridge.rs:264-267 | a blob in the channel has exactly as many chunks as permits |
| Theorems.FirstInFirstOut | bin/client/src/coordinator.rs:116-177 | in every run the blobs handed over are, in order and once each, those recorded, reported, current, waiting, and in the channel; nothing waits without a current blob |
| Order.FinalizedInOrder | bin/client/src/coordinator.rs:417-427 | blobs are recorded as finalized in the order they were handed over, none twice, none skipped |
| Progress.EveryBlobCanBeStored | bin/client/src/coordinator.rs:165-264 | from every reachable state, whatever failed, timed out, or is late or full, some continuation, with every update handled in the order of sending, stores any given blob that was handed over and records it as finalized, if the clock has 32 s left for each blob not recorded yet |
| Uploads.EveryUploadCanSucceed | bin/client/src/bridge.rs:207-273 | from every reachable state, any body of acceptable length, in any frames, under any accepted id that nobody has, can be uploaded, stored, and recorded as finalized, if the clock has 32 s left for each blob not recorded yet and for this one |
| Uploads.EveryUploadCanGiveUp | bin/client/src/bridge.rs:224-233 | from every reachable state an upload that has not been handed over can give up: its entry goes, its permits come back, nothing else changes |
| Uploads.ArrivesExactly | bin/client/src/bridge.rs:211-224 | in every run an upload may start exactly if it declares from 1 byte to 1 GiB and at most 1536 chunks, its id is accepted, and nobody has that id |
| Uploads.RequestsAreWhatArrived | bin/client/src/bridge.rs:228-251 | in every run the requests are the uploads that arrived, in order, each with the id and length it declared and the body its own frames spell, however the frames of different uploads interleave |
| Theorems.StatusIsTruthful | bin/client/src/bridge.rs:311-328 | in every run whose ids print stably, a handed-over blob has an entry that says finalized, once, exactly if its own update was handled and its id was canonical; no two such blobs share an id |
| Theorems.UpdatesAreSolicitedExactly | bin/client/src/bridge.rs:315-328 | in every run whose ids print stably, the next update finds its entry exactly when its id prints back to itself, and the entry then still says pending |
| Witness.AliasStaysPending | bin/client/src/bridge.rs:264-268 | with a printer that maps two spellings to one, a run in which a blob is finalized and its validated id does not show it |
| Theorems.FailedUploadsLeaveNoTrace | bin/client/src/bridge.rs:85-91 | in every run, whatever the printer, an upload that gives up sent nothing, holds no permits, shares its entry with nobody, and removes that entry while every other owner's stays as it is |
| Theorems.ReservationsArePending | bin/client/src/bridge.rs:63-76 | in every run whose ids print stably, the entry of an uncommitted upload says only pending |
| Theorems.IdsAreNeverReused | bin/client/src/bridge.rs:63-76 | in every run, whatever the printer, a blob that was handed over keeps its entry, and no other upload that has not given up has the same id |
| Theorems.HandedOverIsSplit | bin/client/src/bridge.rs:214-267 | however uploads interleave, what is handed over is the fixed-size split of that upload's own body, one permit a chunk |
| Theorems.EligibleByLatestPermit | bin/client/src/coordinator.rs:153-158 | in every run the peers with an unexpired permit in the pruned table are those whose latest permit ever issued has not run out |
| Theorems.PermitLastsExactly | bin/client/src/coordinator.rs:341-349 | after a permit step and any further steps without a newer permit for that peer, prunes included, the peer is eligible exactly until the term it was issued for ends, and never if that end is beyond the clock's range |
| Theorems.UploadsAreAcceptable | bin/client/src/coordinator.rs:224-231 | every upload carries a genuine chunk within the limit, and an uncut push of it to an honest peer ends accepted |
| Coordinator.AssignmentContract | bin/client/src/coordinator.rs:179-264 | for any iteration order: only chunks pending or at least 31 s in flight change, each upload has a chunk of its own, nothing else changes, and with a peer that holds a permit there are as many uploads as slots or chunks that are pending (from the first moment) or at least 31 s in flight |
| Coordinator.FairDealing | bin/client/src/coordinator.rs:190-211 | only peers with an unexpired permit are dealt chunks, and any two get numbers that differ by at most one |
| Coordinator.RetargetEffect | bin/client/src/coordinator.rs:216-219 | exactly the chunks an upload was started for are marked in flight, each to its peer |
| Coordinator.Pipeline.DealOut | bin/client/src/coordinator.rs:204-263 | the loop, with slots released meanwhile: it never misses a slot counted at entry and starts exactly the scheduled uploads |
| Coordinator.Pipeline.AssignChunks | bin/client/src/coordinator.rs:179-264 | the whole operation meets the schedule with the slots read at entry, changes only the current blob's chunks, and starts as many uploads as slots or due chunks allow, a pending chunk being due at once |
| Coordinator.Pipeline.FinishUpload | bin/client/src/coordinator.rs:228-260 | an upload that ends gives its slot back and reports Finalized by its peer on success, Pending on failure, and nothing if it was cut off |
| Coordinator.Pipeline.HandleUpdate | bin/client/src/coordinator.rs:387-432 | an update that finds no chunk does nothing at all; a failure is only noted; a success is noted and followed by a round of assignment; the last success reports and archives the blob, begins the next, prunes the permits, and asks whoever hinted if none is left |
| Coordinator.Pipeline.HandleNewBlob | bin/client/src/coordinator.rs:374-377 | the blob comes after all others, has one pending chunk for each distinct hash of its leaves, with that leaf's data, and begins at once exactly if no other is there; then expired permits go, and exactly if none is left whoever hinted is asked |
| Coordinator.Pipeline.HandlePermit | bin/client/src/coordinator.rs:341-350 | the permit is recorded until its term ends, an overflow as expired, the others stay, and a round of assignment follows |
| Coordinator.Pipeline.HandleStaleTimer | bin/client/src/coordinator.rs:302-311 | exactly the hints heard less than 300 s ago stay, as they were; with a current blob and a hint, expired permits go, and exactly if none is left the hinting peers are asked |
| Coordinator.Pipeline.HandleWouldStore | bin/client/src/coordinator.rs:319-325 | the peer's hint is of now, all others stay |
| Coordinator.Pipeline.BeginNext | bin/client/src/coordinator.rs:148-177 | the first waiting blob becomes current exactly if none was; expired permits go if anybody hinted, and exactly if none is left whoever hinted is asked |
| Hints.HintsAreRecent | bin/client/src/coordinator.rs:302-325 | in every run a hint is the time its peer was last heard, a peer heard less than 300 s ago has one, and after a tick of the stale timer no older hint is left |
| PermitTable.PrunedExactly | bin/client/src/coordinator.rs:148-177 | in the running node, exactly the steps that make a waiting blob current, and the stale timer with one current, prune the expired permits, if a hint is left; only a new permit changes the table otherwise |
| Bridge.BridgeState.NewBlob | bin/client/src/bridge.rs:207-273 | a rejected upload leaves the state as it was, a created one leaves one reservation and sends one blob that is the split of the body; it is created exactly when nothing is wrong, its length being from 1 byte to 1 GiB in at most 1536 chunks, and what is refused ahead of the body is refused with the code for its first fault |
| Bridge.BridgeState.LookUpBlob | bin/client/src/bridge.rs:165-182 | the latest status of the entry, which is made, pending, if there was none |
| Reservations.RecordingKeepsHistories | bin/client/src/bridge.rs:315-328 | handling an update keeps every entry either "pending" or "pending, finalized", the latter exactly if an update under that very id was handled |
| Bridge.RollbackIsInvisibleExactly | bin/client/src/bridge.rs:55-91 | reserving an id and giving it up again, with any calls of others and any updates in between, leaves the map as if it had never been reserved, if and only if nothing in between would have made an entry for the id |
| Bridge.Admission.Drop | bin/client/src/bridge.rs:85-91 | dropped uncommitted, the map is what the calls of others alone would have made of it, under that condition; dropped committed, nothing changes |
| Chunking.StreamBody | bin/client/src/bridge.rs:228-256 | for any division of the body into frames it succeeds exactly when the total is as declared, and then the chunks are the fixed-size split, as many as permits were taken |
| Chunking.TakeFrame | bin/client/src/bridge.rs:242-249 | the inner loop adds a whole frame to the chunker |
| Chunking.FeedKeeps | bin/client/src/bridge.rs:242-249 | a frame of any length, even empty, adds exactly its bytes, and full chunks stay full |
| Chunking.PassesExactly | bin/client/src/bridge.rs:233-253 | a stream passes exactly when it yields only data and the data is as long as declared |
| Chunking.TimesOutExactly | bin/client/src/bridge.rs:229-241 | the client is told of a timeout exactly if silence is the first thing that goes wrong, and otherwise of a bad request |
| Chunking.SplitUnique | bin/client/src/bridge.rs:243-256 | full pieces and a short rest can only be the fixed-size split of what they spell |
| Chunking.SplitShape | bin/client/src/bridge.rs:220 | the split spells the body, only its last piece is short, and its length is the permit count |
| Chunking.RebuildExactly | bin/client/src/coordinator.rs:120-137 | the chunks stored by hash, looked up in leaf order, give the body back if and only if no two different chunks share a hash |
| Theorems.StoredChunksAreTheBody | bin/client/src/coordinator.rs:120-137 | in every run the chunks a waiting or current blob stores by hash, in leaf order, are its upload's body if and only if no two different chunks of that body share a hash |
| Chunking.CollisionFreeRebuild | bin/client/src/bridge.rs:254-265 | without collisions among a body's chunks, storing them by hash loses nothing |
| Transfer.AcceptedMeansVerified | crates/peyk/src/blob_transfer.rs:56-89 | over a link cut anywhere, a push that returned Ok means that the receiver verified the very hash and bytes sent |
| Transfer.WrongHashNeverAccepted | crates/peyk/src/blob_transfer.rs:189-202 | a wrong hash is never accepted; all the sender can see is the refusal, which fits the 4096-byte limit |
| Transfer.UncutPush | crates/peyk/src/blob_transfer.rs:179-214 | an uncut push ends accepted exactly when the data fits and has the hash, and a misnamed one with the receiver's reason |
| Transfer.PushCompletes | crates/peyk/src/blob_transfer.rs:68-83 | sender and receiver never both wait, and every uncut push can be played to its end |
| Transfer.PushAnswered | crates/peyk/src/blob_transfer.rs:185-214 | whoever sends it, a well-formed push is answered by the byte 1 if the hash is right, by the byte 0 and the reason if it is wrong, and not at all if it is too long |
| Transfer.PushReplyRead | crates/peyk/src/blob_transfer.rs:71-79 | the byte 1 is read as acceptance, and after any other byte a reason of at most 4096 bytes as that refusal |
| Transfer.ReasonSpellsHash | crates/peyk/src/blob_transfer.rs:193 | the reason spells the receiver's hash in hexadecimal, byte by byte |
| Transfer.InspectPrefix | crates/peyk/src/blob_transfer.rs:185-204 | nothing short of the whole request is verified, and the whole is verified as what was sent |
| Transfer.PulledDataIsGenuine | crates/peyk/src/blob_transfer.rs:107-122 | against any responder, pulled data has the requested hash and fits the limit |
| Transfer.UncutPull | crates/peyk/src/blob_transfer.rs:233-255 | against an honest responder an uncut pull finds data exactly when it is the stored answer, fits and has the hash, and reports a miss exactly when there is no answer |
| Transfer.PullCompletes | crates/peyk/src/blob_transfer.rs:93-139 | requester and honest responder never both wait, and every uncut pull can be played to its end, with the stored data if it fits and has the hash, with a miss exactly if nothing is stored |
| Transfer.PullAnswered | crates/peyk/src/blob_transfer.rs:238-253 | a well-formed request is answered by the byte 0 if nothing is stored, and otherwise by the byte 1 and the data |
| Transfer.PullReplyRead | crates/peyk/src/blob_transfer.rs:107-122 | the byte 0 is read as a miss, and after any other byte data that must fit and have the hash |
| Transfer.BadHashDropped | crates/peyk/src/blob_transfer.rs:185-186 | both handlers drop a request whose hash is not 32 bytes long |
| Transfer.PushChunk | crates/peyk/src/blob_transfer.rs:56-89 | writes the request as far as the link carries it and returns what the reply means |
| Transfer.HandleIncomingPush | crates/peyk/src/blob_transfer.rs:179-214 | answers as inspection of the input demands and passes a push on exactly when it verified it and the acknowledgement went out |
| Transfer.PullChunk | crates/peyk/src/blob_transfer.rs:93-139 | writes the hash and returns what the reply means |
| Transfer.HandleIncomingPull | crates/peyk/src/blob_transfer.rs:233-255 | answers a well-formed request with the stored data or a miss |
| Session.NeverBothWait | crates/peyk/src/blob_transfer.rs:68-83 | in a session that is not over some side can always move |
| Session.EveryActionCounts | crates/peyk/src/blob_transfer.rs:68-83 | every action brings a session closer to its end |
| Frames.DecodeExactlyEncodings | crates/peyk/src/blob_transfer.rs:41-54 | reading yields a payload and a rest exactly when the input is that payload's frame, within the limit, followed by that rest |
| Frames.CutFrame | crates/peyk/src/blob_transfer.rs:41-54 | a frame cut anywhere is never read as a frame |
| Frames.PrefixFree | crates/peyk/src/blob_transfer.rs:31-39 | no frame is a prefix of another |
| Frames.SequenceRoundTrip | crates/peyk/src/blob_transfer.rs:31-54 | a sequence of frames is read back as itself |
| Frames.SequenceDecodingSound | crates/peyk/src/blob_transfer.rs:41-54 | whatever is read as a sequence of frames is that sequence's encoding |
| Frames.BigEndianRoundTrip | crates/peyk/src/blob_transfer.rs:35-36 | a length survives its 4-byte header |
| Frames.BigEndianOnto | crates/peyk/src/blob_transfer.rs:47 | every 4-byte header is the header of exactly one length |
| Frames.FrameLayout | crates/peyk/src/blob_transfer.rs:31-39 | on the wire a frame is four bytes of length, most significant first, and then the payload |
| Frames.Stream.WriteFrame | crates/peyk/src/blob_transfer.rs:31-39 | writes the frame as far as the link carries it, nothing if the length does not fit 32 bits |
| Frames.Stream.ReadFrame | crates/peyk/src/blob_transfer.rs:41-54 | consumes exactly one frame or fails |

## Left out

- libp2p, the swarm loop, Kademlia, gossip and the bootnode: responses and gossip are free input to the coordinator, and nothing rests on their arrival.
- BLAKE3 and rs_merkle: the hash is a parameter, and the sequence of leaf hashes stands for the tree and its root.
- HTTP routing and rendering, `get_status`, logging, configuration, key files, shutdown and closed channels in the running node.
- What happens to verified pushes, inbound permit requests, archiving to disk, and assembling remote blobs: stubs in the code, so "verified by a receiver" is claimed, not "persisted". Entries for remote blobs do not touch anything modelled here.
- Transfer events: reported to a channel that only logs them.
- `accept_pushes` and `accept_pulls`: each incoming stream is handled on its own by the modelled handlers.
- The coordinator waiting inside a step for room in a channel: such a step is not enabled until there is room in the status channel, and the swarm channel is not modelled.
- Progress.EveryBlobCanBeStored: says that a continuation exists, with a peer that grants a permit and takes the pushes; that peers and scheduler do take these steps is not claimed.
- Uploads.EveryUploadCanSucceed: likewise; in its continuation the other uploads in progress give up, to make room.
- The longest silence between two frames of a body: that it was exceeded is an event of the stream.
- Several reads of the clock inside one step count as one.
- Bytes that the transport loses or alters: a link delivers a prefix of what was written.
- Bridge.BridgeState.NewBlob: runs one upload without interference; interleaved uploads are steps of the machine in `Node.dfy`.
- Pipeline.SomeTasksEnd: any number of uploads may end between two turns of the assignment loop; which ones does not matter to the loop.
