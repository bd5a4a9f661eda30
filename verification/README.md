# Verified model of the HTTP/3 worker and its stream objects

The repository is an HTTP/3 and QUIC stack for Node.js: a Rust worker drives the QUIC transport
(quiche), and TypeScript stream objects sit on Node's streams. This project models the parts
whose correctness depends on several pieces of code agreeing over time, and proves what they
promise for every input and every interleaving.

How the files fit together:

- `receive_steps.dfy`, `worker_log.dfy`, `connection.dfy`, `connection_runs.dfy`, `blocked.dfy`, `queues.dfy`,
  `sending.dfy`, `pending_write.dfy`: the worker. A small step system says what may happen to one
  stream's receive state. `Connection.H3Connection` is the object with its maps, sets and loops; it
  carries the run it has made as a ghost trace and every method proves that it only takes steps of
  that system. quiche is a script of answers.
- `readable.dfy`, `credit_protocol.dfy`, `credit_progress.dfy`, `worker_protocol.dfy`: the receive half of
  the stream objects, and the whole read-credit loop: worker, FIFO of events, stream object, FIFO of
  credit commands, interleaved freely; its safety and its progress.
- `write_ledger.dfy`, `write_path.dfy`, `write_runs.dfy`, `write_driver.dfy`: the write half, the same
  machine in `lib/stream.ts` and `lib/quic-stream.ts`, and its runs. A ledger says what Node is
  promised; the object proves that it only makes entries the ledger permits, that what the transport
  took is what the ledger says, and that an outstanding write can always be finished.
- `arc_buf.dfy`, `pools.dfy`, `ownership.dfy`: shared buffers (real aliasing over arrays), the
  size-classed pools, and where every allocation is over whole runs.
- `sse.dfy`, `sse_round_trip.dfy`, `sse_values.dfy`: Server-Sent Events, printer and streaming parser.
- `connection_map.dfy`: connection-id routing over a slab that reuses slots.
- `quic_server.dfy`: `listen` racing `close`, one step per stretch of code between awaits.
- `goaway.dfy`, `ping.dfy`: GOAWAY agreement between client and server, and the ping queue.

Foreign code is an oracle with a contract. quiche: a body read fits the buffer it is given,
a send takes a prefix, capacity answers are arbitrary, a body is read only between its header
sections and its end, any number of header sections may come first, as interim responses do
(section 4.1 of RFC 9114), and none comes after the stream's end or after its tracking was cleared.
Node: one `_write` or `_final` at a time and none after a failure; `push` answers whether the buffer is below the high-water mark; bytes may be taken from the buffer at any
time, also after the end, and `_read` runs only for a read that leaves the buffer below the mark.
The allocator gives at least the capacity asked for. The slab hands out a slot that is free.

Where a promise is not unconditional, the exact condition is proved:

- Byte order and credit hold if and only if every payload that was coalesced into a HEADERS event
  rode on its stream's first one. Data riding on a later HEADERS event (a response after an interim
  response, in one poll) is taken for trailers and ignored: the consumer never sees it and its
  credit never returns (`CreditProtocol.BytesStayInOrder`, `CreditProtocol.WindowIsConserved`;
  the run is `CreditProtocol.LaterRideIsIgnored`). The comment at `src/h3_event.rs:366-371`
  promises the opposite; the model follows the code.
- HEADERS, FINISHED and RESET exceed the event budget, by one, if and only if one event is left,
  the worker still holds bytes of the stream, and these do not coalesce into the batch
  (`Connection.H3Connection.OnHeaders`, `OnFinished`, `OnReset`; the run is
  `ConnectionRuns.HoldOneByte` and then `ConnectionRuns.ExceedBudget`). A whole poll exceeds it if and only if
  its last report came at such a moment of the run, and then its events end in the held bytes and
  that report's own event (`Connection.H3Connection.PollApp`).
- A stream with an open DATA edge stays in `pending_readable` if and only if its last body read was
  not a success with zero bytes (`Connection.EdgeIsDroppedExactly`; the run is
  `ConnectionRuns.HoldOneByte`). Such a stream is served again only when quiche reports it again.
- A failed body read is reported by an error event if and only if the body's last bytes do not take
  the only event left in the budget (`Connection.H3Connection.PassOn`; over a whole poll
  `Connection.H3Connection.PollApp`; the run is `ConnectionRuns.FailSilently`). A failure that is
  not reported then is never reported.
- FIN precedes a byte of the writes if and only if trailers (or another FIN besides the writes) were
  sent while bytes were waiting, or a non-empty write followed them: the native transport sends
  trailers at once (`WriteRuns.FinIsOvertakenExactly`; the run is `WriteDriver.OvertakeByte`).
- The chunk given to `end` is dropped if and only if FIN had already been sent
  (`WritePath.StreamWriter.Final`).
- A GOAWAY id lies strictly above every accepted request if and only if none of them is the last
  id, 2^62 - 4 (`Goaway.GoawayIdIsAbove`, `Goaway.LastIdIsNotCovered`). It covers the requests
  accepted when it was sent; one accepted later can still be failed by the client
  (`Goaway.LateRequestIsFailed`).
- A later GOAWAY must not announce a larger id (section 5.2 of RFC 9114). The code keeps to that if
  and only if no larger request was accepted in between or the id is already the last one
  (`Goaway.GoawayIdsGrow`; the run is `Goaway.SecondGoawayGrows`).
- Every event loop but the owned one is closed if and only if no loop's own `close()` was rejected
  (`QuicServerRace.OthersAreClosed`; the run is `QuicServerRace.RejectedDiscardOutlivesClose`).
- A printed SSE data line comes back if and only if it contains no LF and does not end in CR
  (`SseRoundTrip.LineSurvives`); CR elsewhere is harmless, so this is wider than "no CR, LF".
- A printed SSE id comes back if and only if it contains no NUL (`SseValues.IdComesBack`).
- The front-only ping loop equals a full scan if and only if no acknowledged ping stands behind an
  unacknowledged one (`Pings.FrontOnlyIsExact`); monotone counters guarantee it.

## Model

| member | source | states |
|---|---|---|
| CreditProtocol.WindowIsConserved | src/connection.rs:247-254 | in every reachable state, worker credit + receive buffer + undelivered payload + uncredited bytes + credit in flight + bytes ignored by JS is at most the read window, and exactly the window on a live stream whose JS object is not destroyed; nothing is missing if and only if every coalesced payload rode on the first HEADERS |
| CreditProtocol.GrantIsNeverClamped | src/connection.rs:247-254 | the cap on returned credit never discards any, whatever was reset or destroyed on the way |
| CreditProtocol.UnreadBytesAreBounded | lib/stream-backpressure.ts:192-241 | Node's buffer plus spilled reads never exceed read window + high-water mark |
| CreditProtocol.LimitNeverFires | lib/stream-backpressure.ts:192-221 | a receive limit of at least that sum never destroys a stream |
| CreditProtocol.BytesStayInOrder | src/connection.rs:327-454 | the stream object has exactly the payload not ignored; consumed, buffered, spilled, in-flight and worker-held bytes, in this order, are the bytes quiche handed over if and only if every coalesced payload rode on the first HEADERS |
| CreditProtocol.CompletedBodyIsWhole | lib/client.ts:508-521 | once the end was pushed and everything taken, the consumer has exactly the bytes quiche handed over, on the same condition |
| CreditProtocol.NothingDroppedMeans | lib/client.ts:485-498 | no payload is ignored if and only if every coalesced one rides on its stream's first HEADERS event |
| CreditProtocol.LaterRideIsIgnored | lib/client.ts:485-490 | a reachable state in which a byte coalesced into the second HEADERS event is lost to the consumer and its credit to the window |
| CreditProtocol.QuiescentStreamIsWhole | lib/stream.ts:335-363 | a stream at rest has back its window except what was ignored; a DATA edge waits only if all of the window was ignored; otherwise nothing is uncredited and everything read is consumed |
| CreditProgress.StreamComesToRest | lib/stream.ts:335-363 | from every reachable state of an undestroyed stream, a run of bounded length without new bytes brings worker, events, stream object and credit commands to rest, with the end seen by the consumer exactly if there is one; only an undelivered reset or error, or a receive limit below window + mark, destroys the stream on the way |
| CreditProgress.CreditComesBack | lib/stream.ts:335-363 | so no credit gets stuck: a live stream gets its whole window back, less what JS ignored, and if nothing was ignored its consumer gets every byte read |
| CreditProtocol.EndIsTold | lib/client.ts:508-521 | a stream object that is not destroyed has the end, pushed or spilled, exactly when FINISHED was delivered; a delivered reset or error destroys it |
| CreditProtocol.IgnoredMeans | lib/client.ts:485-490 | exactly the data riding on a HEADERS event with another one before it is ignored |
| CreditProtocol.MoveKeepsInv | lib/stream.ts:335-363 | every move of worker, event delivery, Node read with or without `_read`, deferred credit step, credit command or destruction keeps the protocol invariant |
| CreditProtocol.RunKeepsInv | lib/stream.ts:335-363 | hence so does every interleaving |
| CreditProtocol.PollIsRun | src/connection.rs:261-507 | whatever the worker does over all its streams is, for each single stream, a permitted stretch of the protocol |
| WorkerProtocol.WorkerRunIsReachable | src/connection.rs:247-507 | every run of the worker over all its streams, with credit commands coming from one stream's object, is a run of that stream's protocol |
| WorkerProtocol.RestingStreamIsWhole | src/connection.rs:277-289 | for a worker and a stream object that ran together: between polls a resting stream's worker buffer is empty and its `read_credit` entry is the window less what was ignored; if nothing was, it is the full window, the stream is not in `pending_readable`, and all bytes read have been consumed |
| ReceiveSteps.StepKeepsStreamOk | src/connection.rs:327-454 | each primitive step keeps credit within the window, buffer room within the credit, and payloads sent + buffer == bytes read |
| ReceiveSteps.ReadsAreFullyCharged | src/connection.rs:361-365 | the saturating subtraction never saturates: credit falls by exactly the bytes read |
| ReceiveSteps.LegalTraceKeepsStreams | src/connection.rs:261-507 | the same for every stream after any legal mix of steps on all streams |
| Connection.EveryStreamIsSound | src/connection.rs:261-507 | in every state of the worker object, each stream's DATA payloads plus its receive buffer are exactly the bytes read, its credit is within the window, and the event log projected on the stream is what its own run sent |
| Connection.ErrorsAndFailures | src/connection.rs:370-386 | a stream's failures are the `Failed` answers of quiche to its own body reads, and its errors the error events sent about it |
| WorkerLog.LogProjects | src/connection.rs:261-507 | a stream's share of all tokens sent is its own output, in order |
| WorkerLog.CoalescingKeepsOrder | src/h3_event.rs:372-390 | folding DATA into the preceding HEADERS event or appending it sends the payload right after everything sent before, marked with whether it rides |
| WorkerLog.CoalescingFollowsHeaders | src/h3_event.rs:372-390 | a payload coalesces only right after its own stream's HEADERS |
| WorkerLog.CoalescingKeepsFinBare | src/h3_event.rs:372-390 | a HEADERS event that announced no more frames never carries a body |
| Connection.H3Connection.AddReadCredit | src/connection.rs:247-254 | credit is added up to the window, only for a stream that has a credit entry; other streams and the log are unchanged |
| Connection.H3Connection.PushPending | src/connection.rs:31-81 | an empty buffer is recycled, a filled one becomes exactly one payload after everything sent before; an event is added exactly if there are bytes and they do not coalesce |
| Connection.H3Connection.ReadOnce | src/connection.rs:344-386 | one body read gets quiche's next answer: drained, failed, or exactly the bytes that fit go into the buffer; an empty read stalls the edge, and a failure is counted |
| Connection.H3Connection.FillBuffer | src/connection.rs:344-386 | reads until full, drained, failed or a zero read; which of these happened is reported exactly, and nothing is sent |
| Connection.H3Connection.ServeRound | src/connection.rs:337-434 | one round passes the buffer on, keeps the event budget exact, and asks for another round only after a full buffer |
| Connection.H3Connection.PassOn | src/connection.rs:388-430 | the buffer is kept exactly when it has bytes and room and quiche neither finished nor failed; a failure is reported by one error if and only if the body's last bytes do not take the only event left |
| Connection.H3Connection.ServeData | src/connection.rs:327-436 | afterwards the edge is answered, or parked in `pending_readable` with nothing buffered, or its last read returned zero bytes; parking without reading happens only at zero credit; every failed read is reported by exactly one error, save one if the budget is used up |
| Connection.H3Connection.ServeTurn | src/connection.rs:332-343 | one turn of serving: parked exactly without budget or credit, a round of reads otherwise |
| Connection.H3Connection.OnHeaders | src/connection.rs:291-326 | leftover body first, then HEADERS with its fin flag; a stream without credit entry gets the window; the largest request id is tracked; the budget is exceeded exactly if one event is left and bytes are held that do not coalesce |
| Connection.H3Connection.OnData | src/connection.rs:327-436 | a new DATA edge keeps the worker's invariants and spends exactly the events it emits |
| Connection.H3Connection.ServeReady | src/connection.rs:277-289 | a pending stream with credit is taken out and served; progress is made on reads or the pending set shrinks |
| Connection.H3Connection.OnFinished | src/connection.rs:437-455 | credit ends, the last bytes go out before FINISHED, nothing stays buffered; same exact budget condition |
| Connection.H3Connection.OnReset | src/connection.rs:456-470 | the last bytes go out before RESET; same exact budget condition |
| Connection.H3Connection.OnEnding | src/connection.rs:291-470 | HEADERS, FINISHED and RESET: an excess consists of exactly the held bytes and the report's own event |
| Connection.H3Connection.OnAnswer | src/connection.rs:290-491 | every poll result has its effect on the stream or the batch and keeps the invariants and the budget account |
| Connection.H3Connection.Turn | src/connection.rs:273-290 | a pending stream with credit goes first, then quiche's next report; idle only when neither exists |
| Connection.H3Connection.Advance | src/connection.rs:261-494 | one turn of the loop with its bookkeeping: the answers used, resets and ends noted, budget spent and moment of the last report stay exact |
| Connection.H3Connection.PollEvents | src/connection.rs:261-494 | nothing at budget 0; the loop ends only when the budget is used up, quiche fails, or quiche is drained and no pending stream has credit; resets and ends are noted exactly; the moment of the last report is a state of this run, with streams, batch and budget as they were then |
| Connection.H3Connection.ClearTracking | src/connection.rs:589-599 | every trace of the stream is gone and the blocked queue keeps the order of the others |
| Connection.H3Connection.ClearEnded | src/connection.rs:496-502 | every reset stream, and every finished one that is closed, is forgotten; every other stream, also a finished one that is not closed, keeps its state, its credit and its place among the blocked streams |
| Connection.H3Connection.PollDatagrams | src/connection.rs:988-1016 | exactly the first datagrams within the budget, in order |
| Connection.H3Connection.PollApp | src/connection.rs:261-506 | no application event at budget 0, otherwise at most budget + 1, datagrams included; budget + 1 if and only if the last report came, at a moment of this very run, with one event left and held bytes that do not coalesce, and then the poll ends in exactly those bytes and that report's event; never while reads into a buffer with room make progress; every failed read is reported by one error on its own stream, save one if the budget is used up, and nothing else is; below the budget nothing is left behind |
| ConnectionRuns.ExceedBudget | src/connection.rs:437-455 | a poll with a budget of one event, on a worker that holds one byte when FINISHED arrives, returns two events: the byte and FINISHED |
| ConnectionRuns.HoldOneByte | src/connection.rs:344-386 | such a worker, after a header section, a read of one byte and a read of none; its open DATA edge is outside `pending_readable` |
| ConnectionRuns.FailSilently | src/connection.rs:408-430 | a worker on which a read fails with one event left: the byte before it takes the event and no error is ever reported |
| Connection.EdgeIsDroppedExactly | src/connection.rs:327-436 | between events an open DATA edge is outside `pending_readable` if and only if the stream's last read returned no bytes, and a receive buffer is kept only then |
| Connection.H3Connection.PollDrain | src/connection.rs:510-564 | DRAIN, STREAM_ERROR and RESET go to exactly the streams that are due them by the blocked set, the closed and writable streams and the capacities; every cleared stream is forgotten, and the receive-side invariants survive |
| Connection.H3Connection.PollStreams | src/connection.rs:261-502 | the event loop and the clearing of ended streams: with budget to spare and no failure quiche is drained |
| Connection.H3Connection.Poll | src/connection.rs:261-507 | a whole poll keeps every invariant and the event bound and ends in exactly the drain events due on the streams still blocked; the streams left blocked are exactly those neither ended, closed, writable nor with capacity |
| Connection.H3Connection.SendRequest | src/connection.rs:657-680 | a request refused for stream credit tracks the predicted id as blocked, once |
| Connection.H3Connection.SendTrailers | src/connection.rs:877-896 | after trailers a bare FIN on the stream is accepted at once, whatever the capacity and whatever quiche would answer |
| Sending.FinIsFreeAfterTrailers | src/connection.rs:759-765 | a bare FIN needs nothing from quiche if and only if trailers were sent |
| Connection.H3Connection.SendBody | src/connection.rs:748-842 | when the call reaches quiche, the count reported and the rest given back are exactly those of quiche's answer, with the stream blocked if there is a rest; FIN is accepted exactly when nothing is left, and a call without room never reaches quiche |
| Sending.SendOnceTakesPrefix | src/connection.rs:748-842 | taken prefix + remainder == body, FIN only with an empty remainder |
| Sending.SendOnceReports | src/connection.rs:758-842 | one call reports exactly what quiche took of the buffer it was offered and gives back exactly the rest; which calls reach quiche at all |
| Sending.RequiredIsExact | src/connection.rs:767-777 | the room demanded is the frame type, the shortest varint that holds the length, and one payload byte if there is any |
| Sending.RetryHandsOverOnce | src/connection.rs:748-842 | retrying the remainder under any capacities and answers: what quiche took, by its own answers, followed by what is left, is the body; quiche gets FIN exactly once, when nothing is left, unless trailers have carried it |
| Connection.H3Connection.StreamClose | src/connection.rs:845-869 | no map, set or queue mentions the stream any more, other streams are untouched |
| Queues.ListsMeans | src/connection.rs:778-842 | the representation invariant in plain words: no two queue positions agree and the set holds exactly the queue's streams |
| Queues.RetainKeepsOrder | src/connection.rs:589-599 | streams that stay blocked keep their relative order |
| Blocked.BlockedStreams.Track | src/connection.rs:778-781 | a blocked stream is listed once, at the back |
| Blocked.BlockedStreams.Remove | src/connection.rs:589-599 | exactly this stream leaves set and queue |
| Blocked.BlockedStreams.PruneClosed | src/connection.rs:566-581 | exactly the closed blocked streams are cleared |
| Blocked.BlockedStreams.DrainWritable | src/connection.rs:513-530 | writable streams leave: stopped ones are cleared, blocked ones are woken exactly once |
| Blocked.BlockedStreams.ProbeBlocked | src/connection.rs:536-563 | one rotation of the queue drains exactly the streams with capacity, reports exactly those with an error, and leaves the others in order |
| Blocked.BlockedStreams.PollDrain | src/connection.rs:510-564 | a stream is pruned, stopped, drained or reported exactly when it is due, from the blocked set, the closed and writable streams and the capacities alone; each leaves by exactly one of these, and the queue is the old one without them |
| PendingWrites.PendingWrite.PushChunk | src/pending_write.rs:27-33 | the queued body grows by exactly the chunk |
| PendingWrites.PendingWrite.Flush | src/pending_write.rs:63-118 | what quiche took, by its own answers, + queue == old queue, FIN goes out exactly when the flush finishes, an unfinished flush leaves the stream blocked, released + queued admission units == units before; a transport error loses exactly the chunk being sent |
| PendingWrites.UnitsAreConserved | src/pending_write.rs:63-118 | for any write and any part of it taken, the units released and the units still owed are the units of the write |
| Readable.DeliverKeepsReader | lib/stream.ts:342-346 | pushing data loses, duplicates and reorders nothing, keeps unread bytes within uncredited + high-water mark, and leaves a credit step scheduled whenever one is due |
| Readable.ReadCallKeepsReader | lib/stream.ts:335-339 | so does every read for which Node runs `_read` |
| Readable.TakeKeepsReader | lib/stream.ts:335-339 | so does every read for which it does not, also after the end |
| Readable.CreditTickKeepsReader | lib/stream.ts:348-363 | so does the deferred credit step, accepted or refused, and the credit sent is exactly what was uncredited |
| Readable.RefillMoves | lib/stream-backpressure.ts:227-241 | refilling Node's buffer from the spill only moves bytes; it pushes at least one chunk, and stops before the last only when Node refuses more |
| Readable.ReceiveHalf.PushChunk | lib/stream-backpressure.ts:192-221 | the object does what the model function says: drop when destroyed, destroy over the limit, spill under backpressure, push otherwise |
| Readable.ReceiveHalf.OnData | lib/stream.ts:342-346 | counts, pushes, schedules credit, and keeps the reader invariant |
| Readable.ReceiveHalf.DrainPendingReads | lib/stream-backpressure.ts:227-241 | the in-place loop equals the recursive refill |
| Readable.ReceiveHalf.Read | lib/stream.ts:335-339 | `_read` followed by the read keeps the reader invariant |
| Readable.ReceiveHalf.TakeBuffered | lib/client.ts:508-521 | taking buffered bytes, also after the end, moves exactly them to the consumer |
| Readable.ReceiveHalf.ReturnReadCredit | lib/stream.ts:355-363 | credit that the command queue takes is sent whole and no longer counted; refused credit stays counted and is tried again; nothing is sent while paused or destroyed |
| WriteDriver.RunAll | lib/stream.ts:235-543 | every script of write, final, trailers, drain, write-ready, blocked, slice, release, destroy and close is a run of the object, whatever the transport answers: each operation its caller may perform has exactly its effect, the others are skipped, and in every state the ledger's promise holds, the transport has exactly the admitted bytes, and an outstanding callback has exactly one wake-up left |
| WriteRuns.RunKeepsOrder | lib/stream.ts:365-440 | over every run, the bytes the transport took are an in-order prefix of those handed over, which are the operations' own bytes one after the other |
| WriteRuns.RunUndoesNothing | lib/stream.ts:281-287 | over every run, no admission, callback or FIN is undone, and a destroyed stream stays so with nothing outstanding |
| WriteRuns.FinIsOvertakenExactly | lib/stream.ts:235-247 | over every run, a FIN precedes a byte of the writes if and only if trailers or another FIN besides the writes were sent while bytes waited, or a non-empty write followed them; the writes' own FIN comes only after all of their bytes |
| WriteDriver.OvertakeByte | lib/stream.ts:235-247 | a run in which it does: blocked, one byte written, trailers sent |
| WritePath.StreamWriter.SendEarlyFin | lib/stream.ts:245-246 | trailers carry FIN out past whatever waits, and leave every waiting callback in place |
| WriteDriver.Do | lib/stream.ts:235-543 | each single operation hands over exactly its own bytes; an offer that leaves bytes or a bare FIN unsent parks exactly these, any other answer completes the callback now or, above the window, later, and admits FIN if it was asked for; a throw fails the callback; and so on for blocking, slices, releases and destruction |
| WriteDriver.FinishWrite | lib/stream.ts:397-483 | no write is ever stuck: from every state with one outstanding, drains, turns and a transport that takes what it is offered complete it, with every byte and FIN on the wire and its callback called once, with success |
| WritePath.StreamWriter.Write | lib/stream.ts:365-372 | a write is handed over once; what the transport takes is admitted, the rest waits for exactly one wake-up |
| WritePath.StreamWriter.Final | lib/stream.ts:485-501 | the closing chunk and FIN follow everything written; they are dropped exactly when FIN had already been sent |
| WritePath.StreamWriter.Begin | lib/stream.ts:397-440 | a chunk within the slice limit is tried at once, a larger one becomes a bounded write |
| WritePath.StreamWriter.Attempt | lib/stream.ts:397-483 | blocked: parked whole; a throw: the callback fails; otherwise exactly the taken bytes are admitted and the callback completes, waits for the window or waits for the next drain by the transport's count |
| WritePath.StreamWriter.Send | lib/stream.ts:414-440 | the remainder is parked exactly if bytes, or a bare FIN, were not taken; otherwise the callback completes within the window and is delayed above it |
| WritePath.StreamWriter.Complete | lib/stream-backpressure.ts:143-158 | the callback fires now within the high-water mark, and is delayed otherwise |
| WritePath.StreamWriter.CallBack | lib/stream-backpressure.ts:48-92 | the last slice completes Node's write, an earlier one schedules the next |
| WritePath.StreamWriter.NextSlice | lib/stream-backpressure.ts:77-92 | the next slice starts where the last ended, never exceeds the limit, and carries FIN only at the end |
| WritePath.StreamWriter.FireDrainCallbacks | lib/stream-backpressure.ts:247-253 | each parked chunk is retried once; nothing changes while still blocked |
| WritePath.StreamWriter.OnDrain | lib/stream.ts:314-319 | flow control opens and the parked chunk is tried |
| WritePath.StreamWriter.OnWriteReady | lib/stream.ts:321-329 | room in the command queue retries without touching flow control |
| WritePath.StreamWriter.OnBlocked | lib/stream.ts:331-333 | only the flag changes |
| WritePath.StreamWriter.ReleaseWindow | lib/stream-backpressure.ts:124-135 | the next turn empties the window and fires exactly the delayed callback |
| WritePath.StreamWriter.RejectDrainCallbacks | lib/stream-backpressure.ts:281-289 | parked callbacks fire with the error |
| WritePath.StreamWriter.Destroy | lib/stream.ts:530-543 | the outstanding callback, wherever it waits, fires exactly once with the error |
| WritePath.StreamWriter.Close | lib/stream.ts:281-287 | closing keeps the promise |
| ArcBufs.Buffers.FromVec | src/arc_buf.rs:44-68 | a first handle sees the vector from its offset on, also when the allocation was wrapped and released before; all other handles see what they saw |
| ArcBufs.Buffers.Clone | src/arc_buf.rs:35-40 | the clone sees the same bytes, nobody else is affected |
| ArcBufs.Buffers.SplitAt | src/arc_buf.rs:117-130 | front and tail concatenate to the old view, windows stay inside the allocation, nobody else is affected |
| ArcBufs.Buffers.TryAddPrefix | src/arc_buf.rs:132-150 | succeeds exactly for an empty prefix or with room before the window and no other handle; then the view is prefix + old view; no other view ever changes |
| ArcBufs.Buffers.IntoVec | src/arc_buf.rs:76-91 | the bytes of the window; the allocation itself moves out exactly when this handle was its only one and saw all of it |
| ArcBufs.Buffers.Drop | src/arc_buf.rs:21-29 | the allocation is released exactly when its last handle goes |
| ArcBufs.OnlyOwner | src/arc_buf.rs:140-142 | a count of one means no other live handle shares the allocation |
| Ownership.OnePlaceEach | src/chunk_pool.rs:121-154 | after any run every allocation is in exactly one of bins, channel, one chunk, shared buffers, caller, freed, and was sent back at most once per checkout |
| Ownership.ReturnIsLast | src/arc_buf.rs:21-29 | an allocation is sent back only when no chunk, handle or caller has it any more, and the return answers the latest checkout |
| Ownership.LastOwnerSendsBack | src/chunk_pool.rs:337-345 | when its last owner goes, an allocation with a way back is sent back exactly if the channel has room, and freed otherwise |
| Ownership.EveryMoveIsDue | src/chunk_pool.rs:287-345 | in every step an allocation is freed, comes to a caller, or enters or leaves the bins exactly when it is due |
| Ownership.StepKeepsInv | src/chunk_pool.rs:287-345 | each transfer of a chunk, shared buffer, vector or returned buffer, and an append that reallocates, keeps this |
| Ownership.RunKeepsInv | src/chunk_pool.rs:287-345 | hence so does every run |
| Pools.ClassFor | src/proof_core/chunk_pool_model.rs:29-31 | the smallest class that holds the request, or none |
| Pools.ClassCovered | src/proof_core/chunk_pool_model.rs:37-43 | the largest class the capacity covers; none below the first class or above the last |
| Pools.FoundFits | src/chunk_pool.rs:62-87 | any buffer found from the request's class upward has room, so reuse never grows |
| Pools.ChunkPool.CheckoutEmpty | src/chunk_pool.rs:94-110 | the first stocked bin from the request's class on gives its newest buffer; otherwise a new one that covers its class, pool unchanged |
| Pools.ChunkPool.Checkout | src/chunk_pool.rs:62-87 | exactly `len` zeros in a reused allocation of unchanged capacity, or in a new one |
| Pools.ChunkPool.CheckoutCopy | src/chunk_pool.rs:113-117 | exactly the copied bytes, likewise |
| Pools.ChunkPool.Checkin | src/chunk_pool.rs:121-130 | kept exactly if the one bin for its capacity has room, and then added to it; bins keep their caps |
| Pools.ChunkPool.DrainReturned | src/chunk_pool.rs:133-137 | every returned buffer is filed or dropped in order, the channel ends empty |
| Pools.Chunk.Advance | src/chunk_pool.rs:275-278 | the unwritten bytes lose exactly the written front |
| Pools.Chunk.Append | src/chunk_pool.rs:313-323 | the unwritten bytes grow by exactly the data; the allocation stays the same if the result fits |
| Pools.Chunk.IntoVec | src/chunk_pool.rs:287-290 | the whole vector moves out and can no longer go back to the pool |
| Pools.Chunk.IntoRemainingVec | src/chunk_pool.rs:294-300 | exactly the unwritten bytes move out, without a way back to the pool |
| Pools.Chunk.IntoRawParts | src/chunk_pool.rs:304-309 | vector, offset and the way back move to the next owner together, and dropping the chunk then does nothing |
| Pools.Chunk.Drop | src/chunk_pool.rs:337-345 | the emptied vector is sent back exactly once, if there is a way back and the channel has room |
| Pools.RightSizedPool.Take | src/buffer_pool.rs:31-42 | the capacity test never fails, so no popped buffer is lost: one buffer leaves and is returned, or nothing changes |
| Pools.RightSizedPool.Recycle | src/buffer_pool.rs:44-55 | kept, emptied, exactly if the one bucket for its capacity has room, at most 256 per class |
| Pools.AdaptiveBufferPool.CheckoutEmpty | src/buffer_pool.rs:156-168 | the last own buffer with room, else the shared pool, else a new one of at least the minimum capacity |
| Pools.AdaptiveBufferPool.FindFitting | src/buffer_pool.rs:157 | the search from the back finds the last buffer with room |
| Pools.SwapRemoveKeepsTheRest | src/buffer_pool.rs:158 | swap-removal loses only the removed buffer |
| Pools.AdaptiveBufferPool.Checkout | src/buffer_pool.rs:182-189 | zeros, whatever the buffer held before |
| Pools.AdaptiveBufferPool.CopyFromSlice | src/buffer_pool.rs:201-205 | exactly the copied bytes |
| Pools.AdaptiveBufferPool.Checkin | src/buffer_pool.rs:245-256 | kept empty if of a size to keep and there is room, offered to the shared pool otherwise |
| Pools.RecycleReceived | src/buffer_pool.rs:270-280 | a buffer is dropped only when both the channel and the shared pool refuse it |
| SseRoundTrip.RoundTrip | lib/eventsource.ts:217-288 | for any events and comments and any cut into chunks, the parser dispatches exactly those events with type, data and last id, keeps id and retry interval, and has nothing left over; comments are invisible |
| SseRoundTrip.ChunksDoNotMatter | lib/eventsource.ts:217-227 | feeding chunks equals feeding their concatenation |
| SseRoundTrip.LineSurvives | lib/eventsource.ts:217-268 | a printed data line comes back if and only if it has no LF and does not end in CR |
| SseRoundTrip.SplitRoundTrip | lib/sse.ts:51-53 | text without CR is split into lines that survive, and joining restores it |
| SseRoundTrip.ParsePrinted | lib/eventsource.ts:260-266 | a printed retry interval parses back to itself |
| SseValues.PrintedRetry | lib/sse.ts:46-48 | the printed interval is a line of digits whose value is the interval rounded down, and 0 for a negative one |
| SseValues.ParseIntReads | lib/eventsource.ts:257-261 | a retry value is read as blanks, a sign and digits, whatever follows; without digits there is no value |
| SseValues.IdComesBack | lib/eventsource.ts:252-256 | a printed id comes back if and only if it contains no NUL |
| SseRoundTrip.ItemFrame | lib/sse.ts:36-64 | one printed event or comment has exactly the effect of handing over the item |
| Sse.PrintEvent | lib/sse.ts:36-58 | the list-building printer yields the frame the round trip is about |
| Sse.EventSource.OnChunk | lib/eventsource.ts:217-227 | the in-place loop equals the recursive reading of complete lines |
| Sse.EventSource.OnLine | lib/eventsource.ts:229-271 | one line has the effect of the reference line function |
| Sse.EventSource.DispatchMessage | lib/eventsource.ts:273-292 | a blank line dispatches the collected data or resets the type |
| Routing.RemovedIsNeverRouted | src/connection_map.rs:228-237 | once a connection is removed no connection id ever routes to it again, whatever follows |
| Routing.UnclaimedKeepsRoute | src/connection_map.rs:119-134 | an id nobody else claims keeps its route as long as its connection lives and it is not unregistered |
| Routing.RunKeepsTable | src/connection_map.rs:119-268 | every route leads to a live connection, over any run |
| Routing.ConnectionMap.RoutePacket | src/connection_map.rs:119-121 | the slot found holds the very connection the ideal table names, although slots are reused |
| Routing.ConnectionMap.AddDcid | src/connection_map.rs:125-129 | registers for a live handle, ignored otherwise |
| Routing.ConnectionMap.RemoveDcid | src/connection_map.rs:132-134 | this id routes nowhere any more and every other id is as before |
| Routing.UnregisteredIsNotRouted | src/connection_map.rs:132-134 | an unregistered id routes nowhere until it is claimed again |
| Routing.ClaimedIsRouted | src/connection_map.rs:125-129 | a claimed id routes to the connection that claimed it while that lives and the id is not claimed again or unregistered |
| Routing.ConnectionMap.AcceptNew | src/connection_map.rs:174-215 | refused exactly at the maximum or when quiche refuses; otherwise a fresh identity, and the live count stays within the maximum |
| Routing.ConnectionMap.Remove | src/connection_map.rs:228-237 | the slot is emptied with every id that led to it; an empty handle changes nothing |
| Routing.ConnectionMap.DrainClosed | src/connection_map.rs:256-268 | exactly the closed connections are removed and returned in slot order, survivors' routes are unchanged |
| Routing.ClosedOfIsExact | src/connection_map.rs:256-262 | the collected handles are ascending and exactly the closed ones |
| QuicServerRace.OneOwnedLoop | lib/quic-server.ts:351-535 | in every interleaving at most one event loop is open, and it is published, or held by its startup, or being closed |
| QuicServerRace.OthersAreClosed | lib/quic-server.ts:489-528 | every other loop is closed if and only if no loop's own `close()` was rejected |
| QuicServerRace.RejectedDiscardOutlivesClose | lib/quic-server.ts:489-531 | a run in which a superseded startup's rejected discard leaves its loop behind a close that resolves |
| QuicServerRace.ResolvedCloseIsFinal | lib/quic-server.ts:512-535 | once a close has resolved, no loop of an earlier startup is owned by anyone, then or later, and all of them are closed if no loop's own `close()` was rejected |
| QuicServerRace.ClosingProgresses | lib/quic-server.ts:512-535 | while `_closing` is set some step of the close or of the startup it awaits is possible |
| QuicServerRace.ClosedServerListensAgain | lib/quic-server.ts:351-361 | a server whose close has resolved and whose startup is forgotten can listen again |
| QuicServerRace.RankFalls | lib/quic-server.ts:512-535 | between two calls only boundedly many steps happen, so every close ends |
| QuicServerRace.StepKeepsInv | lib/quic-server.ts:351-535 | every step of listen, startup and close keeps the ownership invariant |
| QuicServerRace.RunKeepsInv | lib/quic-server.ts:351-535 | hence so does every interleaving |
| QuicServerRace.QuicServer.Listen | lib/quic-server.ts:351-361 | refused exactly while starting, listening or closing; otherwise a new generation starts |
| QuicServerRace.QuicServer.FactoryReturns | lib/quic-server.ts:388-486 | the new loop belongs to the startup; a failure settles it |
| QuicServerRace.QuicServer.PublishOrDiscard | lib/quic-server.ts:489-495 | published exactly if no close came in between |
| QuicServerRace.QuicServer.DiscardReturns | lib/quic-server.ts:490-491 | a superseded loop is closed by its own startup |
| QuicServerRace.QuicServer.StartupEnds | lib/quic-server.ts:498-504 | the startup settles and is forgotten, the loop stays where it is |
| QuicServerRace.QuicServer.Close | lib/quic-server.ts:512-516 | one close task per lifecycle; it supersedes the running startup |
| QuicServerRace.QuicServer.CloseProceeds | lib/quic-server.ts:520-525 | after the startup settled the loop is taken, nothing stays published |
| QuicServerRace.QuicServer.CloseReturns | lib/quic-server.ts:525-528 | success ends closing, a rejection leaves that to the final clause |
| QuicServerRace.QuicServer.CloseFinally | lib/quic-server.ts:529-532 | the flag is reset for this lifecycle only |
| Goaway.GoawayIdIsAbove | src/connection.rs:943-952 | the announced id is a request id, and strictly above every accepted one if and only if 2^62 - 4 was not accepted |
| Goaway.LastIdIsNotCovered | src/connection.rs:948-952 | with 2^62 - 4 accepted, the announced id is itself an accepted request |
| Goaway.GoawayIdsGrow | src/connection.rs:943-952 | announced ids never fall; they keep to section 5.2 of RFC 9114, which forbids a larger one, exactly when no larger request was accepted in between or the id is the last one |
| Goaway.SecondGoawayGrows | src/connection.rs:943-952 | a run whose second GOAWAY announces a larger id |
| Goaway.Sender.Accept | src/connection.rs:305-311 | the tracked id is the largest accepted one |
| Goaway.Sender.SendGoaway | src/connection.rs:943-968 | above every accepted request but possibly the last id, and no higher than needed |
| Goaway.Receiver.Request | lib/client.ts:299-340 | refused after GOAWAY, otherwise tracked |
| Goaway.Receiver.OnGoaway | lib/client.ts:556-576 | exactly the open streams from the id on fail, once each; the others stay |
| Goaway.Receiver.FailFrom | lib/client.ts:562-575 | deleting while iterating visits every stream once, in order |
| Goaway.GoawayAgreement | lib/client.ts:556-576 | over every run the only request that was accepted when a GOAWAY was sent and that it fails can be the last id, and nothing at or above an announced id keeps running |
| Goaway.LateRequestIsFailed | lib/client.ts:556-576 | a request accepted after the GOAWAY was sent can be failed by it |
| Pings.FrontOnlyIsExact | src/ping_state.rs:26-38 | examining only the front equals a full scan if and only if no acknowledged ping stands behind an unacknowledged one |
| Pings.SortedIsFrontFirst | src/ping_state.rs:26-38 | sorted thresholds guarantee that, and the loop stops at the first unacknowledged ping |
| Pings.AckedMeansAnswered | src/ping_state.rs:18-38 | a queued ping is acknowledged exactly when a packet was sent and bytes were acknowledged since; a saturated counter counts as grown |
| Pings.PingState.Queue | src/ping_state.rs:18-24 | with monotone counters the queue stays sorted in both thresholds |
| Pings.PingState.CompleteAcked | src/ping_state.rs:26-38 | completes exactly the acknowledged pings in queue order and leaves exactly the others |

## Left out

- quiche, BoringSSL, N-API, the slab, channels and Node's stream internals: oracles with contracts, as above.
- UTF-8 decoding in the SSE parser: the text is taken after decoding.
- SSE retry values of 10^21 ms and above, which JavaScript prints in exponent form; SSE reconnection, heartbeats and headers.
- Connection.H3Connection.PollDrain: decides about all blocked streams before it applies the receive-side effects; the source interleaves them stream by stream, on separate fields.
- Readable.ReceiveHalf.Read: Node's buffer is one byte string, so chunk boundaries and object mode are not modelled.
- The queue in which the wasm transport postpones trailers, and the bodies of one-call responses, beyond the FIN both carry; timeouts, metrics, qlog and lifecycle traces.
- Lazily allocated backpressure state: a missing state behaves like an empty one.
- Pools.AdaptiveBufferPool.Checkin: the retained maximum is four times the minimum without machine-word saturation.
- Ownership.OnePlaceEach: bins are one set, because size classes and caps are proved in `Pools`; a caller's vector is never given a way back to the pool.
- QuicServerRace.OneOwnedLoop: callbacks for runtime information that throw are not modelled, nor is the choice between native and wasm loops.
- CreditProtocol.QuiescentStreamIsWhole: a stream whose last body read succeeded with zero bytes has its edge outside `pending_readable` (see the exact condition above) and is outside the claim.
- Goaway.Receiver.OnGoaway: which error a failed stream reports, and listeners that run while streams are destroyed.
- Retry tokens, connection-id layouts, configuration, TLS, sessions, the HTTP/2 and framework adapters, command-line tools: option plumbing, finite branching or I/O.
- The plain `BufferPool` of fixed packet buffers and the server and session facades: they would only add easy members.
