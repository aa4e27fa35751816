# Verified model of the CANIOT controller firmware

A Dafny 4.11 model of the parts of the STM32F429ZI CANIOT controller whose
correctness does not show from reading one function: the reference-counted
event bus of the home-automation core and its filters, the asynchronous file
reader, the HTTP server's request, response and session handling, the CRC-32,
the credential slots in flash, the reconnection delays and the cloud task.
`dafny verify dfyconfig.toml` checks all of it.

Objects that the source updates in place are classes with the same fields and
methods, loops over buffers keep their arrays, and a method is proved against a
function of its inputs. Code that several threads run at once (the event bus,
the file reader) is a state machine: one action is one atomic step of one
thread, and a statement about every list of actions is a statement about every
interleaving.

| file | component |
|---|---|
| `EventBus.dfy` | events, endpoints, subscriptions and their atomic steps |
| `EventBusSafety.dfy` | who owns and who refers to each event, over every interleaving |
| `EventBusLimits.dfy` | exactly when that safety holds |
| `EventBusQueues.dfy` | no event is queued twice in one queue |
| `EventBusOrder.dfy` | events are handed out in the order of their matches, and offered to every subscription |
| `EventBusStats.dfy` | what the statistics counters are due to hold |
| `EventBusHeap.dfy` | the same for the heap counter |
| `EventBusCounters.dfy` | the counters as plain fields, loaded and stored by any thread |
| `EventBusLostUpdate.dfy` | the run that loses an update, and exactly when none is lost |
| `AsyncReader.dfy` | producer and reader of a file, over every interleaving |
| `AsyncReaderWakeUp.dfy` | exactly for which files a K_FOREVER read can hang |
| `AsyncReaderProgress.dfy` | exactly in which runs it does, and that all others reach the end of the file |
| `HttpMonitor.dfy` | request callbacks against the server's own run-time monitor |
| `HttpReceive.dfy` | the receive loop and its buffer |
| `HttpChunked.dfy` | the chunked response writer against a decoder |
| `HttpSessions.dfy` | session pool, pollfd array, poll timeout |
| `SubsFilters.dfy` | subscription filters and their lookup table |
| `CloudTask.dfy` | the cloud state machine and its subscription |
| `DeviceRegistry.dfy` | registration and lookup of devices |
| `Crc32.dfy` | table-driven CRC against polynomial division |
| `FlashCreds.dfy` | provisioning script and firmware reader |
| `Backoff.dfy` | reconnection delays and the connect loop |
| `Common.dfy` | widths, bytes and small shared functions |

## What the model takes for granted

- Event queues are intrusive lists (`src/ha/core/ha.h:297`), modelled as
  sequences. That is right while an event is in one queue at a time;
  `QueuedOnce` proves it never is twice in the same one, and the firmware has a
  single subscriber (`src/cloud/cloud_app.c:72`).
- Both slab allocators of the bus return their block through a static variable
  (`src/ha/core/ha.c:786-797` and `819-833`), modelled as a write and a later
  read; `k_mem_slab_alloc` stores NULL when no block is left. Three rules can be
  laid on a run: event allocations do not overlap; subscription allocations do
  not overlap; no event of a device is added while an iteration has its endpoints
  locked, as the note at `src/ha/core/ha.h:656` asks. Ownership is proved for
  runs that keep all three; `SafeExactly` says for any choice of rules what
  happens without the others.
- An update of a statistics counter is a load and a store. The counters are
  integers: their wrap at 2^32 is not modelled, so the balances are to be read
  modulo 2^32.
- Asynchronous reads use K_FOREVER or K_NO_WAIT, `fs_read` does not fail and is
  short only at the end of the file.
- `http_parser` appears as the sequence of its callbacks: headers complete, body
  pieces of at least one byte, chunk header and chunk completion for every chunk
  including the empty last one, message complete. In `HttpReceive` it consumes
  what it is given and stops where the request ends.
- The pollfd array of the HTTP server is moved up to and including index
  `clients_count` (`src/http_server/core/http_server.c:302-307`), which is one
  past its end when the table is full. The model has that slot, takes it to hold
  zeros, and records whether it is touched. The socket layer never hands out a
  descriptor that is still open.
- A `send` never returns 0 for a non-empty buffer: `sendall`
  (`src/http_server/core/http_server.c:497-512`) would then return `-errno`, and
  `send_chunk` takes a value of 0 for success.
- `MIN` in `src/cloud/core/backoff.c:70` is the minimum of the cap and one random
  draw.
- CANIOT device identifiers compare equal exactly when class and number are equal.
- The CRC of the credential slots is any function used by both sides, since both
  call a library for it.

## Model

| member | source | states |
|---|---|---|
| `EventBusSafety.OwnershipSafety` | src/ha/core/ha.c:564-698 | In every interleaving of one producer per device with any consumers, subscribing threads and iterators that keeps the three rules, when endpoints retain their last event: no step touches a freed event or subscription, initialises or lists a subscription in use, frees an event twice or frees one still referenced; `ref_count` equals retaining endpoints plus queue entries plus references held; a slab block is free exactly when nobody refers to it and no thread is building or freeing it, and at most one thread is; a subscription has one handle while it is listed and none otherwise. |
| `EventBusSafety.RunKeeps` | src/ha/core/ha.c:786-996 | The invariant behind it (counts, ownership, phase of each producer and of each subscribing thread, list and lock discipline) is kept by every step of every such run. |
| `EventBusLimits.SafeExactly` | src/ha/core/ha.c:786-843 | Whatever rules the runs keep to, all of them are free of faults if and only if every endpoint has the retain flag, the note on iteration is kept, event allocations do not overlap or there is one device thread, and subscription allocations do not overlap or there is one subscribing thread. |
| `EventBusLimits.SafeExactlyWhenRetaining` | src/ha/core/ha.c:667-695 | When all three rules are kept, the retain flag on every endpoint is what decides: the final test of the count is only safe then. |
| `EventBusLimits.TestAfterFree` | src/ha/core/ha.c:667-695 | For every configuration with an endpoint that does not retain, a run in which the consumer frees the event before the producer's final test reads it. |
| `EventBusLimits.SharedBlock` | src/ha/core/ha.c:819-843 | Two device threads that both write the static variable before reading it back end up with the same block, and the run faults. |
| `EventBusLimits.SharedOnlyBlock` | src/ha/core/ha.c:819-843 | The same with a pool of one block, through a failed allocation. |
| `EventBusLimits.SharedSubscription` | src/ha/core/ha.c:786-797 | With every other rule kept, two threads that both write the static variable of the subscription allocator before reading it back get the same subscription, and the second initialises it while it is on the list. |
| `EventBusLimits.SharedOnlySubscription` | src/ha/core/ha.c:786-797 | The same with a single subscription, through a failed allocation. |
| `EventBusLimits.UnlockedTooMuch` | src/ha/core/ha.c:439-470 | With every other rule kept, an event added to an endpoint that was locked while it had none: the unlock drops the reference of the endpoint itself, and the next iteration touches a freed event. |
| `EventBusStats.StatsConserved` | src/ha/core/ha.c:577-697 | In every run the updates due balance: processed, dropped and unfinished calls add up to the calls made, the six drop reasons to the drops, used plus remaining events to the pool. |
| `EventBusHeap.HeapConserved` | src/ha/core/ha.c:632-640 | In every safe run the updates due to the heap counter add up to the data sizes of the live events that nobody has begun to free. |
| `EventBusCounters.ReasonsByAction` | src/ha/core/ha.c:590-656 | In every run the updates due to each reason counter are as many as the calls dropped for that reason. |
| `EventBusCounters.CounterIdentity` | src/ha/core/ha.h:464-504 | In every interleaving of loads and stores, each counter is its total due less the updates still to be stored and less what stores have overwritten. |
| `EventBusCounters.UndisturbedCounters` | src/ha/core/ha.c:679-695 | Whenever no update is outstanding and every store has found the value its thread had loaded, the counters themselves balance: calls, reasons, pool, and in a safe run the heap. |
| `EventBusCounters.ExactWhenUndisturbed` | src/ha/core/ha.c:679-695 | A counter that only rises never exceeds its total due, and with no update outstanding it has reached it if and only if no store of it was disturbed. |
| `EventBusCounters.CallsCountedExactly` | src/ha/core/ha.c:679-695 | With no update outstanding, processed plus dropped plus unfinished calls are the calls made if and only if no store to either of the two counters was disturbed. |
| `EventBusLostUpdate.LostUpdate` | src/ha/core/ha.c:686-691 | For every pool and every number of devices above one, a run that keeps all rules and in which one device overwrites the drop another one has counted. |
| `EventBusLostUpdate.CountsCallsExactly` | src/ha/core/ha.c:679-691 | Whatever rules the runs keep to, the counters account for all calls whenever no update is outstanding if and only if there is at most one device. |
| `EventBusQueues.QueuedOnce` | src/ha/core/ha.c:945-970 | In every safe run no subscription queue holds an event twice, and the event a producer works on carries its device. |
| `EventBusOrder.FirstInFirstOut` | src/ha/core/ha.c:945-970 | In every safe run, the events handed out from a subscription since it was listed, followed by its queue and by the one about to be queued, are the events matched for it, all of them and in the order of the matches. |
| `EventBusOrder.TakenInOrder` | src/ha/core/ha.c:1128-1134 | The next event handed out is the first match not handed out yet. |
| `EventBusOrder.OfferedToAll` | src/ha/core/ha.c:972-996 | In every safe run the list holds exactly the listed subscriptions, and a thread at the end of a notification has asked each of them, once, in order. |
| `AsyncReader.ReaderSafety` | src/fs/asyncrw.c:66-151 | For every interleaving of producer and reader: the bytes delivered are a prefix of the file; delivered, in-hand and queued bytes make up the file up to the producer's position; the semaphore follows the queue; blocks are conserved; at most one activation is pending or running; end of file means the whole file was delivered; a K_FOREVER read is short only at the end of file. |
| `AsyncReader.NothingAfterEof` | src/fs/asyncrw.c:273-281 | Once the end of file is reported, every later read returns 0 bytes. |
| `AsyncReader.PrefixExactlyWhenOffsetFits` | src/fs/asyncrw.h:37-42 | The delivered bytes are a prefix of the file in all runs of all files if and only if a block's payload is at most 65536 bytes, because `offset` has 16 bits. |
| `AsyncReader.WrappedOffset` | src/fs/asyncrw.c:319-347 | For every larger payload, a file and a run that deliver a byte twice. |
| `AsyncReaderWakeUp.HangsExactlyWhenPoolFills` | src/fs/asyncrw.c:105-151 | Some run leaves a K_FOREVER read waiting with no activation due if and only if the file is at least as long as all blocks together. |
| `AsyncReaderWakeUp.StrandedForever` | src/fs/asyncrw.c:301-309 | Such a read never returns, whatever runs afterwards. |
| `AsyncReaderWakeUp.NeverStranded` | src/fs/asyncrw.c:66-71 | A shorter file never runs the pool dry before its end is seen, so no run gets there. |
| `AsyncReaderProgress.HangsExactlyWhenMissed` | src/fs/asyncrw.c:66-71 | Run by run: a K_FOREVER read that finds nothing while no activation runs hangs if and only if its reader last tested the ACTIVE flag between a failed allocation and the clearing of the flag, with the queue empty. |
| `AsyncReaderProgress.TimelyNeverStranded` | src/fs/asyncrw.c:105-151 | Whatever the length of the file, a run with no reader step in that interval never hangs. |
| `AsyncReaderProgress.FinishesExactly` | src/fs/asyncrw.c:355-375 | After any run, stepping producer and reader in turn reaches the end of the file if and only if the wake-up was not missed. |
| `AsyncReaderProgress.DeliversFile` | src/fs/asyncrw.c:345-361 | And then the finished reads are the whole file. |
| `AsyncReaderProgress.EmptyExactly` | src/fs/asyncrw.c:301-309 | In every run a read comes back without bytes only as -EBUSY of a K_NO_WAIT read, or at the end of the file. |
| `HttpMonitor.Serve` | src/http_server/core/http_utils.c:455-535 | For every route, head length, body (plain or chunked, any split), behaviour of the handlers and buffer size, the monitor ends at OK if and only if the request is refused before any handler call (no route or handler, a chunked body not announced, a message or the head of a stream longer than the buffer), or every call fits: no piece left unoffered by a raised `flush_len` before the call, chunk fields below 65536, `user_data` unset when the call counter wraps, a response buffer of 512 bytes, at most 2^32 response calls, and a single one for a message unless it is empty. |
| `HttpMonitor.ChunkedClosedForm` | src/http_server/core/http_request.h:191-206 | For handlers that succeed and leave `flush_len` at 0, that condition on a chunked body says: at most 65536 chunks, pieces shorter than 65536 bytes, each starting within the first 65536 bytes of its chunk. |
| `HttpMonitor.PlainFits` | src/http_server/core/http_utils.c:292-320 | A plain body of up to 2^32 pieces, all of them offered, always passes, however it is cut. |
| `HttpMonitor.PlainClosedForm` | src/http_server/core/http_utils.c:230-257 | By index: a plain body of which all pieces are offered passes if and only if `user_data` is unset whenever the call counter wraps. |
| `HttpMonitor.PlainStreamSilentExactly` | src/http_server/core/http_utils.c:335-453 | A whole request, streamed and plain, with handlers that succeed: silence if and only if its body passes and it is answered in at most 2^32 calls from a buffer of 512 bytes or more, or not at all. |
| `HttpMonitor.ChunkedStreamSilentExactly` | src/http_server/core/http_utils.c:335-453 | The same for a chunked one, in its closed form. |
| `HttpMonitor.MessageSilentExactly` | src/http_server/core/http_utils.c:366-384 | A message that fits the buffer: silence if and only if it is not answered, or answered from 512 bytes or more in one call, or in up to 2^32 if it is empty. |
| `HttpMonitor.RefusedSilent` | src/http_server/core/http_server.c:793-803 | Requests without route or handler, with an unannounced chunked body, or too large for the buffer leave the monitor silent. |
| `HttpMonitor.LostPieceFires` | src/http_server/core/http_request.c:432-441 | A last piece shorter than the `flush_len` just set makes the first response call fire. |
| `HttpMonitor.MonitorFires` | src/http_server/core/http_utils.c:259-320 | Three requests on which the monitor fires: a piece of 65536 bytes, a message answered in two calls, and a piece too short for the `flush_len` a handler has set. |
| `HttpMonitor.HttpRequest.OnBody` | src/http_server/core/http_request.c:406-456 | Counts the bytes; offers a piece of at least `flush_len` bytes to the handler, keeping request and monitor in step exactly when the call fits and nothing was left unoffered before, or refuses the request if the handler fails; leaves a shorter piece unoffered; gathers it in a message; ignores it when refused. |
| `HttpMonitor.HttpRequest.TestReqHandler` | src/http_server/core/http_utils.c:204-333 | On a request that has kept in step, the checks pass if and only if the call fits; once bytes have gone unoffered, they fail. |
| `HttpMonitor.HttpRequest.TestRespHandler` | src/http_server/core/http_utils.c:335-453 | On a complete request, the checks of response call k pass if and only if the first k calls fit. |
| `HttpMonitor.HttpRequest.CallReqHandler` | src/http_server/core/http_server.c:726-747 | Monitor first, then the application: request and monitor are in step after a successful call exactly when the call fits. |
| `HttpMonitor.HttpRequest.OnChunkComplete` | src/http_server/core/http_request.c:498-517 | The stream stays in step at the start of the next chunk, or behind as before. |
| `HttpMonitor.HttpRequest.OnMessageComplete` | src/http_server/core/http_request.c:458-481 | A request in step when its last byte arrives is ready for the first response call. |
| `HttpMonitor.HttpRequest.StreamChunks` | src/http_server/core/http_request.c:406-517 | Over all chunks and pieces the monitor stays silent if and only if they fit, and stops watching when a handler fails. |
| `HttpMonitor.HttpRequest.SendResponse` | src/http_server/core/http_server.c:793-885 | Over all calls of the response handler the monitor stays silent if and only if their number fits. |
| `HttpReceive.Receive` | src/http_server/core/http_server.c:584-626 | However the network cuts a Content-Length request: a complete accepted message is refused as too large if and only if head and body exceed the buffer, and otherwise the payload region is exactly the body; a streamed one is refused as too large if and only if its head exceeds the buffer, and its handler sees exactly the body unless it fails; enough bytes without a close always complete it. |
| `HttpReceive.Connection.HandleRequest` | src/http_server/core/http_server.c:584-626 | The loop keeps every byte of a message in place and leaves room once nothing needs keeping. |
| `HttpReceive.Connection.ParseBuf` | src/http_server/core/http_request.c:536-561 | The received bytes advance the request; bytes beyond its end make it fail. |
| `HttpReceive.Connection.PayloadIsBody` | src/http_server/core/http_request.c:443-450 | On completion of a kept message, `payload.loc` and `payload.len` delimit exactly the body, or are unset for an empty one. |
| `HttpChunked.Respond` | src/http_server/core/http_server.c:793-885 | A chunked response that is sent decodes, by section 7.1 of RFC 9112, to the buffers of all calls up to the first that completes it, that one included, or to nothing for a status without payload, with no byte left; one cut short never decodes to a complete body, and is cut short only if no call completes it, or the socket fails or accepts no more; the length check rejects exactly the responses completed in the first call. |
| `HttpChunked.ProducedIs` | src/http_server/core/http_server.c:866-871 | By index: what goes out are the buffers of calls 0 to n, where call n is the first to complete the response. |
| `HttpChunked.RoundTrip` | src/http_server/core/http_server.c:653-703 | Decoding the emitted chunks yields the buffers' concatenation and leaves whatever follows untouched. |
| `HttpChunked.Truncated` | src/http_server/core/http_server.c:660-663 | Every proper prefix of the emitted body is incomplete: skipping empty buffers means no early terminator. |
| `HttpChunked.HexValue` | src/http_server/core/http_server.c:665-671 | The size line read as hexadecimal is the chunk's length. |
| `HttpChunked.HexLength` | src/http_server/core/http_server.c:666-667 | The 16-character header buffer holds any 32-bit size with its CRLF and terminator. |
| `HttpChunked.Session.SendChunk` | src/http_server/core/http_server.c:653-695 | Sends size, data and CRLF of a non-empty buffer, nothing for an empty one; on failure a proper part of that. |
| `HttpChunked.Session.SendAll` | src/http_server/core/http_server.c:489-519 | Through partial sends and retries, all bytes in order, or a proper prefix on failure, which comes only from a failing send or when the socket accepts no more. |
| `HttpChunked.Session.SendResponse` | src/http_server/core/http_server.c:793-885 | Header, chunks and terminator are all that goes out, in full or cut. |
| `HttpSessions.Serve` | src/http_server/core/http_server.c:440-483 | Any number of turns of the server thread, from turns and sockets alone: the open sockets are, in order, those the pass found that stay, and each pass services every client it finds exactly once, in order; memory behind the pollfd array is touched if and only if some pass finds the table full and does not leave it so. |
| `HttpSessions.WhoStays` | src/http_server/core/http_server.c:402-436 | A socket the pass finds is open afterwards if and only if it was readable and its request kept the connection, or nothing was reported and at most the timeout, modulo 2^32, has passed since its accept or its last request; found are the sockets open before and then those accepted, as far as there is room. |
| `HttpSessions.Server.SrvAccept` | src/http_server/core/http_server.c:314-392 | Appends the client, with no pending report, to session list and array alike if a session is free; the in-code assertion holds. |
| `HttpSessions.Server.HandleActiveSessions` | src/http_server/core/http_server.c:394-438 | Despite removals during the loop the pass equals servicing the list front to back; the session of every slot is found. |
| `HttpSessions.Server.CloseClient` | src/http_server/core/http_session.c:49-59 | Removes one client from both structures; order of the others, zero slots and the free list are kept. |
| `HttpSessions.Server.RemovePollFd` | src/http_server/core/http_server.c:294-312 | The slots behind move up by one and the vacated one is zero; the slot past the end is touched exactly when the table was full. |
| `HttpSessions.Server.GetBySock` | src/http_server/core/http_session.c:61-74 | The first active session with the socket, or none exactly when no client has it. |
| `HttpSessions.Server.Poll` | src/http_server/core/http_server.c:455-458 | New reports reach every client in its slot and nothing else changes. |
| `HttpSessions.Server.TimeToNextOutdated` | src/http_server/core/http_session.c:95-120 | Forever exactly without sessions; 0 if one is outdated; otherwise no session is outdated up to the returned time and one is a millisecond later, the 32-bit clock wrapping or not. |
| `HttpSessions.OutdatedLater` | src/http_server/core/http_session.c:87-93 | A session becomes outdated exactly when its remaining time is over. |
| `SubsFilters.Run` | src/ha/core/ha.c:893-935 | On any stream of events the decision on each one is the filter's decision on the events of the same device alone. |
| `SubsFilters.OthersDoNotMatter` | src/ha/core/subs_extended.c:13-21 | With the lookup by device, removing all events of other devices from a stream changes no decision on this one. |
| `SubsFilters.FirstOfEach` | src/ha/core/subs_extended.c:13-21 | Of two devices that report once, both pass the duplicate filter by device, and only the first passes the one common to all. |
| `SubsFilters.UnfilteredForm` | src/ha/core/subs_extended.c:95-101 | Without a filter every event passes. |
| `SubsFilters.DuplicateForm` | src/ha/core/subs_extended.c:103-110 | The duplicate filter passes a device's first event only. |
| `SubsFilters.CountForm` | src/ha/core/subs_extended.c:112-123 | The count filter passes the events whose number, added to what the memory of the device's entry held when it was allocated, is at most the maximum modulo 2^32. |
| `SubsFilters.CountsFirstExactly` | src/ha/core/subs_extended.c:72-93 | Of fewer than 2^32 events of a device the first ones pass, as many as the maximum, if and only if that memory held 0 or the maximum is 2^32 - 1. |
| `SubsFilters.IntervalForm` | src/ha/core/subs_extended.c:125-146 | The interval filter passes the first event, then each one at least the interval, modulo 2^32, after the last one passed. |
| `SubsFilters.KeptSpaced` | src/ha/core/subs_extended.c:125-146 | Any two consecutive events it passes are at least the interval apart. |
| `SubsFilters.SubsamplingForm` | src/ha/core/subs_extended.c:148-165 | After a lead fixed by what the memory of the entry held, the subsampling filter passes every N-th event; with N = 0, every 2^32-th. |
| `SubsFilters.SamplesFromFirstExactly` | src/ha/core/subs_extended.c:72-93 | It does so from the first event on if and only if that memory held 0 or N. |
| `SubsFilters.LookupTable.FilterCb` | src/ha/core/subs_extended.c:95-165 | One event changes the entry of its own device as the filter says, no other, and there is at most one entry per device. |
| `SubsFilters.LookupTable.FindOtherwiseAllocate` | src/ha/core/subs_extended.c:72-93 | Finds the device's entry or appends one that holds what its memory did; none only if there is none and no memory. |
| `SubsFilters.LookupTable.Find` | src/ha/core/subs_extended.c:53-70 | The first entry serving the event's device. |
| `SubsFilters.LookupTable.MatchSub` | src/ha/core/ha.c:893-935 | An event reaches the filter only after the other tests, and the table then reflects one more event. |
| `CloudTask.Run` | src/cloud/core/cloud.c:98-202 | Over every run with any reconnections: state, queue and platform calls are those of the state diagram, the queue holding exactly the events that the interval filter passes since the last subscription and that were not taken yet; at most one subscription, held only in CONNECTED or in ERROR before its clean-up; platform init and deinit alternate; every event reference is given back or still queued. |
| `CloudTask.HowReached` | src/cloud/core/cloud.c:98-202 | In every run: CONNECTED means that the platform came up, then resolving failed until it succeeded, the connection succeeded next, with a subscription exactly if that call succeeded then, and no poll or processing failed since; DISCONNECTING that then processing or publishing failed; ERROR that platform, connection or a poll did. |
| `CloudTask.KeepsResolving` | src/cloud/core/cloud.c:114-127 | However often resolving fails, the task goes on resolving. |
| `CloudTask.ThenConnects` | src/cloud/core/cloud.c:128-179 | From there a successful resolve and connect lead to CONNECTED, and the next step leaves it exactly if poll or processing fails. |
| `CloudTask.FailedPublishLeaves` | src/cloud/core/cloud.c:158-172 | With an event to take, the step stays in CONNECTED exactly if it is published; otherwise everything queued is given back. |
| `CloudTask.QueueIsRest` | src/cloud/cloud_app.c:123-139 | In every run the queue is what remains of the events that passed since the subscription, when those that came first are taken. |
| `CloudTask.Task.StateMachine` | src/cloud/core/cloud.c:98-202 | Each step follows the state diagram exactly and keeps subscription, lookup table, references and platform calls consistent. |
| `CloudTask.Task.StepConnected` | src/cloud/core/cloud.c:141-179 | In CONNECTED, whatever poll, broker and publishing do, one event at most is taken and the subscription ends exactly when the step leaves for DISCONNECTING. |
| `CloudTask.Task.CloudAppInit` | src/cloud/cloud_app.c:58-73 | A new subscription starts with an empty lookup table even though the configuration is only accepted the first time. |
| `CloudTask.Task.CloudAppProcess` | src/cloud/cloud_app.c:123-139 | An event taken is given back, whether it could be published or not. |
| `CloudTask.Task.CloudAppCleanup` | src/cloud/cloud_app.c:141-148 | Gives back all queued events, drops the subscription and empties the table. |
| `CloudTask.Task.Offered` | src/cloud/cloud_app.c:66-69 | Within one subscription an event is queued exactly if the interval filter passes it, given the events offered since that subscription. |
| `DeviceRegistry.Run` | src/ha/core/ha.c:700-717 | For every sequence of data: the registered devices are the first occurrences of the registrable addresses, as far as there is room, slot i with number i + 1. |
| `DeviceRegistry.KeepsSlot` | src/ha/core/ha.c:283-366 | A registered address keeps its slot under all later data. |
| `DeviceRegistry.RegisteredOnce` | src/ha/core/ha.c:191-241 | No address is registered twice. |
| `DeviceRegistry.RegisteredExactly` | src/ha/core/ha.c:283-366 | By index: an address is registered if and only if it has endpoints and some data of it arrived while there was room. |
| `DeviceRegistry.RegisteredWithRoom` | src/ha/core/ha.c:283-366 | While there is room in the end, every address with endpoints that has sent data is registered. |
| `DeviceRegistry.WhoHasEndpoints` | src/ha/devices/caniot.c:316-349 | All driver addresses have endpoints except CANIOT devices of a class above 1; exactly the controllers with an application have two. |
| `DeviceRegistry.MatchesIsEqual` | src/ha/core/ha.c:191-241 | For the addresses that drivers build, the lookup's test is equality. |
| `DeviceRegistry.Registry.GetByAddr` | src/ha/core/ha.c:191-241 | The first slot the lookup's test takes, or none exactly when it takes none; for the addresses that drivers build, the slot of the address itself. |
| `DeviceRegistry.Registry.Register` | src/ha/core/ha.c:283-366 | Registers in the next slot or leaves that slot retaining nothing. |
| `DeviceRegistry.Registry.RegisterData` | src/ha/core/ha.c:700-717 | An event is retained exactly for a registered device with that endpoint; unregistered slots retain none, so clearing them loses no reference. |
| `Crc32.CrcIsRemainder` | src/utils/crc32_ieee.c:55-64 | For every message the CRC is the remainder of the message, 32 zero bits appended and the first 32 inverted, divided by x^32 + 0x04C11DB7. |
| `Crc32.CrcU8` | src/utils/crc32_ieee.c:55-64 | The loop over the bytes computes it. |
| `Crc32.CrcU32` | src/utils/crc32_ieee.c:66-78 | The loop over words computes the CRC of their bytes, most significant first. |
| `Crc32.StepIsFeed` | src/utils/crc32_ieee.c:59-61 | One table step is the shift register fed with eight bits. |
| `Crc32.TableIsShift8` | src/utils/crc32_ieee.c:9-53 | Each of the 256 table entries is eight register steps on its index. |
| `Crc32.GenTable` | scripts/crc32_ieee.py:40-51 | The script's table, computed without cutting to 32 bits until the end, is the firmware's. |
| `Crc32.FeedDivides` | src/utils/crc32_ieee.c:55-64 | Feeding bits to the register is long division of polynomials. |
| `FlashCreds.Deploy` | scripts/creds/flash_creds_provision.py:225-252 | Provisioning a list of credentials and looking one up in the firmware gives the data of the first non-empty one with that identifier, among those the script wrote before a refusal or the last slot; nothing otherwise. |
| `FlashCreds.WrittenIsRead` | scripts/creds/flash_creds_provision.py:199-223 | A prepared block is judged valid by the firmware exactly if it is non-empty and its descriptor is not blank, with the same identifier, format, strength, version and data. |
| `FlashCreds.ReadersAgree` | scripts/creds/flash_creds_provision.py:148-190 | On every block the script's reader and the firmware's agree about validity and contents, except that the script raises an error for an unknown identifier or format. |
| `FlashCreds.ValidExactly` | src/creds/flash_creds.c:63-93 | By bytes: the firmware takes a block if and only if it is described, of a possible size, not revoked and matches its checksum. |
| `FlashCreds.SlotLayout` | scripts/creds/credentials.py:37-49 | By bytes: a provisioned slot has the identifier, the format by how the data begins, the data, and a zero behind a PEM text. |
| `FlashCreds.WrittenIs` | scripts/creds/flash_creds_provision.py:242-252 | By index: written are the credentials up to the first that is refused, or as many as there are slots. |
| `FlashCreds.CredGet` | src/creds/flash_creds.c:166-186 | The first valid slot with the identifier, or none exactly when there is none. |
| `FlashCreds.WriteSlot` | scripts/creds/flash_creds_provision.py:118-146 | Accepts exactly files that fit an existing slot; programming clears bits, so the file can be read back where the slot was erased, and nothing else changes. |
| `FlashCreds.Provision` | scripts/creds/flash_creds_provision.py:232-252 | Writes the credentials in order until one is refused, a PEM text needing room for its final zero, or slots run out; other slots stay erased. |
| `Backoff.Delays` | src/cloud/core/backoff.c:49-88 | For all random draws and resets: exponential delays lie in the upper half below the ceiling of their attempt number, decorrelated ones within 1 s and 1800 s and at most 3^(n-1) s after n attempts, attempts counting from the last reset. |
| `Backoff.Backoff.Next` | src/cloud/core/backoff.c:49-78 | The same for one call, with no 32-bit overflow. |
| `Backoff.CeilingGrows` | src/cloud/core/backoff.c:62-67 | The exponential ceiling never falls while the counter rises, and is capped at 1800 s. |
| `Backoff.CeilingDoubles` | src/cloud/core/backoff.c:62-67 | It starts at 1 s, doubles with each attempt up to the tenth, and is 1800 s from the eleventh on. |
| `Backoff.CeilingFits` | src/cloud/core/backoff.c:62-67 | The shifted base fits 32 bits, and halving a ceiling is exact. |
| `Backoff.InRange` | src/cloud/core/backoff.c:24-34 | The draw falls in the range, or is its lower end if the range is empty. |
| `Backoff.TryConnect` | src/cloud/core/mqttc.c:205-244 | Stops at the first success, or after exactly max(1, max_attempts) tries. |

## Left out

- Finite-timeout reads, abort, close and the error exits of the asynchronous reader, which return without the bytes already copied.
- The event bus and the asynchronous reader are values stepped by atomic actions: aliasing and update in place of the events and buffers themselves are not captured.
- Device commands, rooms, endpoint data types and queries by filter: they read the bus and would only add easy members.
- EventBusQueues.QueuedOnce: with several subscriptions an intrusive event could be linked in two queues at once; the sequence abstraction does not show what that does.
- REST and JSON handlers, HTML pages, the Prometheus layout, DFU, Lua, LEDs, buttons, USB, BLE scanning, SNTP, discovery: formatting and drivers.
- `http_parser`, the route tree, caniot-lib, mbedTLS, MQTT and FAT are not part of this model; they appear as callbacks and outcomes.
- Synchronous CANIOT queries: their meaning rests on the controller library and real-time tolerances.
- HttpMonitor.Serve: nothing is promised for a streamed body of 2^32 bytes or more whose handlers also raise `flush_len`, where the 32-bit totals of request and monitor can agree again after bytes were lost.
- HttpMonitor.Serve: the monitor's checksum, its check of the HTTP method and its checks for NULL are not modelled, and the assertion in `on_chunk_header` that a chunked body goes to a streaming route is not taken as a precondition.
- HttpReceive.Receive: bodies with a Content-Length only, and streaming handlers that leave `flush_len` at 0; the 32-bit wrap of `payload_len` and a raised `flush_len` are part of `HttpMonitor`.
- HttpChunked.Session.SendAll: a `send` that returns 0, as said above.
- DeviceRegistry.Registry.GetByAddr: the forms of address are one tagged value, so that addresses of different forms differ; plain CAN identifiers, which no driver registers, are not among them.
- EventBusCounters.UndisturbedCounters: counters of subscriptions and devices, and the totals of heap and of dropped data, which nothing is balanced against; wrap at 2^32.
- HttpChunked.Respond: a handler that fails after the headers were sent; the error response; the byte counters.
- Responses with a Content-Length: the source does not promise that the handler fills it.
- HttpSessions.Serve: server sockets, TLS handshake, statistics and the error branch of poll; what a request does is a yes-or-no outcome.
- SubsFilters.Run: lookups by endpoint or device address, which the source rejects as unsupported.
- FlashCreds.Deploy: the OpenOCD transfer itself; the script erases the sector first.
- `flash_creds_count`, `flash_cred_copy_to`, session and stream utilities, the small allocators and the tunnel: easy members.
- Authentication and TLS verification.
