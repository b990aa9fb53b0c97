# Verified model of the connection engine

The server accepts HTTP/1.x connections on one thread. An epoll loop hands events to handlers that
run to completion over shared state: the client table, a ready queue for work that must not wait
for the poller, a min-heap of timers whose stale nodes are filtered by connection id and
generation, a global byte budget, a token bucket per source address, the poll masks and the
counters. This project models that engine, the byte-level code under it (input buffer, header
parser, response printers) and the smoke test's response reader, and proves what holds at every
handler boundary of every run.

How it is laid out, from the bottom up:

- `Text.dfy`, `Decimal.dfy`: searching, trimming and numerals.
- `DynamicBuffer.dfy`, `HttpParser.dfy`, `HttpResponse.dfy`, `ResponseReader.dfy`: the byte-level code.
  `HeaderMeaning.dfy` says what a header means line by line, and that it is parsed and answered so.
- `Framing.dfy`: the one-shot splitter that the incremental engine is compared with.
- `RateLimiter.dfy`: the token bucket table, compared with a table that never forgets.
- `Connection.dfy`: the record kept for one connection, its ghost journal (completed requests, plain
  map of deadlines, start of the pending body) and what must hold of the two.
- `Engine.dfy`: all tables as one value and the invariant `Valid`. `Upkeep.dfy` says what each
  elementary change asks of every table, `Serving.dfy` what a handler may do to anybody, and what a
  run of handlers may do; `Exchange.dfy` follows one request from its first byte to its response;
  `Lifecycle.dfy` covers closing, registering and expiry.
- `Kernel.dfy`: the operating system. Every outcome its contracts allow can happen: reads of any
  size, partial writes, failures, descriptors that are reused, any elapsed time.
- `Server.dfy`: the class with every handler, proved against the above. `Running()` is the invariant
  of the loop, `Run` keeps it over any number of rounds. A ghost `Trace` records which connection,
  by descriptor and id, each event and each turn in the ready queue went to, and with which engine
  before it every call of the poller was made; the `Poller` and the `Listener` of the kernel keep
  their own record of what they handed out. A connection that is closed leaves a record of what had
  been seen of it and of its surroundings at that moment.
- `Guarantees.dfy`: what the invariant means to a client or an operator.
- `Witnesses.dfy`: runs from start-up, event by event through the handlers, on three concrete
  streams. Each leads to a connection that does not get what the source promises it.

Handlers are long compositions, so the invariant is kept under seal (`Shape`, `Served`, `Framed`,
`Streamed` and a few more are quantified over a key that only their unsealing lemma mentions):
methods pass it on and only the lemmas that need its parts look inside.

Facts about the code that the proofs brought out:

- A body completed by `ReadFromClient` leaves a pipelined header behind it unparsed, unqueued and
  without any timer, until more bytes arrive or the peer hangs up. This happens if and only if the
  chunk that completes the body brings a whole header behind it, the response goes out at once and
  the connection is not queued anyway (`Servers.Server.FeedChunk`, predicate `FedAsDue`).
  `Witnesses.LoseRequest` runs into it: a POST header, then its one body byte together with a GET.
  `Guarantees.NoLostParseWork` shows that unless the last request had a body, a complete header
  with nothing to send is always in the ready queue.
- The missing timer needs no pipelined header: no clock is started after any body that
  `ReadFromClient` completes, if the response goes out at once. Nor is one started while a read is
  postponed, and then a finished connection is not closed either. `Witnesses.ForgetFinished` runs
  into that: the body of a POST takes more than the 256 KiB of one event, which postpones a read;
  the turn in the ready queue does not resume it, because the body is pending; the rest of the body
  arrives, and then a GET that asks for closing. Both are answered, and the connection has no
  output, no queue entry, no deadline and nobody to close it.
- Which connections are left like that is stated step by step, each time both ways. A chunk that
  answers something leaves one exactly when the response is out, the connection is not queued, no
  body is pending, and a body was completed or a read is postponed; a chunk that answers nothing,
  exactly when it was like that before, a read is postponed and no body begins (`FeedChunk`). A
  round of headers likewise (`ProcessBufferedHeaders`). A turn in the ready queue that has nothing
  to send, to parse or to receive and whose resumed read brings nothing takes back the postponement
  and changes nothing else, closing flag included, so it leaves one exactly when no timer was running
  (`ContinueReadyConnection`). Draining output never leaves one (`FlushClientOutput`).
  `Guarantees.EveryConnectionIsWatched` sums up what this means for the state: a connection whose
  last request had no body and whose reads have not been postponed is always queued, on a clock or
  waiting to send.
- A pending body may be ended by the 10 s header timer, long before the 30 to 120 s that its length
  has earned it. The body begins with its own timer alone (`BeginRequestBodyReceive`), but draining
  earlier output starts the idle timer beside it, exactly when no read is postponed and the
  connection is kept alive (`FlushClientOutput`), and the next readable event turns that into the
  header timer, body or not (`HandleReadable`); nothing else moves a timer while a body is pending.
  `Witnesses.CutUpload` runs into it: a GET whose response goes out in two parts, with a POST right
  behind it. `Guarantees.NoOtherTimerEndsBody` gives the condition under which a body is safe.
- An error page is written at once, even while half a response is still queued. It starts where the
  responses end exactly when no output is queued at the rejection (`Guarantees.PageReadsBack`);
  behind half of a 200 a reader takes it for the rest of that body (`ResponseReader.CutIsFilled`).
- The 120 s cap leaves bodies of more than 7680 KiB less time than their 64 KiB per second
  (`Connections.BodyDeadlineBounds`); the comment on `CalculateBodyReceiveDeadline` states the cap but
  not this consequence.
- `ReadyQueue` entries never go stale: the guard for a missing or closing connection in
  `ProcessReadyQueue` cannot fire, because the single closing entry takes the descriptor out of the
  queue. Likewise the clamp in `ReleaseInflightBytes` never takes effect, and `CleanupExpiredIpBuckets`
  never meets a listed address without a bucket.

## Model

| member | source | states |
|---|---|---|
| Guarantees.FramingRefinesSplitting | src/core/server.cpp:1074-1335 | for every live connection after any read sizes, round cuts and deferrals, the frames a one-shot splitter finds in everything received are the completed requests followed by the frames of the input buffer, read from where the connection stands; the buffer is the end of the stream |
| Guarantees.RequestsSentAreServed | src/core/server.cpp:1147-1335 | of a client that has sent such requests and nothing else, only these are completed, in order, each once; all of them, and answered in order, as soon as no body is pending and no complete header is buffered |
| Framing.SplitContinues | src/net/dynamic_buffer.cpp:33-75 | splitting a stream at a point and continuing with the rest finds the frames of the whole, from any cursor and for any header parser |
| Framing.ChunkingIsInvisible | src/core/server.cpp:1147-1237 | feeding a stream chunk by chunk finds the same frames as splitting it at once |
| Framing.FramedPop | src/core/server.cpp:1282-1330 | taking an accepted header off the buffer completes a request without body or moves the cursor into its body |
| Framing.FramedConsume | src/core/server.cpp:1089-1095 | consuming buffered body bytes keeps the rest of the stream in frame |
| Framing.FramedComplete | src/core/server.cpp:1106-1118 | the last body byte completes the pending request |
| Framing.FramedAppend | src/core/server.cpp:1022-1025 | received bytes that are appended to the buffer are neither lost nor reordered |
| Guarantees.ResponseIntegrity | src/core/server.cpp:1402-1568 | bytes the socket took followed by the output buffer are exactly the responses to the completed requests, in order; the connection is to close exactly when one of them asked for it |
| Connections.KeepAliveThenClose | src/core/server.cpp:1416-1420 | once a request has not asked for keeping the connection, no later one counts as kept: the answers are keep-alive any number of times, then close for ever |
| Guarantees.EveryReplyReadsBack | src/core/server.cpp:1422 | a reader positioned at any response of the stream decodes status 200 and the fixed body |
| Guarantees.EveryReplyAnnouncesItself | src/http/http_response.cpp:7-16 | the reader finds in every response of the stream the status line of a 200 and exactly the headers connection, content-type and content-length; connection is keep-alive if every request up to that one asked for keeping, and close otherwise |
| Guarantees.ErrorPageReadsBack | src/core/server.cpp:1596-1599 | every error page decodes to its status, its phrase as body, and the headers of the 200 with connection close |
| Guarantees.StatusIsPrinted | src/core/server.cpp:1282-1320 | number and phrase of every error page as they stand on the wire |
| Guarantees.ClosedConnectionsWereServed | src/core/server.cpp:1587-1685 | a closed connection was sent a prefix of the responses it was owed, all of them if it was closed because they had been sent, followed by a prefix of one error page if and only if it was rejected, the whole page unless the socket was full or broken; the rest was dropped with its output buffer, unless a response was just being started on; if the page is a 400, 411, 413 or 501, the splitter finds in everything received the completed requests and then a rejection with that status |
| Guarantees.ClosedForAReason | src/core/server.cpp:1615-1637 | every closing is borne out by what was seen at that moment: for sent responses a request that did not ask for keeping, for a hangup a report of the poller, for an end of stream or an error the last read or write, for a timeout a deadline of that kind that had come, for the connection limit more than 200000 connections, for a 503 more than 512 MB |
| Guarantees.PageReadsBack | src/core/server.cpp:1587-1613 | the page of a rejection starts where all responses owed end exactly when no output was queued at the rejection; a complete page there decodes to its status and phrase, with connection close |
| Guarantees.HeaderWasTooLong | src/core/server.cpp:1241-1256 | a connection rejected with 431 was sending, behind its completed requests, a first header that is over 8192 bytes however the stream would have gone on |
| Exchanges.StreamAfterWrite | src/core/server.cpp:1555-1557 | a partial write moves bytes from the queued to the sent side of the stream, losing and duplicating none |
| Guarantees.HeapRefinesDeadlines | include/core/server.h:81-93 | an armed timer has exactly one heap node, at its deadline; a node whose connection id and generation are current is that node |
| Lifecycles.ExpiryIsExact | src/core/server.cpp:333-393 | once the top of the heap lies in the future, exactly the connections that were due are gone, each with one record and counted once |
| Lifecycles.NothingDue | src/core/server.cpp:333-393 | if every heap node lies in the future, so does every armed deadline |
| Upkeep.ArmKeepsNodes | src/core/server.cpp:883-891 | arming moves on to a generation no node carries, so the pushed node is the only current one |
| Lifecycles.TopBoundsDeadlines | src/core/server.cpp:404-408 | no armed deadline is earlier than the top of the heap |
| Guarantees.BodyStateMachine | src/core/server.cpp:1074-1142 | between handlers the body timer is armed exactly while a body is pending, which implies an empty input buffer, 0 < remaining <= total <= 8 MB and the deadline its length earned; header and idle timers are never both armed |
| Guarantees.BodyDeadlineStays | src/core/server.cpp:894-916 | over any run, later bytes of a body never move its deadline |
| Guarantees.NoOtherTimerEndsBody | src/core/server.cpp:894-916 | a pending body comes due at its own deadline if and only if no other deadline of its connection is earlier; it has no other exactly when neither the header nor the idle timer is armed |
| Connections.BodyDeadlineBounds | src/core/server.cpp:103-114 | the body deadline is 30 s away up to 1920 KiB, then a second for every 64 KiB, rounded down to milliseconds, and 120 s exactly from 7680 KiB on |
| Guarantees.NoLostParseWork | src/core/server.cpp:485-526 | unless the last completed request had a body, a connection with a complete header and nothing to send is in the ready queue; when a header is left behind is in the row of FeedChunk |
| Witnesses.StartUp | include/core/server.h:42-47 | a server is started, accepts a connection and enters it with nothing received and nothing queued |
| Witnesses.Receive | src/core/server.cpp:1147-1237 | an event in which the first read brings the given bytes and the next one would block: they are fed as one chunk, and everything is in order again |
| Witnesses.LoseRequest | src/core/server.cpp:1181-1184 | run from a fresh connection: when `POST / HTTP/1.1, Content-Length: 1` and then its body byte together with a GET arrive, the POST alone is answered, and once its response is out the connection has a complete header, no queue entry and no clock |
| Witnesses.ForgetFinished | src/core/server.cpp:1352-1368 | run from a fresh connection: after a POST whose body outlasts the read budget of an event, its rest, and a GET that asks for closing, both are answered and the connection that is to be closed has, once the output is out, no queue entry and no clock |
| Witnesses.CutUpload | src/core/server.cpp:620-631 | run from a fresh connection: behind a GET whose response goes out in two parts, a pending body runs on the 10 s header clock beside its own, and is closed as soon as that has run out |
| Guarantees.EveryConnectionIsWatched | src/core/server.cpp:1337-1371 | a live connection without output, queue entry and armed timer is one without deadline, and there is none except after a request with a body or after a postponed read; exactly when one is left is in the rows of FeedChunk, ProcessBufferedHeaders and ContinueReadyConnection |
| Guarantees.ReadyQueueAgrees | src/core/server.cpp:530-541 | a descriptor is queued exactly when it is a live connection flagged for it, and only once |
| Guarantees.PollMaskAgrees | src/core/server.cpp:1571-1583 | the registered descriptors are exactly the live connections, always watched for input and for output exactly while some is queued |
| Guarantees.BytesAreConserved | src/core/server.cpp:994-1072 | the global byte count is the sum of all buffer sizes and within 512 MB, so releasing never underflows |
| Guarantees.LedgersBalance | src/core/server.cpp:278-306 | accepted = refused by the bucket + live + closed; requests_total = requests completed on live and on closed connections; active = size of the table, at most 200000; the reject and error totals are the sums of their parts, and each part is the number of closings it stands for |
| Guarantees.ConnectionsAreRateBound | src/core/server.cpp:654-696 | on a running server the k-th arrival on the limiter's record is that of the k-th accepted socket, the k-th admission is connection number k and every other arrival is a counted 429; within a window of d seconds without an eviction of its bucket, at most 200 + 50 d connections come from one address, counted by what stands before the port of the peer endpoints |
| Guarantees.ClosedOnceAndForAll | src/core/server.cpp:1615-1685 | no id is closed twice, or closed and live |
| Guarantees.LiveIdsDiffer | src/core/server.cpp:671 | two live connections never share an id |
| Guarantees.ClosedStaysClosed | src/core/server.cpp:1615-1685 | over any run a closing record stays, and its id never comes back |
| Guarantees.HistoryOnlyGrows | src/core/server.cpp:314-331 | over any run bytes received, bytes sent and completed requests of a live connection are only extended |
| Servers.Server.constructor | include/core/server.h:42-47 | the engine starts in order, with the real parser, keep-alive rule and printers |
| Servers.Server.Run | src/core/server.cpp:165-184 | any number of rounds keeps the invariant and the history; each asks the poller once, what the poller has reported is in order all that has been dispatched, to the connections that owned the descriptors at that moment, every sleep was as long as the timers allow, and every connection reported hung up is gone for good |
| Servers.Server.RunEventLoopOnce | src/core/server.cpp:314-331 | one round keeps the invariant, the history and the limiter's record; the connections queued at entry are served, in order, each once, and their waiting headers dealt with; the poller is asked once, with nothing overdue, for a sleep that is 0 with queued work, ends before the next deadline and the metrics line, and is shorter than a second only with a reason; every event it reports is dispatched and dealt with: what hung up is gone, what is readable has been read dry, is queued or has output to send first, what is writable has been written as far as budget and socket allow, and a readable listening socket has been accepted from until nothing was left; nothing that is due is left when the timers are looked at again, and the pending close queue is empty |
| Servers.Server.ProcessReadyQueue | src/core/server.cpp:462-477 | serves exactly the connections queued at entry, in order, each once: a header waiting there is dealt with, queued output is written as far as budget and socket allow; what is queued meanwhile waits; connections that were not queued are not touched |
| Servers.Server.ServeNextReady | src/core/server.cpp:464-476 | the front of the queue is a live connection; serving it touches nobody else, moves at most 256 KiB each way, writes earlier output first, as far as budget and socket allow, deals with a waiting header and resumes a postponed read; with nothing to do and nothing received only the flags of queueing and postponement are taken back, with a pending body only that of queueing |
| Servers.Server.ProcessExpiredTimers | src/core/server.cpp:333-393 | closes exactly the connections with a deadline at or before now, never a later one on the same descriptor, counting each once |
| Servers.Server.ComputePollTimeoutMs | src/core/server.cpp:395-435 | the sleep is 0 to 1000 ms, 0 with a non-empty ready queue, never longer than the time to any armed deadline, and never shorter than a second without a reason |
| Servers.Server.HandlePollEvents | src/core/server.cpp:324-326 | every client event of a batch is handed, in order, to the connection that owned the descriptor when the poller returned, although the batch closes and accepts connections, and is still dealt with at the end of the batch; a connection that hung up is gone; a readable listening socket is accepted from until nothing is left |
| Servers.Server.HandlePollEvent | src/core/server.cpp:552-570 | an event touches no other connection, nor its socket, and moves at most 256 KiB each way; a hangup closes, a readable connection is read until it would block, is queued or has output to send first, a writable one is drained, used up its budget or filled the socket; without a hangup it is closed only for sent responses, as an error page, for an end of stream or for an error; the listening socket is accepted from until accept finds nothing |
| Servers.Server.HandleClientEvent | src/core/server.cpp:594-632 | a hangup closes, and is the reason on record; otherwise the event is served within one budget, and what it reports is dealt with |
| Servers.Server.ServeEvent | src/core/server.cpp:606-632 | a writable connection is drained unless its budget is used up or the socket is full; until earlier output is out nothing is read or parsed; a readable connection is read until it would block or is queued |
| Servers.Server.HandleReadable | src/core/server.cpp:620-631 | an idle connection that is read is on the header clock, and not on the idle clock, until it has completed a request or begun a body; while the same body stays pending its deadlines stay, except that an idle deadline becomes a header deadline 10 s after the event |
| Servers.Server.ContinueReadyConnection | src/core/server.cpp:485-526 | first write, then body, then headers, then read: queued output is written unless the budget is used up or the socket full, and until it is out nothing is read or parsed, then a waiting header is dealt with and a postponed read resumed; a resumed read that brings nothing takes back the flag and leaves everything else as it was; a pending body is left alone, postponed read included |
| Servers.Server.EnqueueReadyConnection | src/core/server.cpp:530-549 | appends a live connection that is not queued yet, and only that |
| Servers.Server.ReadFromClient | src/core/server.cpp:1147-1237 | reads until the socket would block, the connection is gone or the rest is queued; what it read is what left the budget |
| Servers.Server.StopReading | src/core/server.cpp:1212-1227 | end of stream closes the connection as closed by its peer, an error as a failed read, a socket that would block changes nothing |
| Servers.Server.FeedChunk | src/core/server.cpp:1165-1201 | a chunk goes to the pending body or to the parser, unless it makes a header too long; a header is left unparsed and unqueued if and only if the chunk completes a body in front of it, the response is out and the connection is not queued anyway; the connection is left without a clock if and only if, when something was answered, nothing is to be sent, it is not queued, no body is pending, and the chunk completed a body or a read is postponed, and when nothing was, it had none before, a read is postponed and no body has begun; a body that stays pending keeps its deadlines, one that begins has only its own |
| Servers.Server.DeferReading | src/core/server.cpp:1230-1236 | a connection whose read budget is used up is flagged for reading and queued |
| Servers.Server.CheckHeaderLimit | src/core/server.cpp:1241-1256 | passes exactly the buffers within the limit and changes nothing; otherwise the connection is closed with one record, for a 431, whose page follows all responses exactly when no output was queued |
| Servers.Server.ProcessBufferedHeaders | src/core/server.cpp:1264-1371 | a round answers all complete headers, or stops after five or after a body and queues the connection; true means caught up: waiting for a body, for the socket, for a postponed read or, on the right clock, for more of a header; once something has been answered, a connection is left without a clock if and only if a read is postponed, nothing is to be sent and it is not queued, and with nothing to answer if and only if it had none before and a read is postponed |
| Servers.Server.TakeNextRequest | src/core/server.cpp:1282-1320 | the first header is taken off the buffer and accepted, or refused with 501, 411, 400 or 413 in that order and the connection closed, the page following all responses exactly when no output was queued |
| Servers.Server.ProcessOneHeader | src/core/server.cpp:1277-1335 | one header is completed and answered, or its body is begun |
| Servers.Server.FinishHeaderRound | src/core/server.cpp:1337-1371 | leftover headers are queued, a connection whose last response said close is closed once it is out and no other, a kept one is put on the idle or header clock |
| Servers.Server.BeginRequestBodyReceive | src/core/server.cpp:1122-1142 | starts the body clock now, once, as the only clock, and consumes what is buffered |
| Servers.Server.ArmBodyTimeout | src/core/server.cpp:894-916 | only the body timer is left, with the deadline its length earns |
| Servers.Server.ConsumePendingRequestBody | src/core/server.cpp:1074-1120 | either the whole buffer goes into the body, or the body is complete, its request answered and exactly the bytes behind it left |
| Servers.Server.StartOkResponse | src/core/server.cpp:1402-1486 | a completed request is answered with its 200, queued behind earlier output or else written at once as far as budget and socket allow and the rest queued; the waiting timers are cancelled |
| Servers.Server.FlushClientOutput | src/core/server.cpp:1491-1568 | writes until the buffer is empty, the budget used up or the socket full; once empty, what can go on is queued, what is finished is closed, what is kept is idle; deadlines change only then, and only by starting the idle timer of a connection that is kept and has no header to parse and no read to resume; it never leaves an answered connection without a clock |
| Servers.Server.UpdateClientPollMask | src/core/server.cpp:1571-1583 | brings the poll mask of one connection in line with its output buffer |
| Servers.Server.ArmHeaderTimeout | src/core/server.cpp:875-892 | cancels the idle timer and starts the header timer under a fresh generation |
| Servers.Server.ArmIdleKeepAliveTimeout | src/core/server.cpp:918-935 | cancels the header timer and starts the idle timer under a fresh generation |
| Servers.Server.DisarmTimeout | src/core/server.cpp:937-974 | an armed timer is disarmed and its generation moves on; nothing else changes |
| Servers.Server.TryReserveInflightBytes | src/core/server.cpp:855-873 | succeeds exactly when the bytes fit the budget and then changes nothing; otherwise the connection is closed with one record, for a 503 |
| Servers.Server.AppendToInputBuffer | src/core/server.cpp:1007-1026 | appends and counts, or rejects the connection |
| Servers.Server.AppendToOutputBuffer | src/core/server.cpp:1029-1045 | appends and counts, or rejects the connection |
| Servers.Server.ReplaceOutputBuffer | src/core/server.cpp:1049-1072 | replaces the output, counting growth and giving back shrinkage |
| Servers.Server.ReleaseInflightBytes | src/core/server.cpp:994-1003 | subtracts with a clamp at zero |
| Servers.Server.SendErrorResponseAndClose | src/core/server.cpp:1587-1613 | counts the rejection, writes its page behind what has been sent, all of it unless the socket is full or broken, and closes the connection with it on record |
| Servers.Server.CloseClientConnection | src/core/server.cpp:1624-1685 | removes the connection from every table, gives its bytes back and puts one record, with its id, on file; a second call changes nothing |
| Servers.Server.TearDown | src/core/server.cpp:1639-1684 | the closing entry's state changes, ending in a record without timers, bytes or body state |
| Servers.Server.FlushPendingCloseQueue | src/core/server.cpp:445-457 | releases all closed records and changes nothing else |
| Servers.Server.DrainAcceptQueue | src/core/server.cpp:635-650 | accepts until accept finds nothing, counting every socket as a new connection or a 429; extends the limiter's record and leaves the connections that were there untouched |
| Servers.Server.RegisterAcceptedConnection | src/core/server.cpp:654-696 | the bucket decides first and the decision goes on record; a refused socket leaves only its counters, an admitted one is entered under the next id on the header clock, or closed again if it is one too many |
| Servers.Server.CheckIpRateLimitBeforeRegister | src/core/server.cpp:735-784 | admits exactly when the table that never expires would, for the address in front of the port, at the time of the call; otherwise counts a 429 and writes its page unless the socket is full or broken |
| Servers.Server.EnforceConnectionLimitAfterRegister | src/core/server.cpp:702-727 | closes the newcomer exactly when more than 200000 connections are active |
| Servers.Server.MaybeWriteMetricsLog | src/core/server.cpp:213-254 | the next metrics time moves on by whole intervals to the first one in the future, and only when due |
| Upkeep.CloseNeverUnderflows | src/core/server.cpp:1673-1679 | a live connection's bytes never exceed the global count, and the active count is positive |
| Upkeep.DequeueKeepsShape | src/core/server.cpp:464-473 | the front of a non-empty queue is a live flagged connection that is queued nowhere else, and taking it off keeps the tables in agreement |
| Upkeep.RegisterKeepsShape | src/core/server.cpp:668-676 | a new connection, even on a reused descriptor, gets an id no heap node carries, and every table agrees on it |
| Upkeep.CloseKeepsShape | src/core/server.cpp:1645-1684 | after closing, every table, the byte count and the population agree again |
| Serving.ServedTrans | src/core/server.cpp:485-526 | steps that serve one connection compose: nobody else is touched, its history only grows, it is closed at most once |
| Serving.ValidAfterServing | src/core/server.cpp:552-570 | a handler that leaves its own connection in order leaves the whole engine in order, with every other connection and its history as they were |
| Lifecycles.RejectionIsCounted | src/core/server.cpp:278-302 | after a rejection is counted, in the total and in the bucket of its status, the counters equal the closings they stand for, this one included |
| RateLimiter.RateBound | src/core/server.cpp:735-802 | between two evictions of its bucket, an address is admitted at most 200 + 50 d times in any d seconds |
| RateLimiter.BurstIsAdmitted | src/core/server.cpp:744-784 | an address that is not in the table is admitted 200 times, however fast its arrivals follow each other and whatever else arrives in between |
| RateLimiter.AdmissionBound | src/core/server.cpp:735-802 | a stretch of the record without an eviction of the address adds at most 200 + 50 d of its admissions to the log |
| RateLimiter.TokensPayForAdmissions | src/core/server.cpp:782-801 | admissions plus tokens left are paid for by one burst and the refill since the start |
| RateLimiter.LevelsAreBounded | src/core/server.cpp:798-800 | tokens stay within 0 and 200 |
| RateLimiter.TokensComeBack | src/core/server.cpp:788-802 | an idle address earns 50 tokens a second up to 200, so it is refused only within 20 ms of its last arrival and has a full burst after four seconds; an unknown one is admitted |
| RateLimiter.PeerAddress | src/core/server.cpp:82-88 | an endpoint that is an address, a colon and a port without colons belongs to that address, whatever the port; one without a colon is its own address |
| RateLimiter.PeersShareABucket | src/core/server.cpp:735-784 | all peers at an address together are admitted no more often than the bucket of that address admits |
| RateLimiter.IpRateLimiter.Admit | src/core/server.cpp:735-784 | decides as the table that never expires anything, and keeps list and table in agreement; what is left is what was seen within ten minutes and the arrival, and only a full table makes room first, by forgetting one address that has not been seen for longest |
| RateLimiter.IpRateLimiter.CleanupExpiredIpBuckets | src/core/server.cpp:821-837 | removes exactly the buckets not seen for more than 600 s |
| RateLimiter.IpRateLimiter.EvictOldestIpBucket | src/core/server.cpp:840-848 | forgets the least recently seen address, and only that |
| RateLimiter.IpRateLimiter.TouchIpBucket | src/core/server.cpp:806-817 | the list stays ordered by last arrival |
| RateLimiter.IpRateLimiter.RefillIpBucket | src/core/server.cpp:788-802 | tokens grow with the elapsed time up to the burst |
| RateLimiter.NewcomerHasFullBurst | src/core/server.cpp:749-752 | an address the table has forgotten would have been refilled completely |
| RateLimiter.OrderMeans | src/core/server.cpp:819-837 | the list is free of duplicates and sorted by last arrival |
| RateLimiter.OrderCovers | src/core/server.cpp:747-756 | the list holds exactly the keys of the table |
| DynamicBuffers.DynamicBuffer.PopNextHeader | src/net/dynamic_buffer.cpp:57-67 | cuts off a text with one blank line, at its end, leaving the rest; within the limit unless the limit is exceeded |
| DynamicBuffers.DynamicBuffer.ConsumePrefix | src/net/dynamic_buffer.cpp:69-75 | drops a prefix, or refuses when fewer bytes are there |
| DynamicBuffers.DynamicBuffer.Append | src/net/dynamic_buffer.cpp:9-14 | appends |
| DynamicBuffers.EarlyLimitDecisionIsExact | src/net/dynamic_buffer.cpp:45-51 | the decision taken on a prefix of the stream is taken exactly when more than the limit is buffered and the first header of the whole stream exceeds it |
| DynamicBuffers.FirstHeaderIsWhole | src/net/dynamic_buffer.cpp:57-67 | the first header has exactly one blank line, at its end |
| DynamicBuffers.FirstHeaderInExtension | src/net/dynamic_buffer.cpp:33-40 | a complete header stays the same header whatever arrives later |
| HttpParser.ParseRequestHeader | src/http/http_parser.cpp:8-54 | the cursor loop computes the specified result |
| HttpParser.ParseHeaderLine | src/http/http_parser.cpp:82-109 | one header line is read into the request as specified; what that means is in the row of HeaderMeaning.LineIsRead |
| HttpParser.Trim | src/http/http_parser.cpp:125-139 | strips white space at both ends; that nothing else is stripped is Text.TrimmedIsCore |
| Text.TrimmedIsCore | src/http/http_parser.cpp:125-139 | white space around a text that neither begins nor ends with any is dropped, and nothing else |
| HttpParser.LowercaseCopy | src/http/http_parser.cpp:141-148 | lowercases every character |
| HttpParser.ParserFoldsEveryLine | src/http/http_parser.cpp:8-54 | on everything the buffer can pop, the loop is a split at CRLF followed by a fold over all lines in order: it stops at the final two bytes and never misses a CRLF |
| HttpParser.AcceptedRequest | src/http/http_parser.cpp:8-109 | an accepted request is GET or POST, has a non-empty target without spaces, version 1.0 or 1.1, no chunked body, a length for POST, and the length of the Content-Length header that was kept |
| HeaderMeaning.RequestLineIsRead | src/http/http_parser.cpp:56-80 | GET or POST, a non-empty target without blanks and HTTP/1.1 or HTTP/1.0, one blank between them, are read as just that |
| HeaderMeaning.RequestLineIsOne | src/http/http_parser.cpp:56-80 | no other line is accepted as a request line |
| HeaderMeaning.FieldOfLine | src/http/http_parser.cpp:83-94 | the name of a line is what stands before its first colon and the value what stands behind it, both without surrounding white space, the name in lower case |
| HeaderMeaning.LineIsRead | src/http/http_parser.cpp:82-109 | a header line without a name, or with a length that is no number, is refused; any other adds its name, in lower case, with its value, and marks the request chunked if and only if the name is transfer-encoding and the value contains chunked in any case |
| HeaderMeaning.VerdictOnHeader | src/http/http_parser.cpp:8-54 | the verdict on a whole header from its lines alone: bad if the request line or any line is, else chunked if some line says so, else without length if it is a POST and no line gives one, else accepted; the request is marked chunked exactly when a line that can be reached says so |
| HeaderMeaning.AdmissionOfHeader | src/core/server.cpp:1282-1320 | what the server does with a whole header, from its lines alone: 400, 501 even for a POST without length, 411, 413 above 8388608 bytes, or accepted |
| HeaderMeaning.AcceptedHeader | src/http/http_parser.cpp:8-109 | an accepted header has no line that says chunked, and is read as the parts of its request line and, for every name, the value of the last line of that name, the length included |
| HeaderMeaning.KeepAliveOfHeader | src/core/server.cpp:976-990 | an accepted header keeps the connection, under HTTP/1.1 unless its last Connection line contains close in any case, under HTTP/1.0 only if it contains keep-alive |
| HeaderMeaning.SplitUndoesSending | src/core/server.cpp:1264-1335 | requests sent one behind the other, each an accepted header and as many body bytes as its Content-Length says, are found by the splitter as just these requests, in order |
| HttpParser.OnlyNumeralsAreRead | src/http/http_parser.cpp:155-172 | a value is read as a length if and only if, without surrounding white space, it is an optional sign and digits whose value fits 64 bits |
| HttpParser.ContentLengthReadsBack | src/http/http_parser.cpp:155-172 | every printed number reads back unless it takes more than 64 bits |
| HttpParser.SignedLengthReadsBack | src/http/http_parser.cpp:155-172 | a plus sign in front of it is accepted, a minus sign wraps around modulo 2^64 |
| ResponseReader.ReadHttpResponse | scripts/sanitizer_smoke.py:33-61 | however recv cuts the stream, the reader returns what decoding it at once gives |
| ResponseReader.ErrorResponseRoundTrip | src/http/http_response.cpp:18-29 | for every status, phrase without carriage return, body and following bytes, decoding the printed page gives back status line, headers, status and body |
| ResponseReader.OkResponseRoundTrip | src/http/http_response.cpp:7-16 | the same for the 200 response |
| ResponseReader.CutIsFilled | scripts/sanitizer_smoke.py:50-61 | a 200 cut off in its body and followed by other bytes is, byte for byte, a whole 200 with those bytes as the rest of its body |
| ResponseReader.BlankLineAfterJoin | scripts/sanitizer_smoke.py:35-41 | the blank line is found right after the header lines, whatever the body contains |
| Kernels.Kernel.WriteBestEffort | src/net/socket_utils.cpp:200-218 | writes a prefix, reporting completion exactly when it is all of it, and stops short of that only when the socket is full or broken |

## Left out

- RateLimiter.Refill: tokens are reals, so the rounding of the source's doubles is not modelled.
- ResponseReader.ParseInt: does not accept underscores between digits or non-ASCII digits, and has no limit on the number of digits, as Python's int has.
- ResponseReader.ReadHttpResponse: says nothing for a negative Content-Length, where the source slices from the end of whatever has arrived and the result depends on the chunks.
- Kernels.Kernel.Read: interrupted calls are retried inside the call; sizes and order of outcomes are arbitrary.
- Kernels.Kernel.Accept: the backlog is finite, so that draining it ends; failing accept, epoll and clock calls, which end the run with an exception, are not modelled.
- Servers.Server.ServeNextReady: the guard for a connection that is gone is not repeated, because it cannot fire.
- Servers.Server.Run: stops after any given number of rounds instead of on a signal.
- Connections.ClientConnection: a value in the client map, as in the source; that the handlers hold a reference into the map, and the in-place update of its `DynamicBuffer`, are expressed as updates of that value. The class `DynamicBuffer` is proved on its own and the engine uses the functions it is proved against.
- Widths: connection ids, timer generations and counters are unbounded; only Content-Length is held to 64 bits. A byte is a `char`, and every theorem about byte strings holds for all strings.
- Containers: the heap is a multiset with a top, the LRU list a sequence, hash tables are maps; the order of timers with equal deadlines and of unrelated hash entries is unspecified.
- Startup and its sockets, logging, the metrics file and its fields, RSS and host name, command line, benchmark and end-to-end scripts.
- The 429 page is written before its socket is closed (`CheckIpRateLimitBeforeRegister`), but nothing is remembered of it afterwards.
- Liveness: no claim that a peer ever sends or reads, so no claim that a request is ever answered.
