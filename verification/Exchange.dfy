// The stages a connection goes through while a handler takes a request off its input and sends
// the response: what holds of it in each, and how it gets from one to the next.
module Exchanges {
  import opened Text
  import opened DynamicBuffers
  import opened HttpParser
  import opened Framing
  import opened Connections
  import opened Engines
  import opened Upkeep
  import opened Serving

  // ---------------------------------------------------------------- responses

  // What has been sent so far is the beginning of what is owed.
  ghost predicate OnTrack(rules: HttpRules, e: Engine, fd: Fd) {
    fd in e.journal && fd in e.sockets && e.sockets[fd].sent <= ResponseStream(rules, e.journal[fd].requests)
  }

  // ... and what is still owed is in the output buffer.
  ghost predicate Accounted(rules: HttpRules, e: Engine, fd: Fd) {
    && OnTrack(rules, e, fd) && fd in e.clients
    && e.sockets[fd].sent + e.clients[fd].outputBuffer == ResponseStream(rules, e.journal[fd].requests)
    && e.clients[fd].closeAfterWrite == !AllKeepAlive(rules, e.journal[fd].requests)
  }

  lemma HealthyIsOnTrack(rules: HttpRules, e: Engine, fd: Fd)
    requires Healthy(rules, e, fd)
    ensures Accounted(rules, e, fd)
  {
    StreamedIsAccounted(rules, e, fd);
  }

  lemma AccountedAfterDisarm(rules: HttpRules, e: Engine, e': Engine, fd: Fd, kind: TimerKind)
    requires Accounted(rules, e, fd) && fd in e'.clients && fd in e'.journal && e'.sockets == e.sockets
    requires e'.clients[fd] == e.clients[fd].Disarm(kind) && e'.journal[fd].requests == e.journal[fd].requests
    ensures Accounted(rules, e', fd)
  {
    DisarmKeepsOutput(e.clients[fd], kind);
  }

  lemma StreamedIsAccounted(rules: HttpRules, e: Engine, fd: Fd)
    requires fd in e.clients && fd in e.journal && fd in e.sockets
    requires Streamed(rules, e.journal[fd].requests, e.sockets[fd].sent, e.clients[fd].outputBuffer,
                      e.clients[fd].closeAfterWrite, e.clients[fd].keepAliveEnabled)
    ensures Accounted(rules, e, fd)
  {
    StreamOf(rules, e.journal[fd].requests, e.sockets[fd].sent, e.clients[fd].outputBuffer,
             e.clients[fd].closeAfterWrite, e.clients[fd].keepAliveEnabled);
  }

  lemma SentSoFar(rules: HttpRules, requests: seq<HttpRequest>, sent: string, queued: string, closes: bool, keeps: bool)
    requires Streamed(rules, requests, sent, queued, closes, keeps)
    ensures sent <= ResponseStream(rules, requests)
  {
    StreamOf(rules, requests, sent, queued, closes, keeps);
  }

  // The record of a rejection: the page starts where the responses sent so far end.
  ghost predicate PageOn(e: Engine, fd: Fd, record: CloseRecord) {
    && fd in e.clients && fd in e.journal && fd in e.sockets
    && record.journal == e.journal[fd] && record.received == e.sockets[fd].received
    && record.okBytes == |e.sockets[fd].sent| <= |record.sent| && record.sent[..record.okBytes] == e.sockets[fd].sent
    && record.unsent == e.clients[fd].outputBuffer
  }

  // ... which is after all of them exactly when no output is queued.
  ghost predicate PageFollows(rules: HttpRules, e: Engine, fd: Fd, record: CloseRecord) {
    PageOn(e, fd, record) && (AnsweredInFull(rules, record) <==> e.clients[fd].outputBuffer == "")
  }

  // The page is on its way: what is put on record when the connection is closed next.
  lemma PageIsOnRecord(rules: HttpRules, e: Engine, e': Engine, fd: Fd, status: nat, seen: Evidence)
    requires status == 503 ==> seen.inflight + seen.asked > MAX_INFLIGHT_BYTES
    requires OnTrack(rules, e, fd) && fd in e.clients && (status != 503 ==> Accounted(rules, e, fd))
    requires IsVerdict(status) ==> Refuses(rules.parse, e.sockets[fd].received, e.journal[fd].requests, status)
    requires status == 431 ==> Oversized(rules.parse, e.sockets[fd].received, e.journal[fd].requests)
    requires e'.clients == e.clients && e'.journal == e.journal && fd in e'.sockets
    requires e'.sockets[fd].received == e.sockets[fd].received && e.sockets[fd].sent <= e'.sockets[fd].sent
    requires var page := e'.sockets[fd].sent[|e.sockets[fd].sent|..];
             page <= rules.errorResponse(status) && (page == rules.errorResponse(status) || seen.full || seen.writeFailed)
    ensures var record := RecordOf(e', fd, ErrorPage(status), |e.sockets[fd].sent|, seen);
            ClosedOk(rules, record) && PageOn(e, fd, record)
  {
    assert e'.sockets[fd].sent[..|e.sockets[fd].sent|] == e.sockets[fd].sent;
  }

  lemma PageAfterAll(rules: HttpRules, e: Engine, fd: Fd, record: CloseRecord)
    requires Accounted(rules, e, fd) && PageOn(e, fd, record)
    ensures PageFollows(rules, e, fd, record)
  {
    assert |e.sockets[fd].sent + e.clients[fd].outputBuffer| == |e.sockets[fd].sent| + |e.clients[fd].outputBuffer|;
    assert e.sockets[fd].sent + "" == e.sockets[fd].sent;
  }

  lemma TooLongIsOversized(rules: HttpRules, e: Engine, fd: Fd)
    requires Healthy(rules, e, fd) && !e.clients[fd].waitingForRequestBody
    requires HeaderExceedsLimit(e.clients[fd].inputBuffer, MAX_HEADER_BYTES)
    ensures Oversized(rules.parse, e.sockets[fd].received, e.journal[fd].requests)
  {
  }

  // A request is complete and its response has not been started on: response is the part of it
  // still to be written or queued.
  ghost predicate Owing(rules: HttpRules, e: Engine, fd: Fd, response: string) {
    && fd in e.clients && fd in e.journal && fd in e.sockets && fd in e.interest
    && (var c, j, s := e.clients[fd], e.journal[fd], e.sockets[fd];
        && Framed(rules.parse, s.received, j.requests, AtHeader, c.inputBuffer) && !c.waitingForRequestBody
        && Streamed(rules, j.requests, s.sent, c.outputBuffer + response, c.closeAfterWrite, c.keepAliveEnabled)
        && BodyOk(c, j) && !c.closing)
  }

  lemma OwingIsOnTrack(rules: HttpRules, e: Engine, fd: Fd, response: string)
    requires Owing(rules, e, fd, response)
    ensures OnTrack(rules, e, fd)
  {
    SentSoFar(rules, e.journal[fd].requests, e.sockets[fd].sent, e.clients[fd].outputBuffer + response,
              e.clients[fd].closeAfterWrite, e.clients[fd].keepAliveEnabled);
  }

  lemma NothingOwing(rules: HttpRules, e: Engine, fd: Fd)
    requires Owing(rules, e, fd, "") && e.interest[fd] == MaskFor(e.clients[fd])
    ensures Healthy(rules, e, fd)
  {
    assert e.clients[fd].outputBuffer + "" == e.clients[fd].outputBuffer;
  }

  // The last byte of request has just been consumed: it is on record, unanswered.
  ghost predicate AwaitsReply(rules: HttpRules, e: Engine, fd: Fd, request: HttpRequest) {
    && fd in e.clients && fd in e.journal && fd in e.sockets && fd in e.interest
    && (var c, j, s := e.clients[fd], e.journal[fd], e.sockets[fd];
        && j.requests != [] && j.requests[|j.requests| - 1] == request
        && Framed(rules.parse, s.received, j.requests, AtHeader, c.inputBuffer) && !c.waitingForRequestBody
        && Streamed(rules, j.requests[..|j.requests| - 1], s.sent, c.outputBuffer, c.closeAfterWrite, c.keepAliveEnabled)
        && BodyOk(c, j) && !c.closing
        && e.interest[fd] == MaskFor(c))
  }

  lemma AwaitsReplyAfterDisarm(rules: HttpRules, e: Engine, fd: Fd, kind: TimerKind, request: HttpRequest)
    requires AwaitsReply(rules, e, fd, request) && kind != BodyTimer
    ensures AwaitsReply(rules, Disarmed(e, fd, kind), fd, request)
    ensures SameInput(e.clients[fd], Disarmed(e, fd, kind).clients[fd])
    ensures Disarmed(e, fd, kind).journal[fd].requests == e.journal[fd].requests
  {
  }

  // What the response to a completed request will say, and the record once that is settled.
  function KeepsAlive(rules: HttpRules, c: ClientConnection, request: HttpRequest): bool {
    rules.keepsAlive(request) && !c.closeAfterWrite
  }

  function Replying(rules: HttpRules, c: ClientConnection, request: HttpRequest): ClientConnection {
    var keepAlive := KeepsAlive(rules, c, request);
    c.(keepAliveEnabled := keepAlive, closeAfterWrite := c.closeAfterWrite || !keepAlive)
  }

  lemma ReplyIsOwing(rules: HttpRules, e: Engine, fd: Fd, request: HttpRequest)
    requires AwaitsReply(rules, e, fd, request)
    ensures Owing(rules, Put(e, fd, Replying(rules, e.clients[fd], request), e.journal[fd]), fd,
                  rules.okResponse(KeepsAlive(rules, e.clients[fd], request)))
  {
    var c := e.clients[fd];
    NextResponse(rules, e.journal[fd].requests, e.sockets[fd].sent, c.outputBuffer, c.closeAfterWrite, c.keepAliveEnabled);
  }

  // The response to the last request continues the stream of the earlier ones.
  lemma NextResponse(rules: HttpRules, requests: seq<HttpRequest>, sent: string, queued: string, closes: bool, keeps: bool)
    requires requests != [] && Streamed(rules, requests[..|requests| - 1], sent, queued, closes, keeps)
    ensures var keepAlive := rules.keepsAlive(requests[|requests| - 1]) && !closes;
            Streamed(rules, requests, sent, queued + rules.okResponse(keepAlive), closes || !keepAlive, keepAlive)
  {
    StreamOf(rules, requests[..|requests| - 1], sent, queued, closes, keeps);
    var response := rules.okResponse(AllKeepAlive(rules, requests));
    assert sent + (queued + response) == sent + queued + response;
  }

  lemma OwingAfterQueueing(rules: HttpRules, e: Engine, e': Engine, fd: Fd, rest: string)
    requires Owing(rules, e, fd, rest)
    requires e'.clients == e.clients[fd := e.clients[fd].(outputBuffer := e.clients[fd].outputBuffer + rest)]
    requires e'.journal == e.journal && e'.sockets == e.sockets && e'.interest == e.interest
    ensures Owing(rules, e', fd, "")
  {
    var output := e.clients[fd].outputBuffer + rest;
    assert output + "" == output;
  }

  lemma OwingAfterWrite(rules: HttpRules, e: Engine, fd: Fd, response: string, n: nat)
    requires Owing(rules, e, fd, response) && e.clients[fd].outputBuffer == "" && n <= |response|
    ensures Owing(rules, Moved(e, fd, e.sockets[fd].(sent := e.sockets[fd].sent + response[..n], full := n == 0)), fd, response[n..])
  {
    var c := e.clients[fd];
    assert "" + response == response && "" + response[n..] == response[n..];
    StreamAfterWrite(rules, e.journal[fd].requests, e.sockets[fd].sent, response, c.closeAfterWrite, c.keepAliveEnabled, n);
  }

  // Bytes that go out move from the queued side to the sent side.
  lemma StreamAfterWrite(rules: HttpRules, requests: seq<HttpRequest>, sent: string, queued: string, closes: bool, keeps: bool, n: nat)
    requires Streamed(rules, requests, sent, queued, closes, keeps) && n <= |queued|
    ensures Streamed(rules, requests, sent + queued[..n], queued[n..], closes, keeps)
  {
    StreamOf(rules, requests, sent, queued, closes, keeps);
    assert sent + queued[..n] + queued[n..] == sent + queued;
  }

  // ---------------------------------------------------------------- request bodies

  // A body is being received; with nothing missing it is about to be completed.
  ghost predicate Receiving(rules: HttpRules, e: Engine, fd: Fd) {
    && fd in e.clients && fd in e.journal && fd in e.sockets && fd in e.interest
    && (var c, j, s := e.clients[fd], e.journal[fd], e.sockets[fd];
        && Framed(rules.parse, s.received, j.requests, c.InputCursor(), c.inputBuffer)
        && Streamed(rules, j.requests, s.sent, c.outputBuffer, c.closeAfterWrite, c.keepAliveEnabled)
        && c.waitingForRequestBody && c.bodyTimeout.armed && !c.closing
        && c.pendingBodyBytesRemaining <= c.pendingBodyBytesTotal == BodyLength(c.pendingRequest)
        && 0 < c.pendingBodyBytesTotal <= MAX_BODY_BYTES
        && BodyTimer in j.deadlines
        && j.deadlines[BodyTimer] == CalculateBodyReceiveDeadline(j.bodyStart, c.pendingBodyBytesTotal)
        && !(c.headerTimeout.armed && c.idleTimeout.armed)
        && e.interest[fd] == MaskFor(c))
  }

  lemma HealthyIsReceiving(rules: HttpRules, e: Engine, fd: Fd)
    requires Healthy(rules, e, fd) && e.clients[fd].waitingForRequestBody
    ensures Receiving(rules, e, fd)
  {
  }

  lemma ReceivingIsHealthy(rules: HttpRules, e: Engine, fd: Fd)
    requires Receiving(rules, e, fd) && e.clients[fd].pendingBodyBytesRemaining > 0
    ensures Healthy(rules, e, fd)
  {
  }

  function WithBodyBytes(c: ClientConnection, n: nat): ClientConnection
    requires n <= |c.inputBuffer| && n <= c.pendingBodyBytesRemaining
  {
    c.(inputBuffer := c.inputBuffer[n..], pendingBodyBytesRemaining := c.pendingBodyBytesRemaining - n)
  }

  lemma BodyBytesAreServing(rules: HttpRules, e: Engine, fd: Fd, n: nat)
    requires Shape(rules, e) && fd in e.clients && e.clients[fd].waitingForRequestBody
    requires n <= |e.clients[fd].inputBuffer| && n <= e.clients[fd].pendingBodyBytesRemaining
    ensures n <= e.inflight
    ensures var taken := Rewritten(e, fd, WithBodyBytes(e.clients[fd], n), e.journal[fd], e.inflight - n);
            Shape(rules, taken) && Served(e, taken, fd)
  {
    CloseNeverUnderflows(rules, e, fd);
    RewriteIsServing(rules, e, fd, WithBodyBytes(e.clients[fd], n), e.journal[fd], e.inflight - n);
  }

  lemma ReceivingAfterBytes(rules: HttpRules, e: Engine, fd: Fd, n: nat)
    requires Receiving(rules, e, fd)
    requires n <= |e.clients[fd].inputBuffer| && n <= e.clients[fd].pendingBodyBytesRemaining
    ensures Receiving(rules, e.(clients := e.clients[fd := WithBodyBytes(e.clients[fd], n)]), fd)
  {
    var c := e.clients[fd];
    FramedConsume(rules.parse, e.sockets[fd].received, e.journal[fd].requests, c.pendingRequest,
                  c.pendingBodyBytesRemaining, c.inputBuffer, n);
  }

  function BodyDone(c: ClientConnection): ClientConnection {
    c.(waitingForRequestBody := false, pendingRequest := EMPTY_REQUEST, pendingBodyBytesTotal := 0, pendingBodyBytesRemaining := 0)
  }

  // The last body byte completes the request.
  lemma BodyDoneAwaitsReply(rules: HttpRules, e: Engine, fd: Fd)
    requires Receiving(rules, e, fd) && e.clients[fd].pendingBodyBytesRemaining == 0
    ensures var c := e.clients[fd];
            AwaitsReply(rules, Disarmed(Completed(e, fd, BodyDone(c), c.pendingRequest), fd, BodyTimer), fd, c.pendingRequest)
  {
    var c, j := e.clients[fd], e.journal[fd];
    FramedComplete(rules.parse, e.sockets[fd].received, j.requests, c.pendingRequest, c.inputBuffer);
    assert (j.requests + [c.pendingRequest])[..|j.requests|] == j.requests;
  }

  // A header with a body to follow has just been taken off the buffer.
  ghost predicate AwaitsBody(rules: HttpRules, e: Engine, fd: Fd, request: HttpRequest) {
    && fd in e.clients && fd in e.journal && fd in e.sockets && fd in e.interest
    && (var c, j, s := e.clients[fd], e.journal[fd], e.sockets[fd];
        && 0 < BodyLength(request) <= MAX_BODY_BYTES
        && Framed(rules.parse, s.received, j.requests, InBody(request, BodyLength(request)), c.inputBuffer)
        && !c.waitingForRequestBody && BodyOk(c, j) && !c.closing
        && Streamed(rules, j.requests, s.sent, c.outputBuffer, c.closeAfterWrite, c.keepAliveEnabled)
        && e.interest[fd] == MaskFor(c))
  }

  function BodyBegun(c: ClientConnection, request: HttpRequest): ClientConnection {
    c.(waitingForRequestBody := true, pendingRequest := request,
       pendingBodyBytesTotal := BodyLength(request), pendingBodyBytesRemaining := BodyLength(request))
  }

  // Only the body timer is left, with the deadline its length earns it.
  ghost predicate OnlyBodyArmed(e: Engine, e': Engine, fd: Fd, deadline: int) {
    && fd in e.clients && fd in e'.clients && fd in e.journal && fd in e'.journal
    && (var c, c' := e.clients[fd], e'.clients[fd];
        && c' == c.(headerTimeout := c'.headerTimeout, bodyTimeout := c'.bodyTimeout, idleTimeout := c'.idleTimeout)
        && c'.bodyTimeout.armed && !c'.headerTimeout.armed && !c'.idleTimeout.armed)
    && e'.journal[fd] == e.journal[fd].(deadlines := e'.journal[fd].deadlines, resumed := e'.journal[fd].resumed)
    && e'.journal[fd].deadlines == map[BodyTimer := deadline]
    && e'.sockets == e.sockets && e'.interest == e.interest
  }

  lemma BodyBegunIsReceiving(rules: HttpRules, e: Engine, begun: Engine, e': Engine, fd: Fd, request: HttpRequest, now: int)
    requires AwaitsBody(rules, e, fd, request)
    requires begun.clients == e.clients[fd := BodyBegun(e.clients[fd], request)]
    requires begun.journal == e.journal[fd := e.journal[fd].(bodyStart := now)]
    requires begun.sockets == e.sockets && begun.interest == e.interest
    requires OnlyBodyArmed(begun, e', fd, CalculateBodyReceiveDeadline(now, BodyLength(request)))
    ensures Receiving(rules, e', fd)
    ensures SameFlags(e.clients[fd], e'.clients[fd])
    ensures e'.journal[fd].deadlines == map[BodyTimer := BodyDeadline(e', fd)]
  {
  }

  // ---------------------------------------------------------------- request headers

  // An accepted header has just been taken off the buffer.
  ghost predicate Admitted(rules: HttpRules, e: Engine, fd: Fd, request: HttpRequest) {
    && fd in e.clients && fd in e.journal && fd in e.sockets && fd in e.interest
    && (var c, j, s := e.clients[fd], e.journal[fd], e.sockets[fd];
        && BodyLength(request) <= MAX_BODY_BYTES
        && Framed(rules.parse, s.received, j.requests + DoneAtHeader(request), AfterHeader(request), c.inputBuffer)
        && !c.waitingForRequestBody && BodyOk(c, j) && !c.closing
        && Streamed(rules, j.requests, s.sent, c.outputBuffer, c.closeAfterWrite, c.keepAliveEnabled)
        && e.interest[fd] == MaskFor(c))
  }

  lemma PopIsAdmitted(rules: HttpRules, e: Engine, e': Engine, fd: Fd)
    requires Healthy(rules, e, fd) && !e.clients[fd].waitingForRequestBody && HasCompleteHeader(e.clients[fd].inputBuffer)
    requires e'.clients == e.clients[fd := e.clients[fd].(inputBuffer := AfterFirstHeader(e.clients[fd].inputBuffer))]
    requires e'.journal == e.journal && e'.sockets == e.sockets && e'.interest == e.interest
    ensures Accounted(rules, e', fd)
    ensures var admission := Admit(rules.parse(FirstHeader(e.clients[fd].inputBuffer)));
            admission.Refused? ==> Refuses(rules.parse, e.sockets[fd].received, e.journal[fd].requests, admission.status)
    ensures var admission := Admit(rules.parse(FirstHeader(e.clients[fd].inputBuffer)));
            admission.Accepted? ==> Admitted(rules, e', fd, admission.request)
  {
    HealthyIsOnTrack(rules, e, fd);
    var buffered := e.clients[fd].inputBuffer;
    if Admit(rules.parse(FirstHeader(buffered))).Accepted? {
      FramedPop(rules.parse, e.sockets[fd].received, e.journal[fd].requests, buffered);
    } else {
      FramedRefusal(rules.parse, e.sockets[fd].received, e.journal[fd].requests, buffered);
    }
  }

  lemma AdmittedWithBody(rules: HttpRules, e: Engine, fd: Fd, request: HttpRequest)
    requires Admitted(rules, e, fd, request) && BodyLength(request) > 0
    ensures AwaitsBody(rules, e, fd, request)
  {
    assert e.journal[fd].requests + [] == e.journal[fd].requests;
  }

  lemma AdmittedWithoutBody(rules: HttpRules, e: Engine, fd: Fd, request: HttpRequest)
    requires Admitted(rules, e, fd, request) && BodyLength(request) == 0
    ensures AwaitsReply(rules, Completed(e, fd, e.clients[fd], request), fd, request)
  {
    var requests := e.journal[fd].requests;
    assert (requests + [request])[..|requests|] == requests;
  }

  // ---------------------------------------------------------------- coming to rest

  // Between handlers, except that a complete header may have been left behind.
  ghost predicate Rested(rules: HttpRules, e: Engine, fd: Fd) {
    Healthy(rules, e, fd) && (e.clients[fd].waitingForRequestBody ==> e.clients[fd].inputBuffer == "")
  }

  // ... and so a connection is when it has just been taken off the queue.
  ghost predicate Poised(rules: HttpRules, e: Engine, fd: Fd) {
    Rested(rules, e, fd) && Clocked(e.clients[fd], e.journal[fd])
  }

  // With its flags changed, a connection that is in the queue or has no header to look at is fine.
  lemma PoisedIsGood(rules: HttpRules, e: Engine, fd: Fd)
    requires Poised(rules, e, fd)
    requires Stalled(e.clients[fd]) ==> LastHadBody(e.journal[fd].requests)
    ensures Good(rules, e, fd)
  {
  }

  // Queueing a connection, postponing a read and resuming one.
  lemma RestedAfterFlags(rules: HttpRules, e: Engine, e': Engine, fd: Fd)
    requires Rested(rules, e, fd) && fd in e'.clients
    requires e'.clients[fd] == e.clients[fd].(inReadyQueue := e'.clients[fd].inReadyQueue, readyForRead := e'.clients[fd].readyForRead)
    requires fd in e'.journal && e'.journal[fd] == e.journal[fd].(resumed := e'.journal[fd].resumed)
    requires e'.sockets == e.sockets && e'.interest == e.interest
    ensures Rested(rules, e', fd)
    ensures Poised(rules, e, fd) && (e.clients[fd].readyForRead || e.journal[fd].resumed ==> e'.clients[fd].readyForRead || e'.journal[fd].resumed) ==>
      Poised(rules, e', fd)
  {
  }

  // Moving the header and idle timers is not seen by the rest of the invariant.
  ghost predicate TimersMoved(e: Engine, e': Engine, fd: Fd) {
    && fd in e.clients && fd in e'.clients && fd in e.journal && fd in e'.journal
    && (var c, c' := e.clients[fd], e'.clients[fd];
        && c' == c.(headerTimeout := c'.headerTimeout, idleTimeout := c'.idleTimeout)
        && !(c'.headerTimeout.armed && c'.idleTimeout.armed))
    && (var j, j' := e.journal[fd], e'.journal[fd];
        && j' == j.(deadlines := j'.deadlines, resumed := j'.resumed)
        && (BodyTimer in j.deadlines ==> BodyTimer in j'.deadlines && j'.deadlines[BodyTimer] == j.deadlines[BodyTimer]))
    && e'.sockets == e.sockets && e'.interest == e.interest
  }

  // Arming one of the two cancels the other.
  lemma ArmedTimersMove(e: Engine, e': Engine, fd: Fd, kind: TimerKind, other: TimerKind, deadline: int)
    requires (kind == HeaderTimer && other == IdleTimer) || (kind == IdleTimer && other == HeaderTimer)
    requires fd in e.clients && fd in e.journal
    requires e'.clients == e.clients[fd := e.clients[fd].Disarm(other).Arm(kind)]
    requires e'.journal == e.journal[fd := e.journal[fd].Disarm(other).Arm(kind, deadline)]
    requires e'.sockets == e.sockets && e'.interest == e.interest
    ensures TimersMoved(e, e', fd) && Waits(e', fd, kind, deadline)
  {
  }

  lemma DisarmedTimersMove(e: Engine, e': Engine, fd: Fd, kind: TimerKind)
    requires kind != BodyTimer && fd in e.clients && fd in e.journal
    requires !(e.clients[fd].headerTimeout.armed && e.clients[fd].idleTimeout.armed)
    requires e'.clients == e.clients[fd := e.clients[fd].Disarm(kind)]
    requires e'.journal == e.journal[fd := e.journal[fd].Disarm(kind)]
    requires e'.sockets == e.sockets && e'.interest == e.interest
    ensures TimersMoved(e, e', fd)
  {
  }

  // A timer of this kind is running until deadline.
  ghost predicate Waits(e: Engine, fd: Fd, kind: TimerKind, deadline: int) {
    && fd in e.clients && fd in e.journal && e.clients[fd].TimerOf(kind).armed
    && kind in e.journal[fd].deadlines && e.journal[fd].deadlines[kind] == deadline
  }

  // Nothing is queued, the connection is kept: it is idle, or on the header clock if part of a
  // header has come.
  ghost predicate OnTheClock(e: Engine, fd: Fd, now: int) {
    fd in e.clients &&
    if e.clients[fd].inputBuffer == "" then Waits(e, fd, IdleTimer, now + 60_000 * MS)
    else Waits(e, fd, HeaderTimer, now + 10_000 * MS)
  }

  // Every complete header has been dealt with; what is left waits for a body, for the socket, for
  // a postponed read or, on the clock, for more of a header. While a read is postponed nothing is
  // closed and no clock is started.
  ghost predicate CaughtUp(e: Engine, fd: Fd, now: int) {
    && fd in e.clients
    && (var c := e.clients[fd];
        c.waitingForRequestBody || (!HasCompleteHeader(c.inputBuffer) &&
          (c.outputBuffer != "" || c.readyForRead || (!c.closeAfterWrite && OnTheClock(e, fd, now)))))
  }

  // At the end of a round that has answered something, the clock runs unless a read is postponed.
  lemma ClockUnlessPostponed(rules: HttpRules, e: Engine, e': Engine, fd: Fd, now: int)
    requires fd in e.clients && !e.clients[fd].headerTimeout.armed && !e.clients[fd].idleTimeout.armed
    requires Good(rules, e', fd) && CaughtUp(e', fd, now) && !e'.clients[fd].waitingForRequestBody
    requires e'.clients[fd].readyForRead ==> e'.clients[fd] == e.clients[fd]
    ensures Unwatched(e'.clients[fd]) <==>
            e'.clients[fd].readyForRead && e'.clients[fd].outputBuffer == "" && !e'.clients[fd].inReadyQueue
  {
  }

  // All output is out: what can go on is queued, what is finished is gone, what is kept is idle.
  ghost predicate Drained(e: Engine, fd: Fd, now: int) {
    && fd in e.clients
    && (var c := e.clients[fd];
        c.outputBuffer == "" &&
        if HasCompleteHeader(c.inputBuffer) || c.readyForRead then c.inReadyQueue
        else !c.closeAfterWrite && (c.keepAliveEnabled ==> Waits(e, fd, IdleTimer, now + 60_000 * MS)))
  }

  // What draining the output of a connection does to its deadlines.
  function DrainedDeadlines(deadlines: map<TimerKind, int>, c: ClientConnection, now: int): map<TimerKind, int> {
    if HasCompleteHeader(c.inputBuffer) || c.readyForRead || !c.keepAliveEnabled then deadlines
    else (deadlines - {HeaderTimer})[IdleTimer := now + 60_000 * MS]
  }

  // The idle deadline has been exchanged for a header deadline, set between from and to.
  ghost predicate OnHeaderClockSince(deadlines: map<TimerKind, int>, deadlines': map<TimerKind, int>, from: int, to: int) {
    && HeaderTimer in deadlines' && from + 10_000 * MS <= deadlines'[HeaderTimer] <= to + 10_000 * MS
    && deadlines' == (deadlines - {IdleTimer})[HeaderTimer := deadlines'[HeaderTimer]]
  }

  lemma HeaderClockStarts(deadlines: map<TimerKind, int>, now: int, from: int, to: int)
    requires from <= now <= to
    ensures OnHeaderClockSince(deadlines, (deadlines - {IdleTimer} - {IdleTimer})[HeaderTimer := now + HEADER_TIMEOUT], from, to)
  {
    assert deadlines - {IdleTimer} - {IdleTimer} == deadlines - {IdleTimer};
  }

  // Only the two waiting timers differ.
  predicate SameButWaiting(c: ClientConnection, c': ClientConnection) {
    c' == c.(headerTimeout := c'.headerTimeout, idleTimeout := c'.idleTimeout)
  }

  lemma RestedAfterTimers(rules: HttpRules, e: Engine, e': Engine, fd: Fd)
    requires TimersMoved(e, e', fd) && Rested(rules, e, fd)
    ensures Rested(rules, e', fd) && (Stalled(e.clients[fd]) <==> Stalled(e'.clients[fd]))
  {
  }

  lemma GoodOnceArmed(rules: HttpRules, e: Engine, e': Engine, fd: Fd)
    requires TimersMoved(e, e', fd) && Rested(rules, e, fd)
    requires Stalled(e.clients[fd]) ==> LastHadBody(e.journal[fd].requests)
    requires e'.clients[fd].headerTimeout.armed || e'.clients[fd].idleTimeout.armed
    ensures Good(rules, e', fd)
  {
    RestedAfterTimers(rules, e, e', fd);
  }

  // Bytes the socket has delivered are appended to the input buffer.
  lemma HealthyAfterRead(rules: HttpRules, before: Engine, e: Engine, fd: Fd, chunk: string)
    requires Healthy(rules, before, fd) && fd in e.sockets
    requires e.clients == before.clients[fd := before.clients[fd].(inputBuffer := before.clients[fd].inputBuffer + chunk)]
    requires e.journal == before.journal && e.interest == before.interest
    requires e.sockets[fd] == before.sockets[fd].(received := before.sockets[fd].received + chunk)
    ensures Healthy(rules, e, fd)
  {
    var c := before.clients[fd];
    FramedAppend(rules.parse, before.sockets[fd].received, before.journal[fd].requests, c.InputCursor(), c.inputBuffer, chunk);
  }

  // While output is being flushed the mask lags behind, but never misses write readiness.
  ghost predicate Flushing(rules: HttpRules, e: Engine, fd: Fd) {
    && fd in e.clients && fd in e.journal && fd in e.sockets && fd in e.interest
    && Sound(rules, e.clients[fd], e.journal[fd], e.sockets[fd])
    && (e.clients[fd].waitingForRequestBody ==> e.clients[fd].inputBuffer == "")
    && e.interest[fd] == PollMask(true, e.interest[fd].writable, true)
    && (e.clients[fd].outputBuffer != "" ==> e.interest[fd].writable)
    && (e.clients[fd].outputBuffer == "" ==> e.journal[fd].requests != [] || Clocked(e.clients[fd], e.journal[fd]))
  }

  lemma FlushingIsOnTrack(rules: HttpRules, e: Engine, fd: Fd)
    requires Flushing(rules, e, fd)
    ensures Accounted(rules, e, fd)
  {
    StreamedIsAccounted(rules, e, fd);
  }

  // A connection that has answered something and is not to be closed is kept alive.
  lemma AnsweredIsKept(rules: HttpRules, e: Engine, fd: Fd)
    requires Flushing(rules, e, fd) && e.journal[fd].requests != []
    ensures e.clients[fd].keepAliveEnabled == !e.clients[fd].closeAfterWrite
  {
    StreamOf(rules, e.journal[fd].requests, e.sockets[fd].sent, e.clients[fd].outputBuffer,
             e.clients[fd].closeAfterWrite, e.clients[fd].keepAliveEnabled);
  }

  // Once the mask catches up.
  lemma FlushingIsRested(rules: HttpRules, e: Engine, e': Engine, fd: Fd)
    requires Flushing(rules, e, fd)
    requires e'.clients == e.clients && e'.journal == e.journal && e'.sockets == e.sockets
    requires fd in e'.interest && e'.interest[fd] == MaskFor(e.clients[fd])
    ensures Rested(rules, e', fd)
  {
  }

  lemma FlushingAfterWrite(rules: HttpRules, e: Engine, e': Engine, fd: Fd, n: nat)
    requires Flushing(rules, e, fd) && n <= |e.clients[fd].outputBuffer|
    requires var c, s := e.clients[fd], e.sockets[fd];
             && e'.clients == e.clients[fd := c.(outputBuffer := c.outputBuffer[n..])]
             && e'.sockets == e.sockets[fd := s.(sent := s.sent + c.outputBuffer[..n], full := false)]
    requires e'.journal == e.journal && e'.interest == e.interest
    ensures Flushing(rules, e', fd)
  {
    var c := e.clients[fd];
    StreamAfterWrite(rules, e.journal[fd].requests, e.sockets[fd].sent, c.outputBuffer, c.closeAfterWrite, c.keepAliveEnabled, n);
    StreamOf(rules, e.journal[fd].requests, e.sockets[fd].sent, c.outputBuffer, c.closeAfterWrite, c.keepAliveEnabled);
  }

  ghost predicate SocketFull(e: Engine, fd: Fd) {
    fd in e.sockets && e.sockets[fd].full
  }

  // Output that the socket does not take stays where it is, and the poller is watching for room.
  lemma StuckIsGood(rules: HttpRules, e: Engine, fd: Fd)
    requires Flushing(rules, e, fd) && e.clients[fd].outputBuffer != ""
    ensures Good(rules, Moved(e, fd, e.sockets[fd].(full := true)), fd)
  {
  }

  lemma NothingSent(s: Stream, data: string)
    ensures s.(sent := s.sent + data[..0], full := true) == s.(full := true)
  {
    assert s.sent + data[..0] == s.sent;
  }

  // A drained connection that is not to be closed goes idle: having answered something, it is kept
  // alive and gets its timer.
  lemma IdleAfterFlush(rules: HttpRules, e: Engine, e': Engine, e'': Engine, fd: Fd)
    requires Flushing(rules, e, fd) && !HasCompleteHeader(e.clients[fd].inputBuffer)
    requires e.clients[fd].outputBuffer == "" && !e.clients[fd].closeAfterWrite
    requires if e.clients[fd].keepAliveEnabled then TimersMoved(e, e', fd) && e'.clients[fd].idleTimeout.armed else e' == e
    requires e''.clients == e'.clients && e''.journal == e'.journal && e''.sockets == e'.sockets
    requires fd in e''.interest && e''.interest[fd] == MaskFor(e'.clients[fd])
    ensures Good(rules, e'', fd)
  {
    var c := e.clients[fd];
    StreamOf(rules, e.journal[fd].requests, e.sockets[fd].sent, c.outputBuffer, c.closeAfterWrite, c.keepAliveEnabled);
  }
}
