// What the invariant means to an operator or a client. Everything here holds at every handler
// boundary of every run, because Running() and with it Valid does.
module Guarantees {
  import opened Text
  import opened DynamicBuffers
  import opened HttpParser
  import opened Framing
  import opened Connections
  import opened Engines
  import opened Upkeep
  import opened Serving
  import opened Lifecycles
  import RateLimiter
  import HeaderMeaning
  import ResponseReader
  import Decimal
  import Servers

  lemma ConnectionOf(rules: HttpRules, e: Engine, fd: Fd)
    requires Valid(rules, e) && fd in e.clients
    ensures fd in e.journal && fd in e.sockets && fd in e.interest
    ensures Sound(rules, e.clients[fd], e.journal[fd], e.sockets[fd]) && Settled(e.clients[fd], e.journal[fd])
    ensures e.interest[fd] == MaskFor(e.clients[fd])
  {
    GoodNow(rules, e, fd);
  }

  // ---------------------------------------------------------------- requests

  // However the stream was cut into reads, rounds and deferrals, the frames of everything received
  // are the completed requests followed by the frames of the input buffer, which is the end of the
  // stream: nothing is lost, duplicated or cut in the wrong place.
  lemma FramingRefinesSplitting(rules: HttpRules, e: Engine, fd: Fd)
    requires Valid(rules, e) && fd in e.clients
    ensures fd in e.journal && fd in e.sockets
    ensures var c, requests, received := e.clients[fd], e.journal[fd].requests, e.sockets[fd].received;
            var frames := Split(rules.parse, AtHeader, received);
            && frames == Prepend(requests, Split(rules.parse, c.InputCursor(), c.inputBuffer)) && EndsWith(received, c.inputBuffer)
            && requests <= frames.requests
            && (c.waitingForRequestBody ==> frames == Frames(requests, NeedBody(c.pendingRequest, c.pendingBodyBytesRemaining)))
            && (!c.waitingForRequestBody && !HasCompleteHeader(c.inputBuffer) ==> frames == Frames(requests, NeedHeader(c.inputBuffer)))
  {
    ConnectionOf(rules, e, fd);
    var c, requests := e.clients[fd], e.journal[fd].requests;
    SplitOf(rules.parse, e.sockets[fd].received, requests, c.InputCursor(), c.inputBuffer);
    assert requests + [] == requests;
  }

  // A client that sends well-formed requests has only those completed, in order, each once, and all
  // of them as soon as the server waits for the next one with nothing left to parse.
  lemma RequestsSentAreServed(e: Engine, fd: Fd, messages: seq<HeaderMeaning.Message>)
    requires Valid(HTTP_RULES, e) && fd in e.clients && fd in e.sockets && fd in e.journal
    requires forall m :: m in messages ==> HeaderMeaning.IsMessage(m)
    requires e.sockets[fd].received == HeaderMeaning.Bytes(messages)
    ensures e.journal[fd].requests <= HeaderMeaning.RequestsOf(messages)
    ensures !e.clients[fd].waitingForRequestBody && !HasCompleteHeader(e.clients[fd].inputBuffer) ==>
              && e.journal[fd].requests == HeaderMeaning.RequestsOf(messages)
              && e.sockets[fd].sent + e.clients[fd].outputBuffer == ResponseStream(HTTP_RULES, HeaderMeaning.RequestsOf(messages))
  {
    FramingRefinesSplitting(HTTP_RULES, e, fd);
    ResponseIntegrity(HTTP_RULES, e, fd);
    var received := e.sockets[fd].received;
    assert HeaderMeaning.Bytes(messages) + "" == received;
    HeaderMeaning.SplitUndoesSending(messages, "");
    NoHeaderInNothing();
    assert HeaderMeaning.RequestsOf(messages) + [] == HeaderMeaning.RequestsOf(messages);
  }

  // A complete header is never forgotten, except behind a body: unless the last completed request
  // had one, a connection with a header to parse and nothing to send is in the ready queue.
  // FeedChunk says exactly when a header is left behind; the run LoseRequest leads to one.
  lemma NoLostParseWork(rules: HttpRules, e: Engine, fd: Fd)
    requires Valid(rules, e) && fd in e.clients && fd in e.journal
    requires !LastHadBody(e.journal[fd].requests)
    requires HasCompleteHeader(e.clients[fd].inputBuffer) && e.clients[fd].outputBuffer == ""
    ensures fd in e.ready
  {
    ConnectionOf(rules, e, fd);
    Unseal(rules, e);
    assert multiset(e.ready)[fd] == if e.clients[fd].inReadyQueue then 1 else 0;
  }

  // A connection without output, queue entry and deadline is left to its peer. There is none,
  // except after a request with a body or after a postponed read. FeedChunk, ProcessBufferedHeaders
  // and ContinueReadyConnection say exactly when they leave one, FlushClientOutput that it leaves
  // none; the run ForgetFinished leads to one that ought to have been closed.
  lemma EveryConnectionIsWatched(rules: HttpRules, e: Engine, fd: Fd)
    requires Valid(rules, e) && fd in e.clients
    ensures fd in e.journal
    ensures var c, j := e.clients[fd], e.journal[fd];
            && (Unwatched(c) <==> c.outputBuffer == "" && fd !in e.ready && j.deadlines == map[])
            && (Unwatched(c) ==> !c.waitingForRequestBody && (LastHadBody(j.requests) || c.readyForRead || j.resumed))
  {
    ConnectionOf(rules, e, fd);
    ReadyQueueAgrees(rules, e, fd);
    Unseal(rules, e);
    var c, j := e.clients[fd], e.journal[fd];
    assert ArmedOk(fd, c, j, e.heap);
    assert c.TimerOf(HeaderTimer) == c.headerTimeout && c.TimerOf(BodyTimer) == c.bodyTimeout && c.TimerOf(IdleTimer) == c.idleTimeout;
    if !c.headerTimeout.armed && !c.bodyTimeout.armed && !c.idleTimeout.armed {
      forall kind ensures kind !in j.deadlines {
        assert !c.TimerOf(kind).armed;
      }
    }
  }

  // ---------------------------------------------------------------- responses

  // Bytes the socket took and bytes still queued are the responses to the completed requests, in
  // order, each once.
  lemma ResponseIntegrity(rules: HttpRules, e: Engine, fd: Fd)
    requires Valid(rules, e) && fd in e.clients
    ensures fd in e.journal && fd in e.sockets
    ensures var c, requests := e.clients[fd], e.journal[fd].requests;
            && e.sockets[fd].sent + c.outputBuffer == ResponseStream(rules, requests)
            && c.closeAfterWrite == !AllKeepAlive(rules, requests)
  {
    ConnectionOf(rules, e, fd);
    var c := e.clients[fd];
    StreamOf(rules, e.journal[fd].requests, e.sockets[fd].sent, c.outputBuffer, c.closeAfterWrite, c.keepAliveEnabled);
  }

  // A connection that has been closed was sent a prefix of the same, all of it if that was the
  // reason for closing it, and a prefix of one error page if and only if it was rejected: all of
  // the page unless its socket was full or broken. If it was rejected for a header, the one-shot
  // splitter rejects what it sent just there and with the same status.
  lemma ClosedConnectionsWereServed(rules: HttpRules, e: Engine, i: nat)
    requires Valid(rules, e) && i < |e.closeLog|
    ensures var record := e.closeLog[i];
            && record.okBytes <= |record.sent|
            && record.sent[..record.okBytes] <= ResponseStream(rules, record.journal.requests)
            && (OwesOnlyOutput(record.reason) ==> record.sent[..record.okBytes] + record.unsent == ResponseStream(rules, record.journal.requests))
            && (record.reason == ResponsesSent ==> record.sent == ResponseStream(rules, record.journal.requests))
            && (record.reason.ErrorPage? && IsVerdict(record.reason.status) ==>
                  Split(rules.parse, AtHeader, record.received) == Frames(record.journal.requests, Rejected(record.reason.status)))
            && (if record.reason.ErrorPage? then
                  var page, owed := record.sent[record.okBytes..], rules.errorResponse(record.reason.status);
                  page <= owed && (page == owed || record.seen.full || record.seen.writeFailed)
                else record.okBytes == |record.sent|)
  {
    Unseal(rules, e);
    var record := e.closeLog[i];
    assert ClosedOk(rules, record);
    if record.reason.ErrorPage? && IsVerdict(record.reason.status) {
      RefusalOf(rules.parse, record.received, record.journal.requests, record.reason.status);
    }
  }

  // Nobody is closed without a reason: not for having been answered unless the last answer said so,
  // not for a hangup, an end of stream, a failure or a deadline that has not been seen, and not for
  // lack of room while there is some.
  lemma ClosedForAReason(rules: HttpRules, e: Engine, i: nat)
    requires Valid(rules, e) && i < |e.closeLog|
    ensures var record, seen := e.closeLog[i], e.closeLog[i].seen;
            match record.reason
            case ResponsesSent => record.journal.requests != [] && !AllKeepAlive(rules, record.journal.requests)
            case PeerHangup => seen.hungUp
            case PeerClosed => seen.ended
            case ReadFailed => seen.readFailed
            case WriteFailed => seen.writeFailed
            case ConnectionLimit => seen.active > 200000
            case TimedOut(kind) => exists deadline :: record.journal.lapsed == Some(Lapse(kind, deadline)) && deadline <= seen.at
            case ErrorPage(status) => status == 503 ==> seen.inflight + seen.asked > 536870912
  {
    Unseal(rules, e);
    var record := e.closeLog[i];
    assert ClosedOk(rules, record);
    if record.reason.TimedOut? {
      var lapse := record.journal.lapsed.value;
      assert record.journal.lapsed == Some(Lapse(lapse.kind, lapse.deadline));
    }
  }

  // The error page starts at the end of a response, and of the last one owed, exactly when no output
  // was queued when the connection was rejected; then a reader finds the page there. A page behind
  // half a response is read as the rest of it (ResponseReader.CutIsFilled).
  lemma PageReadsBack(e: Engine, i: nat)
    requires Valid(HTTP_RULES, e) && i < |e.closeLog| && e.closeLog[i].reason.ErrorPage?
    ensures var record, status := e.closeLog[i], e.closeLog[i].reason.status;
            var owed := ResponseStream(HTTP_RULES, record.journal.requests);
            && (status != 503 ==> (AnsweredInFull(HTTP_RULES, record) <==> record.unsent == ""))
            && (AnsweredInFull(HTTP_RULES, record) && record.sent[record.okBytes..] == HTTP_RULES.errorResponse(status) ==>
                  && |owed| <= |record.sent|
                  && ResponseReader.Decode(record.sent[|owed|..]) == ResponseReader.Reply(status, ReasonPhrase(status) + "\n")
                  && ResponseReader.HeadersOf(record.sent[|owed|..]) == ResponseReader.PrintedHeaders("close", |ReasonPhrase(status) + "\n"|))
  {
    Unseal(HTTP_RULES, e);
    var record := e.closeLog[i];
    assert ClosedOk(HTTP_RULES, record);
    var start := record.sent[..record.okBytes];
    assert |start + record.unsent| == |start| + |record.unsent| && start + "" == start;
    ErrorPageReadsBack(record.reason.status, "");
    var page := HTTP_RULES.errorResponse(record.reason.status);
    assert page + "" == page;
  }

  // A connection rejected with 431 was sending, behind its completed requests, a header that is over
  // the limit however it would have gone on.
  lemma HeaderWasTooLong(rules: HttpRules, e: Engine, i: nat) returns (rest: string)
    requires Valid(rules, e) && i < |e.closeLog| && e.closeLog[i].reason == ErrorPage(431)
    ensures var record := e.closeLog[i];
            && EndsWith(record.received, rest)
            && Split(rules.parse, AtHeader, record.received) == Prepend(record.journal.requests, Split(rules.parse, AtHeader, rest))
    ensures forall unseen :: HeaderExceedsLimit(rest + unseen, 8192)
  {
    Unseal(rules, e);
    var record := e.closeLog[i];
    assert ClosedOk(rules, record);
    rest :| Framed(rules.parse, record.received, record.journal.requests, AtHeader, rest) && HeaderExceedsLimit(rest, MAX_HEADER_BYTES);
    SplitOf(rules.parse, record.received, record.journal.requests, AtHeader, rest);
    forall unseen ensures HeaderExceedsLimit(rest + unseen, 8192) {
      EarlyLimitDecisionIsExact(rest, unseen, MAX_HEADER_BYTES);
    }
  }

  // The i-th response sits after those of the first i requests.
  lemma {:induction false} StreamSplits(rules: HttpRules, requests: seq<HttpRequest>, i: nat) returns (later: string)
    requires i < |requests|
    ensures ResponseStream(rules, requests) ==
            ResponseStream(rules, requests[..i]) + rules.okResponse(AllKeepAlive(rules, requests[..i + 1])) + later
  {
    var n := |requests|;
    if i == n - 1 {
      later := "";
      assert requests[..n] == requests && requests[..i] == requests[..n - 1];
    } else {
      var front := requests[..n - 1];
      var before := StreamSplits(rules, front, i);
      assert front[..i] == requests[..i] && front[..i + 1] == requests[..i + 1];
      later := before + rules.okResponse(AllKeepAlive(rules, requests));
    }
  }

  lemma ReplyAt(rules: HttpRules, requests: seq<HttpRequest>, i: nat) returns (later: string)
    requires i < |requests|
    ensures |ResponseStream(rules, requests[..i])| <= |ResponseStream(rules, requests)|
    ensures ResponseStream(rules, requests)[|ResponseStream(rules, requests[..i])|..]
         == rules.okResponse(AllKeepAlive(rules, requests[..i + 1])) + later
  {
    later := StreamSplits(rules, requests, i);
    Behind(ResponseStream(rules, requests[..i]), rules.okResponse(AllKeepAlive(rules, requests[..i + 1])), later);
  }

  lemma Behind(before: string, text: string, after: string)
    ensures (before + text + after)[|before|..] == text + after
  {
  }

  // A reader positioned at the i-th response reads status 200 and the fixed body from it,
  // whatever has been queued behind it.
  lemma EveryReplyReadsBack(requests: seq<HttpRequest>, i: nat)
    requires i < |requests|
    ensures var stream, at := ResponseStream(HTTP_RULES, requests), |ResponseStream(HTTP_RULES, requests[..i])|;
            at <= |stream| && ResponseReader.Decode(stream[at..]) == ResponseReader.Reply(200, STATIC_OK_BODY)
  {
    var later := ReplyAt(HTTP_RULES, requests, i);
    OkReadsBack(AllKeepAlive(HTTP_RULES, requests[..i + 1]), later);
  }

  // Its headers tell the client what becomes of the connection: keep-alive exactly as long as every
  // request so far wanted that, close otherwise.
  lemma EveryReplyAnnouncesItself(requests: seq<HttpRequest>, i: nat)
    requires i < |requests|
    ensures var stream, at := ResponseStream(HTTP_RULES, requests), |ResponseStream(HTTP_RULES, requests[..i])|;
            && at <= |stream| && ResponseReader.HeadLines(stream[at..]) != []
            && ResponseReader.HeadLines(stream[at..])[0] == "HTTP/1.1 200 OK"
            && ResponseReader.HeadersOf(stream[at..]) ==
                 map["connection" := if AllKeepAlive(HTTP_RULES, requests[..i + 1]) then "keep-alive" else "close",
                     "content-type" := "text/plain", "content-length" := Decimal.Digits(|STATIC_OK_BODY|)]
  {
    var later := ReplyAt(HTTP_RULES, requests, i);
    OkReadsBack(AllKeepAlive(HTTP_RULES, requests[..i + 1]), later);
  }

  lemma OkReadsBack(keepAlive: bool, rest: string)
    ensures var stream := HTTP_RULES.okResponse(keepAlive) + rest;
            && ResponseReader.Decode(stream) == ResponseReader.Reply(200, STATIC_OK_BODY)
            && ResponseReader.HeadLines(stream) != [] && ResponseReader.HeadLines(stream)[0] == "HTTP/1.1 200 OK"
            && ResponseReader.HeadersOf(stream) == ResponseReader.PrintedHeaders(if keepAlive then "keep-alive" else "close", |STATIC_OK_BODY|)
  {
    ResponseReader.OkResponseRoundTrip(STATIC_OK_BODY, keepAlive, rest);
  }

  lemma PhrasesArePlain(status: nat)
    ensures '\r' !in ReasonPhrase(status)
  {
    match status
    case 411 => assert '\r' !in "Length Required";
    case 413 => assert '\r' !in "Payload Too Large";
    case 429 => assert '\r' !in "Too Many Requests";
    case 431 => assert '\r' !in "Request Header Fields Too Large";
    case 501 => assert '\r' !in "Not Implemented";
    case 503 => assert '\r' !in "Service Unavailable";
    case _ => assert '\r' !in "Bad Request";
  }

  // Status number and phrase of an error page, as they stand on the wire.
  function StatusText(status: nat): (string, string) {
    match status
    case 411 => ("411", "Length Required")
    case 413 => ("413", "Payload Too Large")
    case 429 => ("429", "Too Many Requests")
    case 431 => ("431", "Request Header Fields Too Large")
    case 501 => ("501", "Not Implemented")
    case 503 => ("503", "Service Unavailable")
    case _ => ("400", "Bad Request")
  }

  lemma ThreeDigits(a: nat, b: nat, c: nat)
    requires 0 < a < 10 && b < 10 && c < 10
    ensures Decimal.Print(100 * a + 10 * b + c) == [a as char + '0', b as char + '0', c as char + '0']
  {
    assert Decimal.Digits(a) == [a as char + '0'];
    assert Decimal.Digits(10 * a + b) == [a as char + '0', b as char + '0'];
  }

  lemma StatusIsPrinted(status: nat)
    requires status in {400, 411, 413, 429, 431, 501, 503}
    ensures (Decimal.Print(status), ReasonPhrase(status)) == StatusText(status)
  {
    ThreeDigits(status / 100, status / 10 % 10, status % 10);
  }

  lemma ErrorPageReadsBack(status: nat, rest: string)
    ensures var stream := HTTP_RULES.errorResponse(status) + rest;
            && ResponseReader.Decode(stream) == ResponseReader.Reply(status, ReasonPhrase(status) + "\n")
            && ResponseReader.HeadLines(stream) != []
            && ResponseReader.HeadLines(stream)[0] == "HTTP/1.1 " + Decimal.Print(status) + " " + ReasonPhrase(status)
            && ResponseReader.HeadersOf(stream) == ResponseReader.PrintedHeaders("close", |ReasonPhrase(status) + "\n"|)
  {
    PhrasesArePlain(status);
    ResponseReader.ErrorResponseRoundTrip(status, ReasonPhrase(status), ReasonPhrase(status) + "\n", rest);
  }

  // ---------------------------------------------------------------- request bodies

  // Between handlers a pending body has used up the input buffer, is within bounds, and its body
  // timer runs to the deadline that its announced length earned it when it was started on. Another
  // timer may run beside it: FlushClientOutput and HandleReadable say when.
  lemma BodyStateMachine(rules: HttpRules, e: Engine, fd: Fd)
    requires Valid(rules, e) && fd in e.clients
    ensures fd in e.journal && e.clients[fd].bodyTimeout.armed == e.clients[fd].waitingForRequestBody
    ensures !(e.clients[fd].headerTimeout.armed && e.clients[fd].idleTimeout.armed)
    ensures var c, j := e.clients[fd], e.journal[fd];
            if c.waitingForRequestBody then
              && c.inputBuffer == "" && 0 < c.pendingBodyBytesRemaining <= c.pendingBodyBytesTotal <= 8388608
              && BodyTimer in j.deadlines && j.deadlines[BodyTimer] == CalculateBodyReceiveDeadline(j.bodyStart, c.pendingBodyBytesTotal)
            else
              BodyTimer !in j.deadlines && c.pendingBodyBytesTotal == c.pendingBodyBytesRemaining == 0
  {
    ConnectionOf(rules, e, fd);
    Unseal(rules, e);
    assert ArmedOk(fd, e.clients[fd], e.journal[fd], e.heap);
    assert e.clients[fd].TimerOf(BodyTimer).armed <==> BodyTimer in e.journal[fd].deadlines;
  }

  // A pending body is ended by no other timer than its own exactly when no other deadline of its
  // connection is earlier, in particular when it is the only one, as when the body begins. CutUpload
  // shows one that is.
  lemma NoOtherTimerEndsBody(rules: HttpRules, e: Engine, fd: Fd)
    requires Valid(rules, e) && fd in e.clients && e.clients[fd].waitingForRequestBody
    ensures fd in e.journal && BodyTimer in e.journal[fd].deadlines
    ensures var j := e.journal[fd];
            (forall now :: Due(j, now) ==> j.deadlines[BodyTimer] <= now)
            <==> (forall kind :: kind in j.deadlines ==> j.deadlines[BodyTimer] <= j.deadlines[kind])
    ensures e.journal[fd].deadlines.Keys == {BodyTimer} <==> !e.clients[fd].headerTimeout.armed && !e.clients[fd].idleTimeout.armed
  {
    BodyStateMachine(rules, e, fd);
    Unseal(rules, e);
    var c, j := e.clients[fd], e.journal[fd];
    assert ArmedOk(fd, c, j, e.heap);
    assert c.TimerOf(HeaderTimer) == c.headerTimeout && c.TimerOf(BodyTimer) == c.bodyTimeout && c.TimerOf(IdleTimer) == c.idleTimeout;
    forall kind: TimerKind ensures kind in j.deadlines.Keys <==> c.TimerOf(kind).armed {
    }
    if !c.headerTimeout.armed && !c.idleTimeout.armed {
      assert forall kind :: kind in j.deadlines.Keys <==> kind == BodyTimer;
    }
    if forall now :: Due(j, now) ==> j.deadlines[BodyTimer] <= now {
      forall kind | kind in j.deadlines ensures j.deadlines[BodyTimer] <= j.deadlines[kind] {
        assert Due(j, j.deadlines[kind]);
      }
    }
  }

  // Later bytes of a body never move its deadline: as long as the same connection is waiting for
  // the same request, a run leaves the deadline where it was.
  lemma BodyDeadlineStays(rules: HttpRules, a: Engine, b: Engine, fd: Fd)
    requires Valid(rules, a) && Valid(rules, b) && Ran(a, b)
    requires fd in a.clients && fd in a.journal && a.clients[fd].waitingForRequestBody
    requires fd in b.clients && fd in b.journal && b.clients[fd].connectionId == a.clients[fd].connectionId
    requires |b.journal[fd].requests| == |a.journal[fd].requests|
    ensures b.clients[fd].waitingForRequestBody && b.clients[fd].pendingRequest == a.clients[fd].pendingRequest
    ensures b.clients[fd].pendingBodyBytesRemaining <= a.clients[fd].pendingBodyBytesRemaining
    ensures BodyTimer in a.journal[fd].deadlines && BodyTimer in b.journal[fd].deadlines
    ensures b.journal[fd].deadlines[BodyTimer] == a.journal[fd].deadlines[BodyTimer]
  {
    BodyStateMachine(rules, a, fd);
    BodyStateMachine(rules, b, fd);
    StillTheSame(rules, a, b, fd);
  }

  // A connection with the same id is the same connection, its history extended.
  lemma StillTheSame(rules: HttpRules, a: Engine, b: Engine, fd: Fd)
    requires Valid(rules, a) && Ran(a, b)
    requires fd in a.clients && fd in b.clients && b.clients[fd].connectionId == a.clients[fd].connectionId
    ensures LivedOn(a, b, fd)
  {
    Unseal(rules, a);
    RunOf(a, b);
    assert a.clients[fd].connectionId in a.fate;
  }

  // ---------------------------------------------------------------- timers

  ghost predicate OneNodeIfArmed(e: Engine, fd: Fd, kind: TimerKind)
    requires fd in e.clients
  {
    && fd in e.journal && (e.clients[fd].TimerOf(kind).armed <==> kind in e.journal[fd].deadlines)
    && (kind in e.journal[fd].deadlines ==> e.heap[NodeOf(fd, e.clients[fd], kind, e.journal[fd].deadlines[kind])] == 1)
  }

  ghost predicate IsNodeOfDeadline(e: Engine, t: TimerEntry) {
    && t.fd in e.clients && t.fd in e.journal && t.kind in e.journal[t.fd].deadlines
    && t == NodeOf(t.fd, e.clients[t.fd], t.kind, e.journal[t.fd].deadlines[t.kind])
  }

  // The heap refines the plain map of deadlines: an armed timer has one node, at its deadline, and
  // a node that passes for current is that node. All other nodes are leftovers that match nobody,
  // not even a later connection on the same descriptor.
  lemma HeapRefinesDeadlines(rules: HttpRules, e: Engine)
    requires Valid(rules, e)
    ensures forall fd, kind :: fd in e.clients ==> OneNodeIfArmed(e, fd, kind)
    ensures forall t :: t in e.heap ==> (IsCurrent(t, e.clients) <==> IsNodeOfDeadline(e, t))
  {
    Unseal(rules, e);
    forall fd, kind | fd in e.clients
      ensures OneNodeIfArmed(e, fd, kind)
    {
      assert ArmedOk(fd, e.clients[fd], e.journal[fd], e.heap);
    }
    forall t | t in e.heap && IsCurrent(t, e.clients)
      ensures IsNodeOfDeadline(e, t)
    {
      assert HeapNodeOk(t, e.clients, e.journal, e.nextId);
    }
  }

  // ---------------------------------------------------------------- scheduling and accounting

  // A descriptor is in the ready queue exactly when it is a live connection flagged for it, once.
  lemma ReadyQueueAgrees(rules: HttpRules, e: Engine, fd: Fd)
    requires Valid(rules, e)
    ensures fd in e.ready <==> fd in e.clients && e.clients[fd].inReadyQueue
    ensures multiset(e.ready)[fd] <= 1
  {
    Unseal(rules, e);
    assert multiset(e.ready)[fd] == if fd in e.clients && e.clients[fd].inReadyQueue then 1 else 0;
  }

  // The poller watches exactly the live connections: always for input, for output exactly while
  // some is queued.
  lemma PollMaskAgrees(rules: HttpRules, e: Engine)
    requires Valid(rules, e)
    ensures e.interest.Keys == e.clients.Keys == e.sockets.Keys
    ensures forall fd :: fd in e.clients ==> e.interest[fd] == PollMask(true, e.clients[fd].outputBuffer != "", true)
  {
    UnsealValid(rules, e);
    forall fd | fd in e.clients ensures fd in e.interest && e.interest[fd] == MaskFor(e.clients[fd]) {
      ConnectionOf(rules, e, fd);
    }
    assert forall fd :: fd in e.interest <==> fd in e.clients;
  }

  // The global byte count is the sum over all buffers, within its bound, and so are the shares.
  lemma BytesAreConserved(rules: HttpRules, e: Engine)
    requires Valid(rules, e)
    ensures e.inflight == Buffered(e.clients) == e.metrics.inflightCurrent && e.inflight <= 536870912
    ensures forall fd :: fd in e.clients ==> e.clients[fd].BufferedBytes() <= e.inflight
  {
    Unseal(rules, e);
    forall fd | fd in e.clients ensures e.clients[fd].BufferedBytes() <= e.inflight {
      CloseNeverUnderflows(rules, e, fd);
    }
  }

  // The ledgers balance: every accepted connection is refused, live or closed, every completed
  // request was completed on a live connection or on a closed one, and every other counter is the
  // number of closings it stands for.
  lemma LedgersBalance(rules: HttpRules, e: Engine)
    requires Valid(rules, e)
    ensures var m, reasons := e.metrics, Reasons(e.closeLog);
            && m.requestsTotal == CompletedLive(e.journal) + CompletedClosed(e.closeLog)
            && m.acceptTotal == m.reject429 + |e.clients| + |e.closeLog|
            && e.active == m.connsCurrent == |e.clients| <= 200000
            && m.rejectTotal == m.reject411 + m.reject413 + m.reject429 + m.reject431 + m.reject501 + m.reject503
                                + m.connRejectTotal + reasons[ErrorPage(400)]
            && m.errorsTotal == m.rejectTotal + m.timeoutCloseTotal + reasons[ReadFailed] + reasons[WriteFailed]
            && m.timeoutCloseTotal == reasons[TimedOut(HeaderTimer)] + reasons[TimedOut(BodyTimer)] + reasons[TimedOut(IdleTimer)]
            && m.reject411 == reasons[ErrorPage(411)] && m.reject413 == reasons[ErrorPage(413)]
            && m.reject431 == reasons[ErrorPage(431)] && m.reject501 == reasons[ErrorPage(501)]
            && m.reject503 == reasons[ErrorPage(503)] && m.connRejectTotal == reasons[ConnectionLimit]
  {
    UnsealValid(rules, e);
    CountsOf(e);
  }

  // The rate bound, said of the connections of a running server. Admission number k on the
  // limiter's record is connection number k; in any window in which no bucket of an address is
  // evicted, at most 200 connections come from it, and 50 more for each second of the window.
  lemma ConnectionsAreRateBound(server: Servers.Server, ip: string, from: nat, until: nat, start: int, end: int)
    requires server.Running() && from <= until <= |server.limiter.events| && start <= end
    requires forall k :: from <= k < until ==> RateLimiter.InWindow(server.limiter.events[k], ip, start, end)
    ensures var events := server.limiter.events;
            var log := RateLimiter.AdmittedLog(events);
            var before, after := RateLimiter.AdmittedLog(events[..from]), RateLimiter.AdmittedLog(events[..until]);
            && |log| == server.nextConnectionId - 1 && server.metrics.reject429 == RateLimiter.Refusals(events)
            && before <= after <= log
            && RateLimiter.CountFrom(after[|before|..], ip) as real <= 200.0 + 50.0 * RateLimiter.Seconds(end - start)
    ensures RateLimiter.CameFrom(RateLimiter.Arrivals(server.limiter.events), server.kernel.listener.accepted)
    ensures RateLimiter.PeersAdmitted(server.limiter.events, server.kernel.listener.accepted, ip, from, until) as real
            <= 200.0 + 50.0 * RateLimiter.Seconds(end - start)
  {
    var events := server.limiter.events;
    assert server.Consulted(0);
    RateLimiter.PeersShareABucket(events, server.kernel.listener.accepted, ip, from, until);
    RateLimiter.RateBound(events, server.limiter.horizon, ip, from, until, start, end);
    RateLimiter.AdmissionBound(events, server.limiter.horizon, ip, from, until, start, end);
    RateLimiter.AdmittedBetween(events, ip, until, |events|);
    assert events[..|events|] == events;
  }

  // Ids are never reused, and no connection is closed twice or closed and live.
  lemma ClosedOnceAndForAll(rules: HttpRules, e: Engine, i: nat)
    requires Valid(rules, e) && i < |e.closeLog|
    ensures 1 <= e.closeLog[i].connectionId < e.nextId
    ensures forall j :: 0 <= j < |e.closeLog| && j != i ==> e.closeLog[j].connectionId != e.closeLog[i].connectionId
    ensures forall fd :: fd in e.clients ==> 1 <= e.clients[fd].connectionId < e.nextId && e.clients[fd].connectionId != e.closeLog[i].connectionId
  {
    Unseal(rules, e);
    forall j | 0 <= j < |e.closeLog| && j != i ensures e.closeLog[j].connectionId != e.closeLog[i].connectionId {
      if j < i {
        assert e.closeLog[j].connectionId != e.closeLog[i].connectionId;
      }
    }
  }

  lemma LiveIdsDiffer(rules: HttpRules, e: Engine, fd: Fd, other: Fd)
    requires Valid(rules, e) && fd in e.clients && other in e.clients && fd != other
    ensures e.clients[fd].connectionId != e.clients[other].connectionId
  {
    Unseal(rules, e);
    assert e.fate[e.clients[fd].connectionId] == Some(fd) && e.fate[e.clients[other].connectionId] == Some(other);
  }

  // A closed connection stays closed: whatever runs later, its record stays where it is and no
  // live connection has its id.
  lemma ClosedStaysClosed(rules: HttpRules, a: Engine, b: Engine, i: nat)
    requires Valid(rules, a) && Valid(rules, b) && Ran(a, b) && i < |a.closeLog|
    ensures i < |b.closeLog| && b.closeLog[i] == a.closeLog[i]
    ensures forall fd :: fd in b.clients ==> b.clients[fd].connectionId != a.closeLog[i].connectionId
  {
    RunOf(a, b);
    ClosedOnceAndForAll(rules, b, i);
  }

  // What has been read, written and completed stays so for as long as the connection lives.
  lemma HistoryOnlyGrows(rules: HttpRules, a: Engine, b: Engine, fd: Fd)
    requires Valid(rules, a) && Ran(a, b)
    requires fd in a.clients && fd in b.clients && b.clients[fd].connectionId == a.clients[fd].connectionId
    ensures fd in a.sockets && fd in b.sockets && fd in a.journal && fd in b.journal
    ensures a.sockets[fd].received <= b.sockets[fd].received && a.sockets[fd].sent <= b.sockets[fd].sent
    ensures a.journal[fd].requests <= b.journal[fd].requests
  {
    StillTheSame(rules, a, b, fd);
  }
}
