// Runs from start-up on concrete streams. Where the source promises more than it keeps, they lead
// through the handlers to a connection that has not got what it was promised.
module Witnesses {
  import opened Text
  import opened DynamicBuffers
  import opened HttpParser
  import opened Framing
  import opened Connections
  import opened Engines
  import opened Upkeep
  import opened Serving
  import opened Exchanges
  import opened Lifecycles
  import opened Servers
  import Decimal
  import HeaderMeaning
  import ResponseReader

  // ---------------------------------------------------------------- the streams

  function Header(lines: seq<string>): string
    requires lines != []
  {
    ResponseReader.Join(lines) + CRLFCRLF
  }

  const POST_LINE: string := "POST / HTTP/1.1"

  const GET_LINE: string := "GET / HTTP/1.1"

  const CLOSE_LINE: string := "Connection" + ": " + "close"

  function LengthLine(length: nat): string {
    "Content-Length" + ": " + Decimal.Digits(length)
  }

  const GET_REQUEST := HttpRequest(Get, "/", "HTTP/1.1", map[], None, false)

  const GET_CLOSE_REQUEST := GET_REQUEST.(headers := map["connection" := "close"])

  function PostRequest(length: nat): HttpRequest {
    HttpRequest(Post, "/", "HTTP/1.1", map["content-length" := Decimal.Digits(length)], Some(length), false)
  }

  // ---------------------------------------------------------------- parsing them

  ghost predicate ArePlain(lines: seq<string>) {
    lines != [] && forall l :: l in lines ==> ResponseReader.IsPlainLine(l)
  }

  // In front of anything, the header is complete and accepted as this request.
  ghost predicate IsAdmitted(header: string, rest: string, request: HttpRequest) {
    var stream := header + rest;
    && HasCompleteHeader(stream) && FirstHeader(stream) == header && AfterFirstHeader(stream) == rest
    && Admit(Parse(header)) == Accepted(request)
  }

  // A printed header is found whole in front of whatever follows and parsed line by line.
  lemma HeaderIsRead(lines: seq<string>, rest: string)
    requires ArePlain(lines)
    ensures var stream := Header(lines) + rest;
            && HasCompleteHeader(stream) && FirstHeader(stream) == Header(lines) && AfterFirstHeader(stream) == rest
            && Parse(Header(lines)) == Reference(lines)
  {
    var header, stream := Header(lines), Header(lines) + rest;
    ResponseReader.BlankLineAfterJoin(lines, rest);
    FirstHeaderIsWhole(stream);
    assert stream[..|header|] == header && stream[|header|..] == rest;
    assert header[..|header| - 4] == ResponseReader.Join(lines);
    ParserFoldsEveryLine(header);
    ResponseReader.LinesOfJoin(lines);
  }

  // "Key: value" with neither in need of trimming.
  lemma FieldIsRead(key: string, value: string, request: HttpRequest)
    requires key != "" && ':' !in key && !IsSpace(key[0]) && !IsSpace(key[|key| - 1])
    requires value != "" && !IsSpace(value[0]) && !IsSpace(value[|value| - 1])
    ensures HeaderLine(key + ": " + value, request) == HeaderField(Lower(key), value, request)
  {
    var line := key + ": " + value;
    assert line == key + ":" + (" " + value);
    FindAfter(key, ":", " " + value);
    assert line[..|key|] == key && line[|key| + 1..] == " " + value;
    assert (" " + value)[1..] == value;
    TrimmedKeeps(key);
    TrimmedKeeps(value);
  }

  // A request line and one header line.
  lemma TwoLinesAreRead(first: string, second: string)
    requires RequestLine(first, EMPTY_REQUEST).error == NoError
    ensures Reference([first, second]) == Verdict(HeaderLine(second, RequestLine(first, EMPTY_REQUEST).request))
  {
    var lines, start := [first, second], RequestLine(first, EMPTY_REQUEST).request;
    var r := HeaderLine(second, start);
    assert lines[1..] == [second] && [second][1..] == [];
    assert FoldLines(HeaderLine, [], r.request) == ParseResult(NoError, r.request);
  }

  lemma PostLineIsRead()
    ensures RequestLine(POST_LINE, EMPTY_REQUEST)
         == ParseResult(NoError, EMPTY_REQUEST.(verb := Post, uri := "/", version := "HTTP/1.1"))
  {
    assert POST_LINE == "POST" + " " + "/" + " " + "HTTP/1.1";
    HeaderMeaning.RequestLineIsRead(POST_LINE, "POST", "/", "HTTP/1.1", EMPTY_REQUEST);
  }

  lemma GetLineIsRead()
    ensures RequestLine(GET_LINE, EMPTY_REQUEST)
         == ParseResult(NoError, EMPTY_REQUEST.(verb := Get, uri := "/", version := "HTTP/1.1"))
  {
    assert GET_LINE == "GET" + " " + "/" + " " + "HTTP/1.1";
    HeaderMeaning.RequestLineIsRead(GET_LINE, "GET", "/", "HTTP/1.1", EMPTY_REQUEST);
  }

  // Field names, as they are looked up.
  lemma FieldNames()
    ensures Lower("Content-Length") == "content-length" && Lower("Connection") == "connection"
  {
  }

  // How the two fields that matter here change a request.
  lemma LengthIsTaken(key: string, length: nat, request: HttpRequest)
    requires key == "content-length" && length < UINT64_RANGE
    ensures HeaderField(key, Decimal.Digits(length), request) == ParseResult(NoError,
              request.(headers := request.headers[key := Decimal.Digits(length)], contentLength := Some(length)))
  {
    ContentLengthReadsBack(length);
  }

  lemma OtherFieldIsTaken(key: string, value: string, request: HttpRequest)
    requires |key| < 14
    ensures HeaderField(key, value, request) == ParseResult(NoError, request.(headers := request.headers[key := value]))
  {
  }

  lemma LengthLineIsRead(length: nat, request: HttpRequest)
    requires length < UINT64_RANGE
    ensures HeaderLine(LengthLine(length), request) == ParseResult(NoError,
              request.(headers := request.headers["content-length" := Decimal.Digits(length)], contentLength := Some(length)))
  {
    FieldNames();
    FieldIsRead("Content-Length", Decimal.Digits(length), request);
    LengthIsTaken(Lower("Content-Length"), length, request);
  }

  lemma CloseLineIsRead(request: HttpRequest)
    ensures HeaderLine(CLOSE_LINE, request) == ParseResult(NoError, request.(headers := request.headers["connection" := "close"]))
  {
    FieldNames();
    FieldIsRead("Connection", "close", request);
    OtherFieldIsTaken(Lower("Connection"), "close", request);
  }

  lemma LinesArePlain(length: nat)
    ensures ResponseReader.IsPlainLine(POST_LINE) && ResponseReader.IsPlainLine(GET_LINE)
    ensures ResponseReader.IsPlainLine(LengthLine(length)) && ResponseReader.IsPlainLine(CLOSE_LINE)
  {
    ResponseReader.PrintIsPlain(length);
  }

  // ---------------------------------------------------------------- the three requests

  function PostHeader(length: nat): string {
    Header([POST_LINE, LengthLine(length)])
  }

  function GetHeader(): string {
    Header([GET_LINE])
  }

  function GetCloseHeader(): string {
    Header([GET_LINE, CLOSE_LINE])
  }

  lemma PostIsAdmitted(length: nat, rest: string)
    requires length <= MAX_BODY_BYTES
    ensures IsAdmitted(PostHeader(length), rest, PostRequest(length))
  {
    LinesArePlain(length);
    HeaderIsRead([POST_LINE, LengthLine(length)], rest);
    PostLineIsRead();
    TwoLinesAreRead(POST_LINE, LengthLine(length));
    LengthLineIsRead(length, RequestLine(POST_LINE, EMPTY_REQUEST).request);
  }

  lemma GetIsAdmitted(rest: string)
    ensures IsAdmitted(GetHeader(), rest, GET_REQUEST)
  {
    LinesArePlain(0);
    HeaderIsRead([GET_LINE], rest);
    GetLineIsRead();
    assert [GET_LINE][1..] == [];
    assert FoldLines(HeaderLine, [], GET_REQUEST) == ParseResult(NoError, GET_REQUEST);
  }

  lemma GetCloseIsAdmitted(rest: string)
    ensures IsAdmitted(GetCloseHeader(), rest, GET_CLOSE_REQUEST)
  {
    LinesArePlain(0);
    HeaderIsRead([GET_LINE, CLOSE_LINE], rest);
    GetLineIsRead();
    TwoLinesAreRead(GET_LINE, CLOSE_LINE);
    CloseLineIsRead(RequestLine(GET_LINE, EMPTY_REQUEST).request);
  }

  // ---------------------------------------------------------------- framing the streams

  const PARSE: HeaderParser := HTTP_RULES.parse

  lemma SplitOfNothing()
    ensures Split(PARSE, AtHeader, "") == Frames([], NeedHeader(""))
  {
    NoHeaderInNothing();
  }

  // Only nothing is left when no request and no byte is missing.
  lemma SplitsToNothing(text: string)
    requires Split(PARSE, AtHeader, text) == Frames([], NeedHeader(""))
    ensures text == ""
  {
  }

  // A POST of which part of the body has come.
  lemma SplitOfPost(length: nat, part: string)
    requires |part| < length <= MAX_BODY_BYTES
    ensures Split(PARSE, AtHeader, PostHeader(length) + part) == Frames([], NeedBody(PostRequest(length), length - |part|))
  {
    var request := PostRequest(length);
    PostIsAdmitted(length, part);
    assert BodyLength(request) == length;
    SplitsToBody(PostHeader(length), part, request);
  }

  lemma SplitsToBody(header: string, part: string, request: HttpRequest)
    requires IsAdmitted(header, part, request) && |part| < BodyLength(request)
    ensures Split(PARSE, AtHeader, header + part) == Frames([], NeedBody(request, BodyLength(request) - |part|))
  {
  }

  // A POST with its body, and whatever comes behind it.
  lemma SplitOfBody(body: string, rest: string)
    requires 0 < |body| <= MAX_BODY_BYTES
    ensures Split(PARSE, AtHeader, PostHeader(|body|) + (body + rest))
         == Prepend([PostRequest(|body|)], Split(PARSE, AtHeader, rest))
  {
    PostIsAdmitted(|body|, body + rest);
    assert (body + rest)[|body|..] == rest;
  }

  lemma SplitOfGet(rest: string)
    ensures Split(PARSE, AtHeader, GetHeader() + rest) == Prepend([GET_REQUEST], Split(PARSE, AtHeader, rest))
  {
    GetIsAdmitted(rest);
  }

  lemma SplitOfGetClose()
    ensures Split(PARSE, AtHeader, GetCloseHeader()) == Frames([GET_CLOSE_REQUEST], NeedHeader(""))
  {
    GetCloseIsAdmitted("");
    assert GetCloseHeader() + "" == GetCloseHeader();
    SplitOfNothing();
    assert [GET_CLOSE_REQUEST] + [] == [GET_CLOSE_REQUEST];
  }

  // ---------------------------------------------------------------- reading a connection's state off its stream

  ghost predicate Read(e: Engine, fd: Fd, frames: Frames) {
    Good(HTTP_RULES, e, fd) && Split(PARSE, AtHeader, e.sockets[fd].received) == frames
  }

  lemma FramesAre(e: Engine, fd: Fd, frames: Frames)
    requires Read(e, fd, frames)
    ensures var c, requests := e.clients[fd], e.journal[fd].requests;
            frames == Prepend(requests, Split(PARSE, c.InputCursor(), c.inputBuffer)) && requests <= frames.requests
  {
    SplitOf(PARSE, e.sockets[fd].received, e.journal[fd].requests, e.clients[fd].InputCursor(), e.clients[fd].inputBuffer);
  }

  // The stream ends inside a body and no header is left over: that body is being received.
  lemma IsReceiving(e: Engine, fd: Fd, done: seq<HttpRequest>, request: HttpRequest, missing: nat)
    requires Read(e, fd, Frames(done, NeedBody(request, missing)))
    requires !HasCompleteHeader(e.clients[fd].inputBuffer)
    ensures var c := e.clients[fd];
            && c.waitingForRequestBody && c.inputBuffer == ""
            && c.pendingRequest == request && c.pendingBodyBytesRemaining == missing && e.journal[fd].requests == done
  {
    FramesAre(e, fd, Frames(done, NeedBody(request, missing)));
    var c, requests := e.clients[fd], e.journal[fd].requests;
    assert Split(PARSE, AtHeader, c.inputBuffer) == Frames([], NeedHeader(c.inputBuffer));
    assert requests + [] == requests;
  }

  // The stream ends with a request and all of them are on record: nothing is being received.
  lemma IsThrough(e: Engine, fd: Fd, done: seq<HttpRequest>)
    requires Read(e, fd, Frames(done, NeedHeader(""))) && |e.journal[fd].requests| >= |done|
    ensures e.journal[fd].requests == done && !e.clients[fd].waitingForRequestBody && e.clients[fd].inputBuffer == ""
  {
    FramesAre(e, fd, Frames(done, NeedHeader("")));
    var c, requests := e.clients[fd], e.journal[fd].requests;
    var left := Split(PARSE, c.InputCursor(), c.inputBuffer);
    assert |requests + left.requests| == |requests| + |left.requests|;
    assert left.requests == [];
    if !c.waitingForRequestBody {
      SplitsToNothing(c.inputBuffer);
    }
  }

  // Nothing has been answered yet, so nothing has been sent.
  lemma SilentSoFar(e: Engine, fd: Fd)
    requires Good(HTTP_RULES, e, fd) && e.journal[fd].requests == []
    ensures e.clients[fd].outputBuffer == "" && !e.clients[fd].closeAfterWrite
  {
    StreamOf(HTTP_RULES, [], e.sockets[fd].sent, e.clients[fd].outputBuffer, e.clients[fd].closeAfterWrite, e.clients[fd].keepAliveEnabled);
  }

  // ---------------------------------------------------------------- events, one at a time

  // What the server has accepted and not yet looked at.
  ghost predicate IsFresh(server: Server, fd: Fd)
    reads server, server.kernel, server.kernel.listener, server.limiter, server.log
  {
    && server.Running() && server.rules == HTTP_RULES && server.readyQueue == []
    && fd in server.clients && fd in server.journal && fd in server.kernel.sockets
    && !server.clients[fd].inReadyQueue && !server.clients[fd].readyForRead && !server.clients[fd].idleTimeout.armed
    && !server.clients[fd].waitingForRequestBody && server.clients[fd].inputBuffer == ""
    && server.journal[fd].requests == [] && server.kernel.sockets[fd].received == ""
  }

  // A server starts up and accepts a connection. False: nobody came, or the limiter said no.
  method StartUp(listenFd: Fd) returns (server: Server, fd: Fd, ok: bool)
    ensures fresh(server) && fresh(server.kernel) && fresh(server.kernel.inputs) && fresh(server.limiter) && fresh(server.log) && fresh(server.trace)
    ensures ok ==> IsFresh(server, fd)
  {
    server := new Server(listenFd);
    fd, ok := listenFd, false;
    var accepted := server.AcceptOne();
    if accepted.Some? {
      fd := accepted.value.fd;
      ghost var admitted, run := server.RegisterAcceptedConnection(accepted.value);
      ok := fd in server.clients && server.readyQueue == [];
    }
  }

  lemma SameEnd(start: string, a: string, b: string)
    requires start + a == start + b
    ensures a == b
  {
    assert (start + a)[|start|..] == a && (start + b)[|start|..] == b;
  }

  // Reads on. True: there was nothing more.
  method ReadOn(server: Server, fd: Fd, budget: EventBudget) returns (quiet: bool)
    requires server.Ok() && fd in server.clients && Good(server.rules, server.View(), fd)
    modifies server, server.kernel, server.kernel.inputs, budget
    ensures server.Ok() && server.kernel.clock >= old(server.kernel.clock)
    ensures Served(old(server.View()), server.View(), fd) && (fd in server.clients ==> Good(server.rules, server.View(), fd))
    ensures quiet ==> fd in server.clients && server.View() == old(server.View())
  {
    var left := budget.readRemaining > 0;
    var before := server.kernel.sockets[fd].received;
    server.ReadFromClient(fd, budget);
    quiet := left && fd in server.clients && server.kernel.sockets[fd].received == before;
  }

  // The poller reports fd readable. True: the first read has brought data, and the one after it
  // would have blocked.
  method Receive(server: Server, fd: Fd, data: string) returns (got: bool)
    requires server.Running() && fd in server.clients && !server.clients[fd].idleTimeout.armed
    requires 0 < |data| <= READ_CHUNK_SIZE
    modifies server, server.kernel, server.kernel.inputs
    ensures server.Running() && server.kernel.clock >= old(server.kernel.clock)
    ensures Served(old(server.View()), server.View(), fd)
    ensures got ==>
      && Good(server.rules, server.View(), fd) && fd in old(server.kernel.sockets)
      && server.kernel.sockets[fd].received == old(server.kernel.sockets)[fd].received + data
      && FedAsDue(old(server.View()), server.View(), fd, data)
  {
    ghost var e0 := server.View();
    GoodNow(server.rules, e0, fd);
    var before := server.kernel.sockets[fd].received;
    var budget := new EventBudget();
    var more, chunk := server.ReadOnce(fd, READ_CHUNK_SIZE, budget);
    got := fd in server.clients && server.kernel.sockets[fd].received == before + data;
    ghost var e1 := server.View();
    if got {
      SameEnd(before, chunk, data);
    }
    if more {
      var quiet := ReadOn(server, fd, budget);
      ServedTrans(e0, e1, server.View(), fd);
      got := got && quiet;
    }
    ValidAfterServing(server.rules, e0, server.View(), fd);
  }

  // ---------------------------------------------------------------- a request that is lost

  lemma TwoLinesJoined(first: string, second: string)
    ensures ResponseReader.Join([first, second]) == first + CRLF + second
  {
    assert [first, second][1..] == [second];
  }

  lemma PostHeaderIs()
    ensures PostHeader(1) == "POST / HTTP/1.1\r\nContent-Length: 1\r\n\r\n"
  {
    assert LengthLine(1) == "Content-Length: 1" by {
      assert Decimal.Digits(1) == "1";
    }
    TwoLinesJoined(POST_LINE, "Content-Length: 1");
  }

  lemma GetHeaderIs()
    ensures GetHeader() == "GET / HTTP/1.1\r\n\r\n"
  {
  }

  const PIPELINED: string := "POST / HTTP/1.1\r\nContent-Length: 1\r\n\r\nXGET / HTTP/1.1\r\n\r\n"

  lemma PipelinedIs()
    ensures PIPELINED == PostHeader(1) + ("X" + GetHeader())
  {
    PostHeaderIs();
    GetHeaderIs();
  }

  // Nothing has been asked of a connection yet.
  ghost predicate NothingAsked(e: Engine, fd: Fd) {
    && fd in e.clients && fd in e.journal && fd in e.sockets
    && !e.clients[fd].waitingForRequestBody && e.clients[fd].inputBuffer == ""
    && e.journal[fd].requests == [] && e.sockets[fd].received == ""
  }

  // Its body is being received, and nothing else is going on.
  ghost predicate JustReceiving(e: Engine, fd: Fd, length: nat, missing: nat) {
    && fd in e.clients && fd in e.journal
    && (var c := e.clients[fd];
        && c.waitingForRequestBody && c.inputBuffer == "" && c.outputBuffer == ""
        && c.pendingRequest == PostRequest(length) && c.pendingBodyBytesRemaining == missing)
    && e.journal[fd].requests == []
  }

  lemma PostHasBegun(a: Engine, b: Engine, fd: Fd, length: nat)
    requires NothingAsked(a, fd) && FedAsDue(a, b, fd, PostHeader(length)) && 0 < length <= MAX_BODY_BYTES
    requires Good(HTTP_RULES, b, fd) && b.sockets[fd].received == PostHeader(length)
    ensures JustReceiving(b, fd, length, length) && b.journal[fd].deadlines.Keys == {BodyTimer}
    ensures SameFlags(a.clients[fd], b.clients[fd])
  {
    assert PostHeader(length) + "" == PostHeader(length);
    SplitOfPost(length, "");
    var frames := Frames([], NeedBody(PostRequest(length), length));
    FramesAre(b, fd, frames);
    IsReceiving(b, fd, [], PostRequest(length), length);
    NoHeaderInNothing();
    SilentSoFar(b, fd);
  }

  lemma NotIdle(rules: HttpRules, e: Engine, fd: Fd)
    requires Valid(rules, e) && fd in e.clients && fd in e.journal && IdleTimer !in e.journal[fd].deadlines
    ensures !e.clients[fd].idleTimeout.armed
  {
    Unseal(rules, e);
    assert ArmedOk(fd, e.clients[fd], e.journal[fd], e.heap);
    assert e.clients[fd].TimerOf(IdleTimer) == e.clients[fd].idleTimeout;
  }

  lemma GetIsBehindBody(e: Engine, fd: Fd)
    requires JustReceiving(e, fd, 1, 1)
    ensures HeaderBehindBody(e.clients[fd], "X" + GetHeader())
  {
    GetIsAdmitted("");
    assert "" + ("X" + GetHeader()) == "X" + GetHeader() && ("X" + GetHeader())[1..] == GetHeader() == GetHeader() + "";
  }

  // Parse work is lost: the POST is answered, the GET right behind its one body byte is complete
  // and in the buffer, and once the response is out the connection is neither queued nor on any
  // clock. All it takes is that the body byte and the GET arrive together.
  method LoseRequest(server: Server, fd: Fd) returns (got: bool)
    requires IsFresh(server, fd)
    modifies server, server.kernel, server.kernel.inputs
    ensures server.Running()
    ensures got ==>
      && fd in server.clients && fd in server.journal && fd in server.kernel.sockets
      && server.kernel.sockets[fd].received == PIPELINED && |server.journal[fd].requests| == 1
      && (server.clients[fd].outputBuffer == "" ==> Stalled(server.clients[fd]) && Unwatched(server.clients[fd]))
  {
    ghost var e0 := server.View();
    PostHeaderIs();
    GetHeaderIs();
    PipelinedIs();
    got := Receive(server, fd, PostHeader(1));
    if got {
      ghost var e1 := server.View();
      PostHasBegun(e0, e1, fd, 1);
      NotIdle(HTTP_RULES, e1, fd);
      GetIsBehindBody(e1, fd);
      got := Receive(server, fd, "X" + GetHeader());
    }
  }

  // ---------------------------------------------------------------- a connection that is forgotten

  // The poller reports fd readable, and it is read until the budget is used up or it would block.
  method ReadAll(server: Server, fd: Fd)
    requires server.Running() && fd in server.clients
    modifies server, server.kernel, server.kernel.inputs
    ensures server.Running() && server.kernel.clock >= old(server.kernel.clock)
    ensures Served(old(server.View()), server.View(), fd)
    ensures fd in server.clients ==> Good(server.rules, server.View(), fd)
    ensures fd in server.clients && server.clients[fd].waitingForRequestBody ==>
      && fd in old(server.kernel.sockets) && fd in old(server.journal)
      && (|server.kernel.sockets[fd].received| == |old(server.kernel.sockets)[fd].received| + MAX_READ_BYTES_PER_EVENT ==>
            server.clients[fd].readyForRead && server.clients[fd].inReadyQueue)
      && (SameBody(old(server.View()), server.View(), fd) ==>
            if !old(server.clients)[fd].idleTimeout.armed then server.journal[fd].deadlines == old(server.journal)[fd].deadlines
            else OnHeaderClockSince(old(server.journal)[fd].deadlines, server.journal[fd].deadlines,
                                    old(server.kernel.clock), server.kernel.clock))
  {
    ghost var e0 := server.View();
    GoodNow(server.rules, e0, fd);
    var budget := new EventBudget();
    server.HandleReadable(fd, budget);
    ValidAfterServing(server.rules, e0, server.View(), fd);
  }

  // Nobody but fd can have joined an empty queue.
  lemma OnlyOneQueued(rules: HttpRules, a: Engine, b: Engine, fd: Fd)
    requires Valid(rules, b) && Served(a, b, fd) && a.ready == [] && fd in b.clients
    ensures b.ready == if b.clients[fd].inReadyQueue then [fd] else []
  {
    UnsealStep(a, b, fd);
    Unseal(rules, b);
    assert multiset(b.ready)[fd] == if b.clients[fd].inReadyQueue then 1 else 0;
  }

  // A whole event's worth of the body has come, and there is more.
  lemma StillReceiving(a: Engine, b: Engine, fd: Fd, first: string, missing: nat)
    requires JustReceiving(a, fd, |first| + missing, |first| + missing) && 0 < missing && |first| + missing <= MAX_BODY_BYTES
    requires Served(a, b, fd) && Good(HTTP_RULES, b, fd) && b.sockets[fd].received == PostHeader(|first| + missing) + first
    ensures JustReceiving(b, fd, |first| + missing, missing) && SameBody(a, b, fd)
  {
    SplitOfPost(|first| + missing, first);
    var frames := Frames([], NeedBody(PostRequest(|first| + missing), missing));
    FramesAre(b, fd, frames);
    UnsealStep(a, b, fd);
    NoHeaderInNothing();
    IsReceiving(b, fd, [], PostRequest(|first| + missing), missing);
    SilentSoFar(b, fd);
  }

  // The rest of the body has come.
  lemma PostIsDone(a: Engine, b: Engine, fd: Fd, body: string, last: string)
    requires JustReceiving(a, fd, |body|, |last|) && 0 < |body| <= MAX_BODY_BYTES && FedAsDue(a, b, fd, last)
    requires Good(HTTP_RULES, b, fd) && b.sockets[fd].received == PostHeader(|body|) + body
    ensures b.journal[fd].requests == [PostRequest(|body|)]
    ensures var c := b.clients[fd];
            && !c.waitingForRequestBody && c.inputBuffer == "" && SameFlags(a.clients[fd], c)
            && (c.outputBuffer == "" && !c.inReadyQueue ==> Unwatched(c))
  {
    assert body + "" == body;
    SplitOfBody(body, "");
    SplitOfNothing();
    assert [PostRequest(|body|)] + [] == [PostRequest(|body|)];
    assert "" + last == last;
    IsThrough(b, fd, [PostRequest(|body|)]);
    NoHeaderInNothing();
  }

  // ... and a request behind it that asks for the connection to be closed.
  lemma GetCloseIsDone(a: Engine, b: Engine, fd: Fd, body: string)
    requires fd in a.clients && fd in a.journal && a.clients[fd].inputBuffer == "" && !a.clients[fd].waitingForRequestBody
    requires |a.journal[fd].requests| == 1 && 0 < |body| <= MAX_BODY_BYTES && FedAsDue(a, b, fd, GetCloseHeader())
    requires Good(HTTP_RULES, b, fd) && b.sockets[fd].received == PostHeader(|body|) + (body + GetCloseHeader())
    ensures b.journal[fd].requests == [PostRequest(|body|), GET_CLOSE_REQUEST]
    ensures var c := b.clients[fd];
            && c.inputBuffer == "" && SameFlags(a.clients[fd], c) && c.closeAfterWrite
            && (c.outputBuffer == "" && !c.inReadyQueue && c.readyForRead ==> Unwatched(c))
  {
    var done := [PostRequest(|body|), GET_CLOSE_REQUEST];
    SplitOfGetClose();
    SplitOfBodyThen(body, GetCloseHeader(), GET_CLOSE_REQUEST);
    GetCloseIsAdmitted("");
    assert GetCloseHeader() + "" == GetCloseHeader() == "" + GetCloseHeader();
    FramesAre(b, fd, Frames(done, NeedHeader("")));
    assert Advanced(a, b, fd);
    IsThrough(b, fd, done);
    NoHeaderInNothing();
    IsToBeClosed(b, fd, |body|);
  }

  lemma IsToBeClosed(e: Engine, fd: Fd, length: nat)
    requires Good(HTTP_RULES, e, fd) && e.journal[fd].requests == [PostRequest(length), GET_CLOSE_REQUEST]
    ensures e.clients[fd].closeAfterWrite
  {
    var c := e.clients[fd];
    GetCloseCloses(length);
    StreamOf(HTTP_RULES, e.journal[fd].requests, e.sockets[fd].sent, c.outputBuffer, c.closeAfterWrite, c.keepAliveEnabled);
  }

  lemma SplitOfBodyThen(body: string, rest: string, request: HttpRequest)
    requires 0 < |body| <= MAX_BODY_BYTES && Split(PARSE, AtHeader, rest) == Frames([request], NeedHeader(""))
    ensures Split(PARSE, AtHeader, PostHeader(|body|) + (body + rest))
         == Frames([PostRequest(|body|), request], NeedHeader(""))
  {
    SplitOfBody(body, rest);
    assert [PostRequest(|body|)] + [request] == [PostRequest(|body|), request];
  }

  lemma GetCloseCloses(length: nat)
    ensures !AllKeepAlive(HTTP_RULES, [PostRequest(length), GET_CLOSE_REQUEST])
  {
    assert Lower("close") == "close";
    assert OccursAt("close", "close", 0);
    assert ContainsToken("close", "close");
  }

  function TenTo(k: nat): nat {
    if k == 0 then 1 else 10 * TenTo(k - 1)
  }

  lemma {:induction false} FewDigits(n: nat, k: nat)
    requires k > 0 && n < TenTo(k)
    ensures |Decimal.Digits(n)| <= k
  {
    if n >= 10 {
      assert k > 1 by {
        assert TenTo(1) == 10 * TenTo(0);
      }
      FewDigits(n / 10, k - 1);
    }
  }

  lemma HeadersAreShort(length: nat)
    requires length <= MAX_BODY_BYTES
    ensures 0 < |PostHeader(length)| <= READ_CHUNK_SIZE && 0 < |GetCloseHeader()| <= READ_CHUNK_SIZE
    ensures 0 < |GetHeader()| && |GetHeader() + PostHeader(length)| <= READ_CHUNK_SIZE
  {
    assert TenTo(4) == 10_000;
    assert TenTo(7) == 1000 * TenTo(4);
    FewDigits(length, 7);
    assert [POST_LINE, LengthLine(length)][1..] == [LengthLine(length)];
    assert |ResponseReader.Join([LengthLine(length)])| == 16 + |Decimal.Digits(length)|;
    assert [GET_LINE, CLOSE_LINE][1..] == [CLOSE_LINE];
    assert |ResponseReader.Join([CLOSE_LINE])| == |CLOSE_LINE|;
  }

  // A connection that has been answered in full and is to be closed is neither closed nor queued
  // nor on any clock. A read of its first body is postponed, is not resumed while the body is
  // pending, and keeps the connection from being closed once the last response is out.
  method ForgetFinished(server: Server, fd: Fd, first: string, last: string) returns (got: bool)
    requires IsFresh(server, fd) && |first| == MAX_READ_BYTES_PER_EVENT && 0 < |last| <= READ_CHUNK_SIZE
    modifies server, server.kernel, server.kernel.inputs, server.trace
    ensures server.Running()
    ensures got ==>
      && fd in server.clients && fd in server.journal && fd in server.kernel.sockets
      && server.kernel.sockets[fd].received == PostHeader(|first + last|) + (first + last + GetCloseHeader())
      && server.journal[fd].requests == [PostRequest(|first + last|), GET_CLOSE_REQUEST] && server.clients[fd].closeAfterWrite
      && (server.clients[fd].outputBuffer == "" ==> Unwatched(server.clients[fd]))
  {
    var length := |first + last|;
    HeadersAreShort(length);
    ghost var e0 := server.View();
    got := Receive(server, fd, PostHeader(length));
    if !got {
      return;
    }
    ghost var e1 := server.View();
    PostHasBegun(e0, e1, fd, length);
    NotIdle(HTTP_RULES, e1, fd);
    OnlyOneQueued(HTTP_RULES, e0, e1, fd);
    got := PostponeBody(server, fd, first, |last|);
    if !got {
      return;
    }
    got := FinishPostponed(server, fd, first, last);
  }

  // The budget of an event runs out inside the body; the turn in the ready queue that this earns
  // the connection leaves it as it is.
  method PostponeBody(server: Server, fd: Fd, first: string, missing: nat) returns (got: bool)
    requires server.Running() && server.rules == HTTP_RULES && server.readyQueue == []
    requires fd in server.clients && fd in server.journal && fd in server.kernel.sockets
    requires |first| == MAX_READ_BYTES_PER_EVENT && 0 < missing && |first| + missing <= MAX_BODY_BYTES
    requires JustReceiving(server.View(), fd, |first| + missing, |first| + missing) && server.journal[fd].deadlines.Keys == {BodyTimer}
    requires !server.clients[fd].idleTimeout.armed && server.kernel.sockets[fd].received == PostHeader(|first| + missing)
    modifies server, server.kernel, server.kernel.inputs, server.trace
    ensures server.Running()
    ensures got ==>
      && JustReceiving(server.View(), fd, |first| + missing, missing) && server.journal[fd].deadlines.Keys == {BodyTimer}
      && fd in server.kernel.sockets && server.kernel.sockets[fd].received == PostHeader(|first| + missing) + first
      && server.clients[fd].readyForRead && !server.clients[fd].inReadyQueue
  {
    ghost var e0 := server.View();
    ReadAll(server, fd);
    got := fd in server.clients && server.kernel.sockets[fd].received == PostHeader(|first| + missing) + first;
    if !got {
      return;
    }
    ghost var e1 := server.View();
    StillReceiving(e0, e1, fd, first, missing);
    OnlyOneQueued(HTTP_RULES, e0, e1, fd);
    ghost var front := server.ServeNextReady();
  }

  method FinishPostponed(server: Server, fd: Fd, first: string, last: string) returns (got: bool)
    requires server.Running() && server.rules == HTTP_RULES && 0 < |last| <= READ_CHUNK_SIZE && |first + last| <= MAX_BODY_BYTES
    requires JustReceiving(server.View(), fd, |first + last|, |last|) && server.journal[fd].deadlines.Keys == {BodyTimer}
    requires fd in server.kernel.sockets && server.kernel.sockets[fd].received == PostHeader(|first + last|) + first
    requires server.clients[fd].readyForRead && !server.clients[fd].inReadyQueue
    modifies server, server.kernel, server.kernel.inputs
    ensures server.Running()
    ensures got ==>
      && fd in server.clients && fd in server.journal && fd in server.kernel.sockets
      && server.kernel.sockets[fd].received == PostHeader(|first + last|) + (first + last + GetCloseHeader())
      && server.journal[fd].requests == [PostRequest(|first + last|), GET_CLOSE_REQUEST] && server.clients[fd].closeAfterWrite
      && (server.clients[fd].outputBuffer == "" ==> Unwatched(server.clients[fd]))
  {
    var header, body := PostHeader(|first + last|), first + last;
    ghost var e0 := server.View();
    NotIdle(HTTP_RULES, e0, fd);
    HeadersAreShort(|body|);
    got := Receive(server, fd, last);
    if !got {
      return;
    }
    assert header + first + last == header + body;
    ghost var e1 := server.View();
    PostIsDone(e0, e1, fd, body, last);
    if server.clients[fd].outputBuffer != "" {
      return false;
    }
    got := Receive(server, fd, GetCloseHeader());
    if got {
      assert header + body + GetCloseHeader() == header + (body + GetCloseHeader());
      GetCloseIsDone(e1, server.View(), fd, body);
    }
  }

  // ---------------------------------------------------------------- an upload that is cut short

  // The poller reports fd writable, and its output is flushed.
  method Flush(server: Server, fd: Fd)
    requires server.Running() && fd in server.clients
    modifies server, server.kernel
    ensures server.Running() && server.kernel.clock >= old(server.kernel.clock)
    ensures Served(old(server.View()), server.View(), fd)
    ensures fd in server.clients ==>
      && Good(server.rules, server.View(), fd) && Flushed(old(server.View()), server.View(), fd,
           |server.kernel.sockets[fd].sent| - |old(server.kernel.sockets)[fd].sent|)
      && (server.clients[fd].outputBuffer == "" ==>
            && Drained(server.View(), fd, server.kernel.clock)
            && server.journal[fd].deadlines == DrainedDeadlines(old(server.journal)[fd].deadlines, server.clients[fd], server.kernel.clock))
  {
    ghost var e0 := server.View();
    GoodNow(server.rules, e0, fd);
    var budget := new EventBudget();
    server.FlushClientOutput(fd, budget);
    ValidAfterServing(server.rules, e0, server.View(), fd);
  }

  // The GET is answered, the body of the POST behind it is being received.
  ghost predicate ReceivingSecond(e: Engine, fd: Fd, length: nat, missing: nat) {
    && fd in e.clients && fd in e.journal
    && (var c := e.clients[fd];
        && c.waitingForRequestBody && c.inputBuffer == "" && c.keepAliveEnabled && !c.closeAfterWrite
        && c.pendingRequest == PostRequest(length) && c.pendingBodyBytesTotal == length && c.pendingBodyBytesRemaining == missing)
    && e.journal[fd].requests == [GET_REQUEST]
  }

  lemma SplitOfGetThenPost(length: nat, part: string)
    requires |part| < length <= MAX_BODY_BYTES
    ensures Split(PARSE, AtHeader, GetHeader() + (PostHeader(length) + part))
         == Frames([GET_REQUEST], NeedBody(PostRequest(length), length - |part|))
  {
    SplitOfGet(PostHeader(length) + part);
    SplitOfPost(length, part);
    assert [GET_REQUEST] + [] == [GET_REQUEST];
  }

  lemma SecondIsBeingReceived(e: Engine, fd: Fd, length: nat, part: string)
    requires |part| < length <= MAX_BODY_BYTES && Good(HTTP_RULES, e, fd)
    requires e.sockets[fd].received == GetHeader() + (PostHeader(length) + part) && !HasCompleteHeader(e.clients[fd].inputBuffer)
    ensures ReceivingSecond(e, fd, length, length - |part|)
  {
    SplitOfGetThenPost(length, part);
    IsReceiving(e, fd, [GET_REQUEST], PostRequest(length), length - |part|);
    var c := e.clients[fd];
    assert BodyLength(PostRequest(length)) == length;
    assert [GET_REQUEST][..0] == [] && ShouldKeepAlive(GET_REQUEST);
    assert AllKeepAlive(HTTP_RULES, [GET_REQUEST]);
    StreamOf(HTTP_RULES, [GET_REQUEST], e.sockets[fd].sent, c.outputBuffer, c.closeAfterWrite, c.keepAliveEnabled);
  }

  lemma GetThenPostHasBegun(a: Engine, b: Engine, fd: Fd, length: nat)
    requires NothingAsked(a, fd) && FedAsDue(a, b, fd, GetHeader() + PostHeader(length)) && 0 < length <= MAX_BODY_BYTES
    requires Good(HTTP_RULES, b, fd) && b.sockets[fd].received == GetHeader() + PostHeader(length)
    ensures ReceivingSecond(b, fd, length, length) && b.journal[fd].deadlines == map[BodyTimer := BodyDeadline(b, fd)]
  {
    assert PostHeader(length) + "" == PostHeader(length);
    SplitOfGetThenPost(length, "");
    FramesAre(b, fd, Frames([GET_REQUEST], NeedBody(PostRequest(length), length)));
    OnlyGet(b.journal[fd].requests);
    SecondIsBeingReceived(b, fd, length, "");
  }

  lemma OnlyGet(requests: seq<HttpRequest>)
    requires requests <= [GET_REQUEST]
    ensures |requests| <= 1 && !LastHadBody(requests)
  {
    assert requests != [] ==> requests[0] == GET_REQUEST;
  }

  lemma StillReceivingSecond(a: Engine, b: Engine, fd: Fd, length: nat, part: string)
    requires ReceivingSecond(a, fd, length, length) && |part| < length <= MAX_BODY_BYTES
    requires Served(a, b, fd) && Good(HTTP_RULES, b, fd)
    requires b.sockets[fd].received == GetHeader() + (PostHeader(length) + part)
    ensures ReceivingSecond(b, fd, length, length - |part|) && SameBody(a, b, fd) && BodyDeadline(b, fd) == BodyDeadline(a, fd)
  {
    UnsealStep(a, b, fd);
    SplitOfGetThenPost(length, part);
    FramesAre(b, fd, Frames([GET_REQUEST], NeedBody(PostRequest(length), length - |part|)));
    NoHeaderInNothing();
    SecondIsBeingReceived(b, fd, length, part);
  }

  // The header clock runs beside the body clock, which has 30 seconds or more to go from the start
  // of the body.
  ghost predicate OnBothClocks(e: Engine, fd: Fd, readAt: int) {
    && fd in e.clients && fd in e.journal && e.journal[fd].deadlines.Keys == {HeaderTimer, BodyTimer}
    && e.journal[fd].deadlines[HeaderTimer] <= readAt + HEADER_TIMEOUT
    && e.journal[fd].deadlines[BodyTimer] == BodyDeadline(e, fd) >= e.journal[fd].bodyStart + 30_000 * MS
  }

  // An upload is cut short: behind a GET whose response went out in two parts, the body of a POST
  // is put on the ten second header clock by its first bytes, although its length has earned it 30
  // to 120 seconds. So it is in cut, with part of the body there; as soon as that clock has run out
  // the connection is closed.
  method CutUpload(server: Server, fd: Fd, length: nat, part: string) returns (got: bool, ghost cut: Engine, ghost readAt: int, ghost now: int)
    requires IsFresh(server, fd) && |part| < length <= MAX_BODY_BYTES
    modifies server, server.kernel, server.kernel.inputs
    ensures server.Running()
    ensures got ==>
      && ReceivingSecond(cut, fd, length, length - |part|) && OnBothClocks(cut, fd, readAt) && readAt <= now
      && (cut.journal[fd].deadlines[HeaderTimer] <= now ==> fd !in server.clients)
  {
    HeadersAreShort(length);
    ghost var e0 := server.View();
    cut, readAt, now := e0, 0, 0;
    got := Receive(server, fd, GetHeader() + PostHeader(length));
    if !got {
      return;
    }
    ghost var e1 := server.View();
    GetThenPostHasBegun(e0, e1, fd, length);
    if server.clients[fd].outputBuffer == "" {
      return false, cut, readAt, now;
    }
    got := AnswerInParts(server, fd, length);
    if !got {
      return;
    }
    got := ReadPart(server, fd, length, part);
    cut, readAt := server.View(), server.kernel.clock;
    now := server.ProcessExpiredTimers();
  }

  // The first part of the body arrives at what is now an idle connection.
  method ReadPart(server: Server, fd: Fd, length: nat, part: string) returns (got: bool)
    requires server.Running() && server.rules == HTTP_RULES && |part| < length <= MAX_BODY_BYTES
    requires ReceivingSecond(server.View(), fd, length, length) && server.clients[fd].idleTimeout.armed
    requires server.journal[fd].deadlines.Keys == {IdleTimer, BodyTimer}
    requires server.journal[fd].deadlines[BodyTimer] == BodyDeadline(server.View(), fd)
    modifies server, server.kernel, server.kernel.inputs
    ensures server.Running()
    ensures got ==> ReceivingSecond(server.View(), fd, length, length - |part|) && OnBothClocks(server.View(), fd, server.kernel.clock)
  {
    ghost var e0 := server.View();
    ReadAll(server, fd);
    got := fd in server.clients && server.kernel.sockets[fd].received == GetHeader() + (PostHeader(length) + part);
    if got {
      StillReceivingSecond(e0, server.View(), fd, length, part);
      BodyDeadlineBounds(server.journal[fd].bodyStart, length);
    }
  }

  // The rest of the response to the GET goes out, which makes the connection idle.
  method AnswerInParts(server: Server, fd: Fd, length: nat) returns (got: bool)
    requires server.Running() && server.rules == HTTP_RULES && 0 < length <= MAX_BODY_BYTES
    requires ReceivingSecond(server.View(), fd, length, length) && fd in server.kernel.sockets
    requires server.journal[fd].deadlines == map[BodyTimer := BodyDeadline(server.View(), fd)] && !server.clients[fd].readyForRead
    requires server.kernel.sockets[fd].received == GetHeader() + PostHeader(length)
    modifies server, server.kernel
    ensures server.Running()
    ensures got ==>
      && ReceivingSecond(server.View(), fd, length, length) && server.clients[fd].idleTimeout.armed
      && server.journal[fd].deadlines.Keys == {IdleTimer, BodyTimer}
      && server.journal[fd].deadlines[BodyTimer] == BodyDeadline(server.View(), fd)
  {
    ghost var e0 := server.View();
    Flush(server, fd);
    got := fd in server.clients && server.clients[fd].outputBuffer == "";
    if got {
      assert PostHeader(length) + "" == PostHeader(length);
      StillReceivingSecond(e0, server.View(), fd, length, "");
      NoHeaderInNothing();
    }
  }
}
