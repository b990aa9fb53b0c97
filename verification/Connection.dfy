// One client connection: the record the server keeps for it, what has happened on its socket,
// and what must hold of the two at every handler boundary.
module Connections {
  import opened Text
  import opened DynamicBuffers
  import opened HttpParser
  import opened Framing
  import HttpResponse

  type Fd = int

  // ---------------------------------------------------------------- the HTTP layer, as seen by the engine

  // The engine is proved for every parser, keep-alive rule and pair of printers; the server is
  // built with HTTP_RULES.
  datatype HttpRules = HttpRules(
    parse: HeaderParser,
    keepsAlive: HttpRequest -> bool,
    okResponse: bool -> string,
    errorResponse: nat -> string)

  const STATIC_OK_BODY: string := "RouteC MVP response\n"

  predicate ShouldKeepAlive(request: HttpRequest) {
    var has := "connection" in request.headers;
    var wantsClose := has && ContainsToken(request.headers["connection"], "close");
    var wantsKeepAlive := has && ContainsToken(request.headers["connection"], "keep-alive");
    if request.version == "HTTP/1.1" then !wantsClose else wantsKeepAlive
  }

  function ReasonPhrase(status: nat): string {
    match status
    case 411 => "Length Required"
    case 413 => "Payload Too Large"
    case 429 => "Too Many Requests"
    case 431 => "Request Header Fields Too Large"
    case 501 => "Not Implemented"
    case 503 => "Service Unavailable"
    case _ => "Bad Request"
  }

  function OkResponse(keepAlive: bool): string {
    HttpResponse.BuildSimpleOkResponse(STATIC_OK_BODY, keepAlive)
  }

  function ErrorResponse(status: nat): string {
    HttpResponse.BuildSimpleErrorResponse(status, ReasonPhrase(status), ReasonPhrase(status) + "\n")
  }

  const HTTP_RULES: HttpRules := HttpRules(Parse, ShouldKeepAlive, OkResponse, ErrorResponse)

  // ---------------------------------------------------------------- the record

  datatype TimerKind = HeaderTimer | BodyTimer | IdleTimer

  datatype Timer = Timer(armed: bool, generation: nat)

  datatype ClientConnection = ClientConnection(
    connectionId: nat,
    inputBuffer: string,
    outputBuffer: string,
    closeAfterWrite: bool,
    inReadyQueue: bool,
    readyForRead: bool,
    closing: bool,
    keepAliveEnabled: bool,
    waitingForRequestBody: bool,
    pendingRequest: HttpRequest,
    pendingBodyBytesTotal: nat,
    pendingBodyBytesRemaining: nat,
    headerTimeout: Timer,
    bodyTimeout: Timer,
    idleTimeout: Timer)
  {
    function TimerOf(kind: TimerKind): Timer {
      match kind
      case HeaderTimer => headerTimeout
      case BodyTimer => bodyTimeout
      case IdleTimer => idleTimeout
    }

    function WithTimer(kind: TimerKind, timer: Timer): ClientConnection {
      match kind
      case HeaderTimer => this.(headerTimeout := timer)
      case BodyTimer => this.(bodyTimeout := timer)
      case IdleTimer => this.(idleTimeout := timer)
    }

    // Arming and disarming both move on to a fresh generation.
    function Arm(kind: TimerKind): ClientConnection {
      WithTimer(kind, Timer(true, TimerOf(kind).generation + 1))
    }

    function Disarm(kind: TimerKind): ClientConnection {
      if TimerOf(kind).armed then WithTimer(kind, Timer(false, TimerOf(kind).generation + 1)) else this
    }

    function BufferedBytes(): nat {
      |inputBuffer| + |outputBuffer|
    }

    // Where the next input byte belongs.
    function InputCursor(): Cursor {
      if waitingForRequestBody then InBody(pendingRequest, pendingBodyBytesRemaining) else AtHeader
    }
  }

  function NewConnection(id: nat): ClientConnection {
    ClientConnection(id, "", "", false, false, false, false, false, false, EMPTY_REQUEST, 0, 0,
                     Timer(false, 0), Timer(false, 0), Timer(false, 0))
  }

  // ---------------------------------------------------------------- the history

  // What the kernel has handed over and accepted on a socket.
  datatype Stream = Stream(received: string, sent: string, full: bool := false)

  datatype PollMask = PollMask(readable: bool, writable: bool, peerHangup: bool)

  // Ghost record of a connection: the requests completed so far, the plain map of its pending
  // deadlines, when the body now being received was started on, whether a postponed read has been
  // resumed since a timer was last armed, and the deadline that has come, if one has.
  datatype Journal = Journal(
    requests: seq<HttpRequest>, deadlines: map<TimerKind, int>, bodyStart: int, resumed: bool, lapsed: Option<Lapse>)
  {
    function Arm(kind: TimerKind, deadline: int): Journal {
      this.(deadlines := deadlines[kind := deadline], resumed := false)
    }

    function Disarm(kind: TimerKind): Journal {
      this.(deadlines := deadlines - {kind})
    }

    function Expire(kind: TimerKind): Journal
      requires kind in deadlines
    {
      Disarm(kind).(lapsed := Some(Lapse(kind, deadlines[kind])))
    }
  }

  datatype Lapse = Lapse(kind: TimerKind, deadline: int)

  const EMPTY_JOURNAL := Journal([], map[], 0, false, None)

  function Cancelled(timer: Timer): Timer {
    if timer.armed then Timer(false, timer.generation + 1) else timer
  }

  function DisarmAll(c: ClientConnection): ClientConnection {
    c.(headerTimeout := Cancelled(c.headerTimeout), bodyTimeout := Cancelled(c.bodyTimeout), idleTimeout := Cancelled(c.idleTimeout))
  }

  lemma DisarmKeepsOutput(c: ClientConnection, kind: TimerKind)
    ensures c.Disarm(kind).outputBuffer == c.outputBuffer && c.Disarm(kind).closeAfterWrite == c.closeAfterWrite
  {
  }

  lemma DisarmMeans(c: ClientConnection, kind: TimerKind)
    ensures c.Disarm(kind) == c.WithTimer(kind, Cancelled(c.TimerOf(kind)))
  {
    assert c.WithTimer(kind, c.TimerOf(kind)) == c;
  }

  lemma DisarmOneByOne(c: ClientConnection)
    ensures c.Disarm(HeaderTimer).Disarm(BodyTimer).Disarm(IdleTimer) == DisarmAll(c)
  {
    DisarmMeans(c, HeaderTimer);
    DisarmMeans(c.Disarm(HeaderTimer), BodyTimer);
    DisarmMeans(c.Disarm(HeaderTimer).Disarm(BodyTimer), IdleTimer);
  }

  lemma NoDeadlineLeft(deadlines: map<TimerKind, int>)
    ensures deadlines - {HeaderTimer} - {BodyTimer} - {IdleTimer} == map[]
  {
    forall kind: TimerKind ensures kind !in deadlines - {HeaderTimer} - {BodyTimer} - {IdleTimer} {
      match kind
      case HeaderTimer =>
      case BodyTimer =>
      case IdleTimer =>
    }
  }

  // ---------------------------------------------------------------- deadlines (nanoseconds)

  const MS: int := 1_000_000
  const HEADER_TIMEOUT: int := 10_000 * MS
  const BODY_TIMEOUT: int := 120_000 * MS
  const IDLE_KEEP_ALIVE_TIMEOUT: int := 60_000 * MS

  // now + min(120 s, max(30 s, length / 65536 s)), in whole milliseconds.
  function CalculateBodyReceiveDeadline(now: int, contentLength: nat): int {
    var raw := contentLength * 1000 / 65536;
    var bounded := if raw < 30_000 then 30_000 else if raw > 120_000 then 120_000 else raw;
    var deadline := now + bounded * MS;
    if deadline < now + BODY_TIMEOUT then deadline else now + BODY_TIMEOUT
  }

  // 30 seconds up to 1920 KiB, then a second for every 64 KiB, rounded down to milliseconds, up to
  // 120 seconds. The cap bites from 7680 KiB on: larger bodies have less time than that.
  lemma BodyDeadlineBounds(now: int, contentLength: nat)
    ensures var time := CalculateBodyReceiveDeadline(now, contentLength) - now;
            && 30_000 * MS <= time <= 120_000 * MS
            && (time == 120_000 * MS <==> contentLength >= 7680 * 1024)
            && (contentLength <= 1920 * 1024 ==> time == 30_000 * MS)
            && (1920 * 1024 <= contentLength <= 7680 * 1024 ==>
                  time % MS == 0 && 65536 * time <= contentLength * 1000 * MS < 65536 * (time + MS))
    ensures forall k :: 30 <= k <= 120 && contentLength == k * 65536 ==> CalculateBodyReceiveDeadline(now, contentLength) == now + k * 1000 * MS
  {
  }

  // ---------------------------------------------------------------- responses

  predicate AllKeepAlive(rules: HttpRules, requests: seq<HttpRequest>) {
    if requests == [] then true
    else AllKeepAlive(rules, requests[..|requests| - 1]) && rules.keepsAlive(requests[|requests| - 1])
  }

  // The bytes a client must see: one 200 per completed request, in order.
  function ResponseStream(rules: HttpRules, requests: seq<HttpRequest>): string {
    if requests == [] then ""
    else ResponseStream(rules, requests[..|requests| - 1]) + rules.okResponse(AllKeepAlive(rules, requests))
  }

  // The Connection headers of a response stream read keep-alive any number of times, then close.
  lemma {:induction false} KeepAliveThenClose(rules: HttpRules, requests: seq<HttpRequest>, i: nat, j: nat)
    requires i <= j <= |requests| && AllKeepAlive(rules, requests[..j])
    ensures AllKeepAlive(rules, requests[..i])
    decreases j
  {
    if i < j {
      assert requests[..j][..j - 1] == requests[..j - 1];
      KeepAliveThenClose(rules, requests, i, j - 1);
    }
  }

  // ---------------------------------------------------------------- what holds of one connection

  // Bytes written and bytes still queued make up exactly the responses owed for requests, and the
  // flags agree with what the last of them says. Under seal, like Framed.
  ghost predicate Streamed(rules: HttpRules, requests: seq<HttpRequest>, sent: string, queued: string, closes: bool, keeps: bool) {
    forall key: int {:trigger InView(sent, key)} :: InView(sent, key) ==>
      && sent + queued == ResponseStream(rules, requests)
      && closes == !AllKeepAlive(rules, requests)
      && (requests != [] ==> keeps == !closes)
  }

  lemma StreamOf(rules: HttpRules, requests: seq<HttpRequest>, sent: string, queued: string, closes: bool, keeps: bool)
    requires Streamed(rules, requests, sent, queued, closes, keeps)
    ensures sent + queued == ResponseStream(rules, requests)
    ensures closes == !AllKeepAlive(rules, requests)
    ensures requests != [] ==> keeps == !closes
  {
    assert InView(sent, 0);
  }

  // The body state machine.
  ghost predicate BodyOk(c: ClientConnection, j: Journal) {
    && c.bodyTimeout.armed == c.waitingForRequestBody
    && (if c.waitingForRequestBody then
          && 0 < c.pendingBodyBytesRemaining <= c.pendingBodyBytesTotal <= MAX_BODY_BYTES
          && c.pendingBodyBytesTotal == BodyLength(c.pendingRequest)
          && BodyTimer in j.deadlines
          && j.deadlines[BodyTimer] == CalculateBodyReceiveDeadline(j.bodyStart, c.pendingBodyBytesTotal)
        else
          c.pendingBodyBytesTotal == c.pendingBodyBytesRemaining == 0)
    && !(c.headerTimeout.armed && c.idleTimeout.armed)
  }

  ghost predicate Sound(rules: HttpRules, c: ClientConnection, j: Journal, s: Stream) {
    && !c.closing
    && Framed(rules.parse, s.received, j.requests, c.InputCursor(), c.inputBuffer)
    && Streamed(rules, j.requests, s.sent, c.outputBuffer, c.closeAfterWrite, c.keepAliveEnabled)
    && BodyOk(c, j)
  }

  function MaskFor(c: ClientConnection): PollMask {
    PollMask(true, c.outputBuffer != "", true)
  }

  // The most recently completed request came with a body.
  predicate LastHadBody(requests: seq<HttpRequest>) {
    requests != [] && BodyLength(requests[|requests| - 1]) > 0
  }

  // A complete header is waiting and nobody is going to look at it.
  predicate Stalled(c: ClientConnection) {
    HasCompleteHeader(c.inputBuffer) && c.outputBuffer == "" && !c.inReadyQueue
  }

  lemma NoHeaderInNothing()
    ensures !HasCompleteHeader("")
  {
  }

  // Nothing to send, not queued, and no timer running: only the peer can wake it up.
  predicate Unwatched(c: ClientConnection) {
    c.outputBuffer == "" && !c.inReadyQueue && !c.headerTimeout.armed && !c.bodyTimeout.armed && !c.idleTimeout.armed
  }

  // With this chunk the pending body is complete, and a complete header follows it.
  predicate CompletesBody(c: ClientConnection, chunk: string) {
    c.waitingForRequestBody && c.pendingBodyBytesRemaining <= |c.inputBuffer + chunk|
  }

  predicate HeaderBehindBody(c: ClientConnection, chunk: string) {
    CompletesBody(c, chunk) && HasCompleteHeader((c.inputBuffer + chunk)[c.pendingBodyBytesRemaining..])
  }

  // A connection with nothing to parse or send is on a clock, unless its last request had a body
  // or a postponed read kept the clock from being started.
  predicate Clocked(c: ClientConnection, j: Journal) {
    !c.waitingForRequestBody && c.outputBuffer == "" && !HasCompleteHeader(c.inputBuffer)
    && !c.headerTimeout.armed && !c.idleTimeout.armed ==>
      LastHadBody(j.requests) || c.readyForRead || j.resumed
  }

  // The further facts that hold whenever no handler is at work on the connection.
  ghost predicate Settled(c: ClientConnection, j: Journal) {
    && (c.waitingForRequestBody ==> c.inputBuffer == "")
    && (Stalled(c) ==> LastHadBody(j.requests))
    && Clocked(c, j)
  }

  predicate SameFlags(c: ClientConnection, c': ClientConnection) {
    c'.inReadyQueue == c.inReadyQueue && c'.readyForRead == c.readyForRead
  }

  // Sending a response leaves the input side of the record alone.
  ghost predicate SameInput(c: ClientConnection, c': ClientConnection) {
    && c'.inputBuffer == c.inputBuffer && SameFlags(c, c')
    && c'.waitingForRequestBody == c.waitingForRequestBody && c'.pendingRequest == c.pendingRequest
    && c'.pendingBodyBytesTotal == c.pendingBodyBytesTotal && c'.pendingBodyBytesRemaining == c.pendingBodyBytesRemaining
  }

  // What a handler may do to a live connection's history: only extend it, and leave a body that
  // is still being received with the deadline it started with.
  ghost predicate Grown(c: ClientConnection, j: Journal, s: Stream, c': ClientConnection, j': Journal, s': Stream) {
    && c'.connectionId == c.connectionId
    && s.received <= s'.received && s.sent <= s'.sent && j.requests <= j'.requests
    && (c.waitingForRequestBody && |j'.requests| == |j.requests| ==>
          && c'.waitingForRequestBody && c'.pendingRequest == c.pendingRequest
          && c'.pendingBodyBytesTotal == c.pendingBodyBytesTotal
          && c'.pendingBodyBytesRemaining <= c.pendingBodyBytesRemaining
          && j'.bodyStart == j.bodyStart)
  }
}
