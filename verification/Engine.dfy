// The whole engine as one value: its tables, queues and counters, and the invariant that ties
// them together at every handler boundary.
module Engines {
  import opened Text
  import opened DynamicBuffers
  import opened HttpParser
  import opened Framing
  import opened Connections

  const MAX_INFLIGHT_BYTES: nat := 512 * 1024 * 1024
  const MAX_CONNECTIONS: nat := 200000

  datatype TimerEntry = TimerEntry(deadline: int, fd: Fd, connectionId: nat, generation: nat, kind: TimerKind)

  datatype CloseReason =
    | PeerHangup
    | PeerClosed
    | ResponsesSent
    | ReadFailed
    | WriteFailed
    | ConnectionLimit
    | TimedOut(kind: TimerKind)
    | ErrorPage(status: nat)

  // What is remembered of a closed connection; the first okBytes of sent are response bytes, the
  // rest belongs to the error page. Its output buffer is dropped unsent. What was seen of the
  // connection and its surroundings when it was closed bears out the reason.
  datatype CloseRecord = CloseRecord(
    connectionId: nat, fd: Fd, reason: CloseReason, journal: Journal, received: string, sent: string, okBytes: nat,
    unsent: string, seen: Evidence)

  // Whether the last read found the end of the stream or an error, whether the last write failed
  // or took nothing, whether the poller has just reported a hangup; the time, how many connections there were, how
  // many bytes were buffered, and how many more were asked for.
  datatype Evidence = Evidence(
    ended: bool, readFailed: bool, writeFailed: bool, full: bool, hungUp: bool, at: int, active: nat, inflight: nat, asked: nat)

  datatype Metrics = Metrics(
    acceptTotal: nat, requestsTotal: nat, rejectTotal: nat, errorsTotal: nat,
    reject411: nat, reject413: nat, reject429: nat, reject431: nat, reject501: nat, reject503: nat,
    connRejectTotal: nat, timeoutCloseTotal: nat, connsCurrent: nat, inflightCurrent: nat)

  const ZERO_METRICS := Metrics(0, 0, 0, 0, 0, 0, 0, 0, 0, 0, 0, 0, 0, 0)

  datatype Engine = Engine(
    clients: map<Fd, ClientConnection>,
    journal: map<Fd, Journal>,
    sockets: map<Fd, Stream>,
    interest: map<Fd, PollMask>,
    ready: seq<Fd>,
    heap: multiset<TimerEntry>,
    inflight: nat,
    active: nat,
    nextId: nat,
    fate: map<nat, Option<Fd>>,
    closeLog: seq<CloseRecord>,
    metrics: Metrics)

  const NOTHING_YET := Engine(map[], map[], map[], map[], [], multiset{}, 0, 0, 1, map[], [], ZERO_METRICS)

  // ---------------------------------------------------------------- sums over a table

  lemma SomeKey<T>(m: map<Fd, T>)
    requires m != map[]
    ensures exists fd :: fd in m
  {
    assert (forall fd :: fd !in m) ==> m == map[];
  }

  ghost function Pick<T>(m: map<Fd, T>): (fd: Fd)
    requires m != map[]
    ensures fd in m
  {
    SomeKey(m);
    var fd :| fd in m; fd
  }

  ghost function Total<T>(m: map<Fd, T>, size: T -> nat): nat
    decreases |m|
  {
    if m == map[] then 0
    else
      var fd := Pick(m);
      assert (m - {fd}).Keys == m.Keys - {fd};
      size(m[fd]) + Total(m - {fd}, size)
  }

  lemma {:induction false} TotalSplit<T>(m: map<Fd, T>, size: T -> nat, fd: Fd)
    requires fd in m
    ensures Total(m, size) == size(m[fd]) + Total(m - {fd}, size)
    decreases |m|
  {
    var first := Pick(m);
    if first != fd {
      assert (m - {first}).Keys == m.Keys - {first};
      assert (m - {fd}).Keys == m.Keys - {fd};
      TotalSplit(m - {first}, size, fd);
      TotalSplit(m - {fd}, size, first);
      assert m - {first} - {fd} == m - {fd} - {first};
    }
  }

  lemma TotalUpdate<T>(m: map<Fd, T>, size: T -> nat, fd: Fd, x: T)
    ensures Total(m[fd := x], size) == Total(m - {fd}, size) + size(x)
    ensures fd in m ==> Total(m, size) == size(m[fd]) + Total(m - {fd}, size)
  {
    var updated := m[fd := x];
    TotalSplit(updated, size, fd);
    assert updated - {fd} == m - {fd};
    if fd in m {
      TotalSplit(m, size, fd);
    }
  }

  // Bytes buffered by all connections together.
  ghost function Buffered(clients: map<Fd, ClientConnection>): nat {
    Total(clients, BytesOf)
  }

  ghost function BytesOf(c: ClientConnection): nat {
    c.BufferedBytes()
  }

  // Requests completed on all live, and on all closed connections together.
  ghost function CompletedLive(journal: map<Fd, Journal>): nat {
    Total(journal, RequestsOf)
  }

  ghost function RequestsOf(j: Journal): nat {
    |j.requests|
  }

  ghost function CompletedClosed(log: seq<CloseRecord>): nat {
    if log == [] then 0 else CompletedClosed(log[..|log| - 1]) + |log[|log| - 1].journal.requests|
  }

  // ---------------------------------------------------------------- the invariant, part by part

  // Every live connection is in every table, and none of them is half closed.
  ghost predicate KeysOk(clients: map<Fd, ClientConnection>, journal: map<Fd, Journal>, sockets: map<Fd, Stream>, interest: map<Fd, PollMask>) {
    forall fd :: fd in clients ==> fd in journal && fd in sockets && fd in interest && !clients[fd].closing
  }

  // Nothing else is registered with the poller.
  ghost predicate NoStrays(clients: map<Fd, ClientConnection>, journal: map<Fd, Journal>, interest: map<Fd, PollMask>) {
    forall fd :: fd in journal || fd in interest ==> fd in clients
  }

  // The ready queue holds exactly the connections flagged for it, each once.
  ghost predicate QueueOk(clients: map<Fd, ClientConnection>, ready: seq<Fd>) {
    forall fd :: multiset(ready)[fd] == if fd in clients && clients[fd].inReadyQueue then 1 else 0
  }

  function NodeOf(fd: Fd, c: ClientConnection, kind: TimerKind, deadline: int): TimerEntry {
    TimerEntry(deadline, fd, c.connectionId, c.TimerOf(kind).generation, kind)
  }

  // A timer is armed exactly when the plain map has a deadline for it, and then its node is in
  // the heap, once.
  ghost predicate ArmedOk(fd: Fd, c: ClientConnection, j: Journal, heap: multiset<TimerEntry>) {
    forall kind :: (c.TimerOf(kind).armed <==> kind in j.deadlines) &&
      (kind in j.deadlines ==> heap[NodeOf(fd, c, kind, j.deadlines[kind])] == 1)
  }

  // A heap node whose connection and generation are current is that one node; all others are
  // leftovers.
  ghost predicate IsCurrent(t: TimerEntry, clients: map<Fd, ClientConnection>) {
    && t.fd in clients && clients[t.fd].connectionId == t.connectionId
    && clients[t.fd].TimerOf(t.kind).generation == t.generation
  }

  ghost predicate HeapNodeOk(t: TimerEntry, clients: map<Fd, ClientConnection>, journal: map<Fd, Journal>, nextId: nat) {
    && t.connectionId < nextId
    && (t.fd in clients && clients[t.fd].connectionId == t.connectionId ==>
          t.generation <= clients[t.fd].TimerOf(t.kind).generation)
    && (IsCurrent(t, clients) ==>
          t.fd in journal && t.kind in journal[t.fd].deadlines && t.deadline == journal[t.fd].deadlines[t.kind])
  }

  ghost predicate TimersOk(clients: map<Fd, ClientConnection>, journal: map<Fd, Journal>, heap: multiset<TimerEntry>, nextId: nat) {
    && (forall fd :: fd in clients ==> fd in journal && ArmedOk(fd, clients[fd], journal[fd], heap))
    && (forall t :: t in heap ==> HeapNodeOk(t, clients, journal, nextId))
  }

  ghost predicate BytesOk(e: Engine) {
    e.inflight == Buffered(e.clients)
  }

  ghost predicate InflightOk(e: Engine) {
    e.inflight <= MAX_INFLIGHT_BYTES && e.metrics.inflightCurrent == e.inflight
  }

  // Every id ever issued belongs to one live connection or to one closed one.
  ghost predicate IdsOk(clients: map<Fd, ClientConnection>, nextId: nat, fate: map<nat, Option<Fd>>, closeLog: seq<CloseRecord>) {
    && 1 <= nextId && (forall id :: id in fate <==> 1 <= id < nextId)
    && (forall fd :: fd in clients ==> clients[fd].connectionId in fate && fate[clients[fd].connectionId] == Some(fd))
    && (forall id :: id in fate && fate[id].Some? ==> fate[id].value in clients && clients[fate[id].value].connectionId == id)
    && (forall i :: 0 <= i < |closeLog| ==> closeLog[i].connectionId in fate && fate[closeLog[i].connectionId] == None)
    && (forall i, j :: 0 <= i < j < |closeLog| ==> closeLog[i].connectionId != closeLog[j].connectionId)
  }

  ghost function Reasons(log: seq<CloseRecord>): multiset<CloseReason> {
    if log == [] then multiset{} else Reasons(log[..|log| - 1]) + multiset{log[|log| - 1].reason}
  }

  // Every counter is the number of closings it is meant to count.
  ghost predicate CountsOk(m: Metrics, reasons: multiset<CloseReason>) {
    && m.reject411 == reasons[ErrorPage(411)] && m.reject413 == reasons[ErrorPage(413)]
    && m.reject431 == reasons[ErrorPage(431)] && m.reject501 == reasons[ErrorPage(501)]
    && m.reject503 == reasons[ErrorPage(503)] && m.connRejectTotal == reasons[ConnectionLimit]
    && m.timeoutCloseTotal == reasons[TimedOut(HeaderTimer)] + reasons[TimedOut(BodyTimer)] + reasons[TimedOut(IdleTimer)]
    && m.rejectTotal == m.reject411 + m.reject413 + m.reject429 + m.reject431 + m.reject501 + m.reject503
                        + m.connRejectTotal + reasons[ErrorPage(400)]
    && m.errorsTotal == m.rejectTotal + m.timeoutCloseTotal + reasons[ReadFailed] + reasons[WriteFailed]
  }

  // Accepted connections are refused, live or closed; the gauges show the live ones.
  ghost predicate PopulationOk(e: Engine) {
    && e.active == |e.clients| == e.metrics.connsCurrent
    && e.metrics.acceptTotal == e.metrics.reject429 + e.active + |e.closeLog|
  }

  // requests_total counts what has been completed on connections live and closed.
  ghost predicate TotalOk(journal: map<Fd, Journal>, log: seq<CloseRecord>, requestsTotal: nat) {
    requestsTotal == CompletedLive(journal) + CompletedClosed(log)
  }

  // The statuses that answer the header itself.
  predicate IsVerdict(status: nat) {
    status == 400 || status == 411 || status == 413 || status == 501
  }

  // All responses owed are in the output buffer when a connection is closed, except while one is
  // being started on: it may then be closed for lack of buffer space or for a failed write.
  predicate OwesOnlyOutput(reason: CloseReason) {
    reason != ErrorPage(503) && reason != WriteFailed
  }

  // Nobody is closed without a reason: a kept connection is not closed for having been answered.
  predicate Justified(rules: HttpRules, record: CloseRecord) {
    match record.reason
    case PeerHangup => record.seen.hungUp
    case PeerClosed => record.seen.ended
    case ResponsesSent => !AllKeepAlive(rules, record.journal.requests)
    case ReadFailed => record.seen.readFailed
    case WriteFailed => record.seen.writeFailed
    case ConnectionLimit => record.seen.active > MAX_CONNECTIONS
    case TimedOut(kind) =>
      record.journal.lapsed.Some? && record.journal.lapsed.value.kind == kind && record.journal.lapsed.value.deadline <= record.seen.at
    case ErrorPage(status) => status == 503 ==> record.seen.inflight + record.seen.asked > MAX_INFLIGHT_BYTES
  }

  ghost predicate PageSent(record: CloseRecord, page: string)
    requires record.okBytes <= |record.sent|
  {
    && record.sent[record.okBytes..] <= page
    && (record.sent[record.okBytes..] == page || record.seen.full || record.seen.writeFailed)
  }

  // A closed connection was sent a prefix of the responses it was owed, all of them if that was
  // the reason for closing it, followed by a prefix of one error page if and only if it was
  // rejected; what it was not sent was dropped with its output buffer. The splitter rejects what it
  // sent with the same status, or finds the oversized header. Only a full or broken socket keeps it
  // from getting the whole page.
  ghost predicate ClosedOk(rules: HttpRules, record: CloseRecord) {
    && Justified(rules, record) && record.okBytes <= |record.sent|
    && record.sent[..record.okBytes] <= ResponseStream(rules, record.journal.requests)
    && (OwesOnlyOutput(record.reason) ==> record.sent[..record.okBytes] + record.unsent == ResponseStream(rules, record.journal.requests))
    && (record.reason == ErrorPage(431) ==> Oversized(rules.parse, record.received, record.journal.requests))
    && (record.reason == ResponsesSent ==> record.sent == ResponseStream(rules, record.journal.requests))
    && (record.reason.ErrorPage? && IsVerdict(record.reason.status) ==>
          Refuses(rules.parse, record.received, record.journal.requests, record.reason.status))
    && (if record.reason.ErrorPage? then PageSent(record, rules.errorResponse(record.reason.status))
        else record.okBytes == |record.sent|)
  }

  // It was sent all responses it was owed.
  ghost predicate AnsweredInFull(rules: HttpRules, record: CloseRecord) {
    record.okBytes <= |record.sent| && record.sent[..record.okBytes] == ResponseStream(rules, record.journal.requests)
  }

  ghost predicate LogOk(rules: HttpRules, log: seq<CloseRecord>) {
    forall i :: 0 <= i < |log| ==> ClosedOk(rules, log[i])
  }

  // ---------------------------------------------------------------- the invariant

  // All of it except the closing counters, which run ahead of the closing they count.
  ghost predicate Parts(rules: HttpRules, e: Engine) {
    && NoStrays(e.clients, e.journal, e.interest)
    && QueueOk(e.clients, e.ready)
    && TimersOk(e.clients, e.journal, e.heap, e.nextId)
    && BytesOk(e)
    && IdsOk(e.clients, e.nextId, e.fate, e.closeLog)
    && PopulationOk(e)
    && TotalOk(e.journal, e.closeLog, e.metrics.requestsTotal)
    && LogOk(rules, e.closeLog)
  }

  // The parts are kept under seal, so that handlers that only pass the invariant on do not pay
  // for its quantifiers: they come into view where Unseal is called.
  ghost predicate Unsealed(e: Engine, key: int) {
    true
  }

  ghost predicate Shape(rules: HttpRules, e: Engine) {
    KeysOk(e.clients, e.journal, e.sockets, e.interest) && InflightOk(e) &&
    forall key: int {:trigger Unsealed(e, key)} :: Unsealed(e, key) ==> Parts(rules, e)
  }

  lemma Unseal(rules: HttpRules, e: Engine)
    requires Shape(rules, e)
    ensures Parts(rules, e)
  {
    assert Unsealed(e, 0);
  }

  lemma Seal(rules: HttpRules, e: Engine)
    requires KeysOk(e.clients, e.journal, e.sockets, e.interest) && InflightOk(e) && Parts(rules, e)
    ensures Shape(rules, e)
  {
  }

  ghost predicate Counted(e: Engine) {
    forall key: int {:trigger Counting(key)} :: Counting(key) ==> CountsOk(e.metrics, Reasons(e.closeLog))
  }

  ghost predicate Counting(key: int) {
    true
  }

  lemma CountsOf(e: Engine)
    requires Counted(e)
    ensures CountsOk(e.metrics, Reasons(e.closeLog))
  {
    assert Counting(0);
  }

  // Framing, responses, body state and poll mask of one connection are in order.
  ghost predicate Healthy(rules: HttpRules, e: Engine, fd: Fd) {
    && fd in e.clients && fd in e.journal && fd in e.sockets && fd in e.interest
    && Sound(rules, e.clients[fd], e.journal[fd], e.sockets[fd])
    && e.interest[fd] == MaskFor(e.clients[fd])
  }

  // ... and so they are when no handler is at work on it.
  ghost predicate Good(rules: HttpRules, e: Engine, fd: Fd) {
    Healthy(rules, e, fd) && Settled(e.clients[fd], e.journal[fd])
  }

  // All connections but one are in order; under seal like the rest.
  ghost predicate OthersGood(rules: HttpRules, e: Engine, fd: Fd) {
    forall key: int {:trigger Unsealed(e, key)} :: Unsealed(e, key) ==>
      forall f :: f in e.clients && f != fd ==> Good(rules, e, f)
  }

  // Every connection is in order, every open socket belongs to one, and there are not too many.
  ghost predicate AtRest(rules: HttpRules, e: Engine) {
    && (forall fd :: fd in e.clients ==> Good(rules, e, fd))
    && e.sockets.Keys == e.clients.Keys
    && |e.clients| <= MAX_CONNECTIONS
  }

  // The invariant at handler boundaries.
  ghost predicate Valid(rules: HttpRules, e: Engine) {
    Shape(rules, e) && Counted(e) && forall key: int {:trigger Unsealed(e, key)} :: Unsealed(e, key) ==> AtRest(rules, e)
  }

  lemma UnsealValid(rules: HttpRules, e: Engine)
    requires Valid(rules, e)
    ensures Parts(rules, e) && AtRest(rules, e)
  {
    assert Unsealed(e, 0);
  }

  lemma SealValid(rules: HttpRules, e: Engine)
    requires Shape(rules, e) && Counted(e) && AtRest(rules, e)
    ensures Valid(rules, e)
  {
  }

  lemma GoodNow(rules: HttpRules, e: Engine, fd: Fd)
    requires Valid(rules, e)
    ensures OthersGood(rules, e, fd) && (fd in e.clients ==> Good(rules, e, fd))
    ensures e.sockets.Keys == e.clients.Keys && e.active <= MAX_CONNECTIONS
  {
    UnsealValid(rules, e);
  }

  lemma NothingCounts(clients: map<Fd, ClientConnection>, journal: map<Fd, Journal>)
    requires clients == map[] && journal == map[]
    ensures Buffered(clients) == 0 && CompletedLive(journal) == 0
  {
  }

  lemma NothingToKeep(clients: map<Fd, ClientConnection>, journal: map<Fd, Journal>, ready: seq<Fd>, heap: multiset<TimerEntry>)
    requires clients == map[] && ready == [] && heap == multiset{}
    ensures QueueOk(clients, ready) && TimersOk(clients, journal, heap, 1) && IdsOk(clients, 1, map[], [])
  {
  }

  lemma NothingCounted()
    ensures CountsOk(ZERO_METRICS, Reasons([]))
  {
  }

  lemma NobodyIsAtRest(rules: HttpRules, e: Engine)
    requires e.clients == map[] && e.sockets == map[]
    ensures AtRest(rules, e)
  {
  }

  lemma NothingHasParts(rules: HttpRules, e: Engine)
    requires e.clients == map[] && e.journal == map[] && e.interest == map[]
    requires e.ready == [] && e.heap == multiset{} && e.inflight == 0 && e.active == 0 && e.nextId == 1
    requires e.fate == map[] && e.closeLog == [] && e.metrics == ZERO_METRICS
    ensures KeysOk(e.clients, e.journal, e.sockets, e.interest) && InflightOk(e) && Parts(rules, e)
  {
    NothingCounts(e.clients, e.journal);
    NothingToKeep(e.clients, e.journal, e.ready, e.heap);
  }

  lemma EmptyIsValid(rules: HttpRules, e: Engine)
    requires e.clients == map[] && e.journal == map[] && e.sockets == map[] && e.interest == map[]
    requires e.ready == [] && e.heap == multiset{} && e.inflight == 0 && e.active == 0 && e.nextId == 1
    requires e.fate == map[] && e.closeLog == [] && e.metrics == ZERO_METRICS
    ensures Valid(rules, e)
  {
    NothingHasParts(rules, e);
    NobodyIsAtRest(rules, e);
    NothingCounted();
    Seal(rules, e);
    SealValid(rules, e);
  }

  lemma NothingYetIsValid(rules: HttpRules)
    ensures Valid(rules, NOTHING_YET)
  {
    EmptyIsValid(rules, NOTHING_YET);
  }
}
