// What a handler at work on one connection may do to the engine: nothing to anybody else, and to
// its own connection only what extends its history or closes it once.
module Serving {
  import opened Text
  import opened DynamicBuffers
  import opened HttpParser
  import opened Framing
  import opened Connections
  import opened Engines
  import opened Upkeep

  const MAX_WRITE_BYTES_PER_EVENT: nat := 256 * 1024

  // The only ways the queue moves while one connection is being served.
  ghost predicate QueueStep(before: seq<Fd>, after: seq<Fd>, fd: Fd, alive: bool) {
    if !alive then after == Without(before, fd)
    else after == before || (fd !in before && after == before + [fd])
  }

  lemma QueueStepTrans(a: seq<Fd>, b: seq<Fd>, c: seq<Fd>, fd: Fd, aliveAtB: bool, aliveAtC: bool)
    requires QueueStep(a, b, fd, aliveAtB) && QueueStep(b, c, fd, aliveAtC) && (aliveAtC ==> aliveAtB)
    ensures QueueStep(a, c, fd, aliveAtC)
  {
    WithoutTwice(a, fd);
    WithoutAppended(a, fd);
  }

  // Everything a handler at work on fd may do: other connections are not touched, the queue
  // moves by at most this connection, its history only grows, and if it is closed it is closed
  // once, by a record carrying its own id.
  ghost predicate ServedParts(a: Engine, b: Engine, fd: Fd) {
    && a.clients - {fd} == b.clients - {fd} && a.journal - {fd} == b.journal - {fd}
    && a.sockets - {fd} == b.sockets - {fd} && a.interest - {fd} == b.interest - {fd}
    && b.nextId == a.nextId && b.active <= a.active
    && b.metrics.acceptTotal == a.metrics.acceptTotal && b.metrics.reject429 == a.metrics.reject429
    && QueueStep(a.ready, b.ready, fd, fd in b.clients)
    && b.metrics.requestsTotal + CompletedBy(a, a, fd) == a.metrics.requestsTotal + CompletedBy(a, b, fd)
    && (fd in b.sockets && fd !in b.clients ==> fd in a.sockets && fd !in a.clients)
    && (if fd in b.clients then LivesOn(a, b, fd) else if fd in a.clients then ClosedOnce(a, b, fd) else b.closeLog == a.closeLog)
  }

  // The requests completed by b on the connection that fd was at a.
  ghost function CompletedBy(a: Engine, b: Engine, fd: Fd): nat {
    if fd in b.clients && fd in b.journal then |b.journal[fd].requests|
    else if fd in a.clients && |b.closeLog| > |a.closeLog| then |b.closeLog[|a.closeLog|].journal.requests|
    else 0
  }

  ghost predicate LivesOn(a: Engine, b: Engine, fd: Fd)
    requires fd in b.clients
  {
    && fd in a.clients && fd in a.journal && fd in b.journal && fd in a.sockets && fd in b.sockets
    && b.closeLog == a.closeLog
    && Grown(a.clients[fd], a.journal[fd], a.sockets[fd], b.clients[fd], b.journal[fd], b.sockets[fd])
  }

  ghost predicate ClosedOnce(a: Engine, b: Engine, fd: Fd)
    requires fd in a.clients
  {
    && |b.closeLog| == |a.closeLog| + 1 && b.closeLog[..|a.closeLog|] == a.closeLog
    && b.closeLog[|a.closeLog|].fd == fd && b.closeLog[|a.closeLog|].connectionId == a.clients[fd].connectionId
  }

  // Under seal for the same reason as Shape.
  ghost predicate Served(a: Engine, b: Engine, fd: Fd) {
    forall key: int {:trigger UnsealedStep(a, b, key)} :: UnsealedStep(a, b, key) ==> ServedParts(a, b, fd)
  }

  ghost predicate UnsealedStep(a: Engine, b: Engine, key: int) {
    true
  }

  lemma UnsealStep(a: Engine, b: Engine, fd: Fd)
    requires Served(a, b, fd)
    ensures ServedParts(a, b, fd)
  {
    assert UnsealedStep(a, b, 0);
  }

  lemma SealStep(a: Engine, b: Engine, fd: Fd)
    requires ServedParts(a, b, fd)
    ensures Served(a, b, fd)
  {
  }

  lemma ServedRefl(rules: HttpRules, e: Engine, fd: Fd)
    requires Shape(rules, e)
    ensures Served(e, e, fd)
  {
    Unseal(rules, e);
    if fd !in e.clients {
      assert multiset(e.ready)[fd] == 0;
      WithoutAbsent(e.ready, fd);
    }
    SealStep(e, e, fd);
  }

  lemma GrownTrans(c: ClientConnection, j: Journal, s: Stream, c': ClientConnection, j': Journal, s': Stream,
                   c'': ClientConnection, j'': Journal, s'': Stream)
    requires Grown(c, j, s, c', j', s') && Grown(c', j', s', c'', j'', s'')
    ensures Grown(c, j, s, c'', j'', s'')
  {
  }

  // What a handler may have closed the connection for: answering and rejecting requests, and besides
  // reading from it.
  datatype Work = Answering | Reading

  predicate MayClose(work: Work, reason: CloseReason) {
    || reason == ResponsesSent || reason == WriteFailed || reason.ErrorPage?
    || (work == Reading && (reason == PeerClosed || reason == ReadFailed))
  }

  ghost predicate GoneFor(a: Engine, b: Engine, fd: Fd, work: Work) {
    fd in a.clients && fd !in b.clients && |b.closeLog| > |a.closeLog| ==> MayClose(work, b.closeLog[|a.closeLog|].reason)
  }

  lemma ServedTrans(a: Engine, b: Engine, c: Engine, fd: Fd)
    requires Served(a, b, fd) && Served(b, c, fd)
    ensures Served(a, c, fd)
    ensures forall work {:trigger GoneFor(a, c, fd, work)} ::
      GoneFor(a, b, fd, work) && GoneFor(b, c, fd, work) ==> GoneFor(a, c, fd, work)
  {
    UnsealStep(a, b, fd);
    UnsealStep(b, c, fd);
    QueueStepTrans(a.ready, b.ready, c.ready, fd, fd in b.clients, fd in c.clients);
    if fd in c.clients {
      GrownTrans(a.clients[fd], a.journal[fd], a.sockets[fd], b.clients[fd], b.journal[fd], b.sockets[fd],
                 c.clients[fd], c.journal[fd], c.sockets[fd]);
    }
    SealStep(a, c, fd);
  }

  lemma UpdateElsewhere<T>(m: map<Fd, T>, fd: Fd, x: T)
    ensures m[fd := x] - {fd} == m - {fd}
  {
  }

  // An update of this connection alone, with its history growing, is a step of serving it.
  lemma ServedByUpdate(a: Engine, b: Engine, fd: Fd, c: ClientConnection, j: Journal)
    requires KeysOk(a.clients, a.journal, a.sockets, a.interest) && fd in a.clients && fd in b.sockets
    requires b.clients == a.clients[fd := c] && b.journal == a.journal[fd := j]
    requires a.sockets - {fd} == b.sockets - {fd} && a.interest - {fd} == b.interest - {fd}
    requires b.nextId == a.nextId && b.active == a.active && b.closeLog == a.closeLog
    requires b.metrics.acceptTotal == a.metrics.acceptTotal && b.metrics.reject429 == a.metrics.reject429
    requires b.metrics.requestsTotal + |a.journal[fd].requests| == a.metrics.requestsTotal + |j.requests|
    requires b.ready == a.ready || (fd !in a.ready && b.ready == a.ready + [fd])
    requires Grown(a.clients[fd], a.journal[fd], a.sockets[fd], c, j, b.sockets[fd])
    ensures Served(a, b, fd)
  {
    UpdateElsewhere(a.clients, fd, c);
    UpdateElsewhere(a.journal, fd, j);
    SealStep(a, b, fd);
  }

  // Socket traffic of a connection that is still there.
  ghost predicate Traffic(a: Engine, b: Engine, fd: Fd, read: int, written: int) {
    fd in b.clients ==>
      && fd in a.clients && fd in a.sockets && fd in b.sockets
      && |b.sockets[fd].received| == |a.sockets[fd].received| + read
      && |b.sockets[fd].sent| == |a.sockets[fd].sent| + written
  }

  // Earlier output comes first: until all of it is out, nothing is read, parsed or answered.
  ghost predicate OutputFirst(a: Engine, b: Engine, fd: Fd) {
    fd in b.clients ==>
      && fd in a.clients && fd in a.sockets && fd in b.sockets
      && (|b.sockets[fd].sent| < |a.sockets[fd].sent| + |a.clients[fd].outputBuffer| ==> InputUntouched(a, b, fd))
  }

  ghost predicate InputUntouched(a: Engine, b: Engine, fd: Fd) {
    && fd in a.clients && fd in b.clients && fd in a.journal && fd in b.journal && fd in a.sockets && fd in b.sockets
    && b.clients[fd].inputBuffer == a.clients[fd].inputBuffer && b.journal[fd].requests == a.journal[fd].requests
    && b.sockets[fd].received == a.sockets[fd].received
  }

  // Flushing moves some bytes of output to the socket and leaves the input side alone.
  ghost predicate Flushed(a: Engine, b: Engine, fd: Fd, written: int) {
    fd in b.clients ==>
      && InputUntouched(a, b, fd) && b.clients[fd].readyForRead == a.clients[fd].readyForRead
      && |b.sockets[fd].sent| == |a.sockets[fd].sent| + written
      && |a.clients[fd].outputBuffer| == |b.clients[fd].outputBuffer| + written
  }

  // Once the output is out, whatever is done next comes after it.
  lemma OutputWasFirst(a: Engine, b: Engine, c: Engine, fd: Fd, written: int)
    requires fd in b.clients && Flushed(a, b, fd, written) && b.clients[fd].outputBuffer == "" && Served(b, c, fd)
    ensures OutputFirst(a, c, fd)
  {
    UnsealStep(b, c, fd);
  }

  // A connection on the header clock stays on it until it completes a request or begins a body.
  ghost predicate KeepsHeaderClock(a: Engine, b: Engine, fd: Fd) {
    fd in b.clients && fd in a.clients && fd in a.journal && fd in b.journal
    && a.clients[fd].headerTimeout.armed && !a.clients[fd].waitingForRequestBody
    && !b.clients[fd].waitingForRequestBody && |b.journal[fd].requests| == |a.journal[fd].requests| ==>
      b.clients[fd].headerTimeout.armed
  }

  lemma KeepsHeaderClockTrans(a: Engine, b: Engine, c: Engine, fd: Fd)
    requires KeepsHeaderClock(a, b, fd) && KeepsHeaderClock(b, c, fd) && Served(a, b, fd) && Served(b, c, fd)
    ensures KeepsHeaderClock(a, c, fd)
  {
    UnsealStep(a, b, fd);
    UnsealStep(b, c, fd);
  }

  // As long as the same body is being received, nobody moves a timer of its connection; when one is
  // begun, its own is the only one left.
  ghost predicate BodyTimersKept(a: Engine, b: Engine, fd: Fd) {
    fd in b.clients && b.clients[fd].waitingForRequestBody ==>
      && fd in a.clients && fd in a.journal && fd in b.journal
      && b.journal[fd].deadlines ==
         if SameBody(a, b, fd) then a.journal[fd].deadlines else map[BodyTimer := BodyDeadline(b, fd)]
  }

  ghost predicate SameBody(a: Engine, b: Engine, fd: Fd)
    requires fd in a.clients && fd in a.journal && fd in b.journal
  {
    a.clients[fd].waitingForRequestBody && |b.journal[fd].requests| == |a.journal[fd].requests|
  }

  function BodyDeadline(e: Engine, fd: Fd): int
    requires fd in e.clients && fd in e.journal
  {
    CalculateBodyReceiveDeadline(e.journal[fd].bodyStart, e.clients[fd].pendingBodyBytesTotal)
  }

  lemma BodyTimersKeptTrans(a: Engine, b: Engine, c: Engine, fd: Fd)
    requires BodyTimersKept(a, b, fd) && BodyTimersKept(b, c, fd) && Served(a, b, fd) && Served(b, c, fd)
    ensures BodyTimersKept(a, c, fd)
  {
    UnsealStep(a, b, fd);
    UnsealStep(b, c, fd);
  }

  // An idle connection that is read is on the header clock from then on, until it completes a
  // request or begins a body.
  ghost predicate OnHeaderClockUnlessDone(a: Engine, b: Engine, fd: Fd) {
    fd in b.clients && fd in a.clients && fd in a.journal && fd in b.journal
    && !a.clients[fd].waitingForRequestBody && !b.clients[fd].waitingForRequestBody
    && |b.journal[fd].requests| == |a.journal[fd].requests| ==>
      b.clients[fd].headerTimeout.armed && !b.clients[fd].idleTimeout.armed
  }

  // The front request has been dealt with, or its body is on the way.
  ghost predicate Advanced(a: Engine, b: Engine, fd: Fd) {
    fd in b.clients ==>
      && fd in a.journal && fd in b.journal
      && (|b.journal[fd].requests| > |a.journal[fd].requests| || b.clients[fd].waitingForRequestBody)
  }

  lemma AdvancedLater(a: Engine, b: Engine, c: Engine, fd: Fd)
    requires Advanced(a, b, fd) && Served(a, b, fd) && Served(b, c, fd)
    ensures Advanced(a, c, fd)
  {
    UnsealStep(a, b, fd);
    UnsealStep(b, c, fd);
  }

  // What has been received is only ever added to.
  lemma ReceivedNoMore(a: Engine, b: Engine, fd: Fd)
    requires Served(a, b, fd) && fd in b.clients && fd in a.sockets && fd in b.sockets
    requires |b.sockets[fd].received| == |a.sockets[fd].received|
    ensures b.sockets[fd].received == a.sockets[fd].received
  {
    UnsealStep(a, b, fd);
  }

  // Output sent is never taken back.
  lemma SentStaysSent(a: Engine, b: Engine, fd: Fd)
    requires Served(a, b, fd)
    ensures fd in b.clients ==> fd in a.sockets && fd in b.sockets && |a.sockets[fd].sent| <= |b.sockets[fd].sent|
  {
    UnsealStep(a, b, fd);
  }

  // ---------------------------------------------------------------- the ready queue, one by one

  // A header waits for the ready queue to look at it.
  predicate HeaderWaiting(e: Engine, fd: Fd) {
    fd in e.clients && e.clients[fd].outputBuffer == "" && HasCompleteHeader(e.clients[fd].inputBuffer)
  }

  ghost predicate Untouched(a: Engine, b: Engine, fd: Fd) {
    && fd in a.clients && fd in b.clients && b.clients[fd] == a.clients[fd]
    && fd in a.journal && fd in b.journal && b.journal[fd] == a.journal[fd]
    && fd in a.sockets && fd in b.sockets && b.sockets[fd] == a.sockets[fd]
  }

  // What the ready queue owes a connection: a header that was waiting is dealt with, queued output
  // is written as far as one event may and the socket takes it.
  ghost predicate ServedFromQueue(a: Engine, b: Engine, fd: Fd) {
    && (HeaderWaiting(a, fd) ==> Advanced(a, b, fd))
    && (fd in b.clients ==> WroteOrStuck(a, b, fd))
  }

  // The output that was queued is out, or what one event may write has been written, or the socket
  // takes no more.
  ghost predicate WroteOrStuck(a: Engine, b: Engine, fd: Fd) {
    && fd in a.clients && fd in a.sockets && fd in b.sockets
    && (|b.sockets[fd].sent| >= |a.sockets[fd].sent| + |a.clients[fd].outputBuffer|
        || |b.sockets[fd].sent| == |a.sockets[fd].sent| + 262144 || b.sockets[fd].full)
  }

  // Neither the connection nor its socket has moved.
  ghost predicate Undisturbed(a: Engine, b: Engine, fd: Fd) {
    && fd in a.clients && fd in b.clients && b.clients[fd] == a.clients[fd]
    && fd in a.sockets && fd in b.sockets && b.sockets[fd] == a.sockets[fd]
  }

  lemma UndisturbedElsewhere(rules: HttpRules, a: Engine, b: Engine, fd: Fd)
    requires Shape(rules, a) && a.clients - {fd} == b.clients - {fd} && a.sockets - {fd} == b.sockets - {fd}
    ensures forall f :: f in a.clients && f != fd ==> Undisturbed(a, b, f)
  {
    forall f | f in a.clients && f != fd ensures Undisturbed(a, b, f) {
      SameElsewhere(a.clients, b.clients, fd, f);
      SameElsewhere(a.sockets, b.sockets, fd, f);
    }
  }

  // Serving fd leaves alone what was not touched, and takes nothing back of what was achieved.
  lemma UntouchedElsewhere(a: Engine, b: Engine, c: Engine, fd: Fd)
    requires b.clients - {fd} == c.clients - {fd} && b.journal - {fd} == c.journal - {fd} && b.sockets - {fd} == c.sockets - {fd}
    ensures forall f :: f != fd && Untouched(a, b, f) ==> Untouched(a, c, f)
    ensures forall f :: f != fd && ServedFromQueue(a, b, f) ==> ServedFromQueue(a, c, f)
    ensures Untouched(a, b, fd) && ServedFromQueue(b, c, fd) ==> ServedFromQueue(a, c, fd)
  {
    forall f | f != fd ensures (Untouched(a, b, f) ==> Untouched(a, c, f)) && (ServedFromQueue(a, b, f) ==> ServedFromQueue(a, c, f)) {
      SameElsewhere(b.clients, c.clients, fd, f);
      SameElsewhere(b.journal, c.journal, fd, f);
      SameElsewhere(b.sockets, c.sockets, fd, f);
    }
  }

  // What serving the first i connections of the queue a starts with must achieve. Under seal.
  ghost predicate ServedSoFar(a: Engine, b: Engine, i: nat) {
    i <= |a.ready| && forall key: int {:trigger Unsealed(a, key)} :: Unsealed(a, key) ==> FirstServed(a, b, i)
  }

  lemma UnsealServed(a: Engine, b: Engine, i: nat)
    requires ServedSoFar(a, b, i)
    ensures FirstServed(a, b, i)
  {
    assert Unsealed(a, 0);
  }

  ghost predicate FirstServed(a: Engine, b: Engine, i: nat)
    requires i <= |a.ready|
  {
    && (forall k :: 0 <= k < i ==> ServedFromQueue(a, b, a.ready[k]))
    && (forall fd :: fd in a.clients && fd !in a.ready[..i] ==> Untouched(a, b, fd))
  }

  lemma OneMoreServed(rules: HttpRules, a: Engine, b: Engine, c: Engine, i: nat)
    requires Valid(rules, a) && i < |a.ready| && FirstServed(a, b, i)
    requires var fd := a.ready[i];
             && b.clients - {fd} == c.clients - {fd} && b.journal - {fd} == c.journal - {fd} && b.sockets - {fd} == c.sockets - {fd}
             && ServedFromQueue(b, c, fd)
    ensures FirstServed(a, c, i + 1)
  {
    NotServedYet(rules, a, i);
    UntouchedElsewhere(a, b, c, a.ready[i]);
    assert a.ready[..i + 1] == a.ready[..i] + [a.ready[i]];
    forall k | 0 <= k < i ensures a.ready[k] != a.ready[i] {
      assert a.ready[k] == a.ready[..i][k];
    }
  }

  lemma ServeOneMore(rules: HttpRules, a: Engine, b: Engine, c: Engine, i: nat)
    requires Valid(rules, a) && i < |a.ready| && ServedSoFar(a, b, i)
    requires var fd := a.ready[i];
             && b.clients - {fd} == c.clients - {fd} && b.journal - {fd} == c.journal - {fd} && b.sockets - {fd} == c.sockets - {fd}
             && ServedFromQueue(b, c, fd)
    ensures ServedSoFar(a, c, i + 1)
  {
    UnsealServed(a, b, i);
    OneMoreServed(rules, a, b, c, i);
  }

  lemma QueuedAreLive(rules: HttpRules, e: Engine)
    requires Valid(rules, e)
    ensures forall fd :: fd in e.ready ==> fd in e.clients
    ensures ServedSoFar(e, e, 0)
  {
    Unseal(rules, e);
    forall fd | fd in e.ready ensures fd in e.clients {
      assert multiset(e.ready)[fd] > 0;
    }
  }

  // Every queued descriptor is queued once.
  lemma NotServedYet(rules: HttpRules, e: Engine, i: nat)
    requires Valid(rules, e) && i < |e.ready|
    ensures e.ready[i] in e.clients && e.ready[i] !in e.ready[..i]
  {
    Unseal(rules, e);
    var fd := e.ready[i];
    assert e.ready == e.ready[..i] + [fd] + e.ready[i + 1..];
    assert multiset(e.ready) == multiset(e.ready[..i]) + multiset{fd} + multiset(e.ready[i + 1..]);
    assert multiset(e.ready)[fd] <= 1;
  }

  // ---------------------------------------------------------------- any number of handlers

  // What a run of handlers may do: closings are only added, ids only grow, and a connection that
  // is still there is the one it was, its history extended.
  ghost predicate RanParts(a: Engine, b: Engine) {
    && a.nextId <= b.nextId && a.closeLog <= b.closeLog
    && forall fd :: fd in b.clients && b.clients[fd].connectionId < a.nextId ==> LivedOn(a, b, fd)
  }

  ghost predicate LivedOn(a: Engine, b: Engine, fd: Fd) {
    && fd in a.clients && fd in b.clients && fd in a.journal && fd in b.journal && fd in a.sockets && fd in b.sockets
    && Grown(a.clients[fd], a.journal[fd], a.sockets[fd], b.clients[fd], b.journal[fd], b.sockets[fd])
  }

  ghost predicate Ran(a: Engine, b: Engine) {
    forall key: int {:trigger UnsealedStep(a, b, key)} :: UnsealedStep(a, b, key) ==> RanParts(a, b)
  }

  lemma RunOf(a: Engine, b: Engine)
    requires Ran(a, b)
    ensures RanParts(a, b)
  {
    assert UnsealedStep(a, b, 0);
  }

  lemma SealRun(a: Engine, b: Engine)
    requires RanParts(a, b)
    ensures Ran(a, b)
  {
  }

  lemma RanTrans(a: Engine, b: Engine, c: Engine)
    requires Ran(a, b) && Ran(b, c)
    ensures Ran(a, c)
  {
    RunOf(a, b);
    RunOf(b, c);
    forall fd | fd in c.clients && c.clients[fd].connectionId < a.nextId ensures LivedOn(a, c, fd) {
      assert LivedOn(b, c, fd) && LivedOn(a, b, fd);
      GrownTrans(a.clients[fd], a.journal[fd], a.sockets[fd], b.clients[fd], b.journal[fd], b.sockets[fd],
                 c.clients[fd], c.journal[fd], c.sockets[fd]);
    }
    SealRun(a, c);
  }

  ghost predicate OwnedBy(e: Engine, fd: Fd, id: nat) {
    fd in e.clients && e.clients[fd].connectionId == id
  }

  // A connection that is gone does not come back under its id.
  lemma GoneForGood(rules: HttpRules, a: Engine, b: Engine, c: Engine)
    requires Valid(rules, a) && Ran(a, b) && Ran(b, c)
    ensures forall fd, f :: f in a.clients && !OwnedBy(b, fd, a.clients[f].connectionId) ==> !OwnedBy(c, fd, a.clients[f].connectionId)
  {
    Unseal(rules, a);
    RunOf(a, b);
    RunOf(b, c);
    forall fd, f | f in a.clients && OwnedBy(c, fd, a.clients[f].connectionId)
      ensures OwnedBy(b, fd, a.clients[f].connectionId)
    {
      assert a.clients[f].connectionId in a.fate;
      assert LivedOn(b, c, fd);
    }
  }

  // Nothing that the run looks at has changed.
  lemma RanStill(rules: HttpRules, a: Engine, b: Engine)
    requires Shape(rules, a)
    requires b.clients == a.clients && b.journal == a.journal && b.sockets == a.sockets
    requires b.nextId == a.nextId && b.closeLog == a.closeLog
    ensures Ran(a, b)
  {
    SealRun(a, b);
  }

  lemma RanByDequeue(rules: HttpRules, a: Engine, dequeued: Engine, b: Engine, fd: Fd)
    requires Shape(rules, a) && fd in a.clients && a.ready != []
    requires dequeued == Put(a, fd, a.clients[fd].(inReadyQueue := false), a.journal[fd]).(ready := a.ready[1..])
    requires Shape(rules, dequeued) && Shape(rules, b) && Served(dequeued, b, fd)
    ensures Ran(a, b)
  {
    SealRun(a, dequeued);
    RanByServing(rules, dequeued, b, fd);
    RanTrans(a, dequeued, b);
  }

  lemma RanSoFar(rules: HttpRules, e: Engine)
    requires Shape(rules, e)
    ensures Ran(e, e)
  {
    SealRun(e, e);
  }

  lemma RanByServing(rules: HttpRules, a: Engine, b: Engine, fd: Fd)
    requires Shape(rules, a) && Shape(rules, b) && Served(a, b, fd)
    ensures Ran(a, b)
  {
    UnsealStep(a, b, fd);
    forall f | f in b.clients ensures LivedOn(a, b, f) {
      SameElsewhere(a.clients, b.clients, fd, f);
      SameElsewhere(a.journal, b.journal, fd, f);
      SameElsewhere(a.sockets, b.sockets, fd, f);
    }
    SealRun(a, b);
  }

  // ---------------------------------------------------------------- elementary changes

  function Armed(e: Engine, fd: Fd, kind: TimerKind, deadline: int): Engine
    requires fd in e.clients && fd in e.journal
  {
    var c := e.clients[fd].Arm(kind);
    Put(e, fd, c, e.journal[fd].Arm(kind, deadline)).(heap := e.heap + multiset{NodeOf(fd, c, kind, deadline)})
  }

  function Disarmed(e: Engine, fd: Fd, kind: TimerKind): Engine
    requires fd in e.clients && fd in e.journal
  {
    Put(e, fd, e.clients[fd].Disarm(kind), e.journal[fd].Disarm(kind))
  }

  function Enqueued(e: Engine, fd: Fd): Engine
    requires fd in e.clients && fd in e.journal
  {
    if e.clients[fd].inReadyQueue then e
    else Put(e, fd, e.clients[fd].(inReadyQueue := true), e.journal[fd]).(ready := e.ready + [fd])
  }

  // Rewrites buffers, flags and body state; inflight is the new global byte count.
  function Rewritten(e: Engine, fd: Fd, c: ClientConnection, j: Journal, inflight: nat): Engine {
    Put(e, fd, c, j).(inflight := inflight, metrics := e.metrics.(inflightCurrent := inflight))
  }

  function Masked(e: Engine, fd: Fd): Engine
    requires fd in e.clients
  {
    e.(interest := e.interest[fd := MaskFor(e.clients[fd])])
  }

  // Bytes moved through the socket.
  function Moved(e: Engine, fd: Fd, s: Stream): Engine {
    e.(sockets := e.sockets[fd := s])
  }

  // A request is complete: it goes on record and into requests_total.
  function Completed(e: Engine, fd: Fd, c: ClientConnection, request: HttpRequest): Engine
    requires fd in e.journal
  {
    Put(e, fd, c, e.journal[fd].(requests := e.journal[fd].requests + [request])).(
      metrics := e.metrics.(requestsTotal := e.metrics.requestsTotal + 1))
  }

  lemma ArmIsServing(rules: HttpRules, e: Engine, fd: Fd, kind: TimerKind, deadline: int)
    requires Shape(rules, e) && fd in e.clients
    ensures Shape(rules, Armed(e, fd, kind, deadline)) && Served(e, Armed(e, fd, kind, deadline), fd)
  {
    ArmKeepsShape(rules, e, fd, kind, deadline);
    ServedByUpdate(e, Armed(e, fd, kind, deadline), fd, e.clients[fd].Arm(kind), e.journal[fd].Arm(kind, deadline));
  }

  lemma DisarmIsServing(rules: HttpRules, e: Engine, fd: Fd, kind: TimerKind)
    requires Shape(rules, e) && fd in e.clients
    ensures Shape(rules, Disarmed(e, fd, kind)) && Served(e, Disarmed(e, fd, kind), fd)
    ensures !e.clients[fd].TimerOf(kind).armed ==> Disarmed(e, fd, kind) == e
  {
    DisarmKeepsShape(rules, e, fd, kind);
    ServedByUpdate(e, Disarmed(e, fd, kind), fd, e.clients[fd].Disarm(kind), e.journal[fd].Disarm(kind));
    Unseal(rules, e);
    assert ArmedOk(fd, e.clients[fd], e.journal[fd], e.heap);
    if !e.clients[fd].TimerOf(kind).armed {
      assert e.journal[fd].deadlines - {kind} == e.journal[fd].deadlines;
      SameEntry(e.clients, fd);
      SameEntry(e.journal, fd);
    }
  }

  lemma SameEntry<T>(m: map<Fd, T>, fd: Fd)
    requires fd in m
    ensures m[fd := m[fd]] == m
  {
  }

  lemma EnqueueIsServing(rules: HttpRules, e: Engine, fd: Fd)
    requires Shape(rules, e) && fd in e.clients
    ensures Shape(rules, Enqueued(e, fd)) && Served(e, Enqueued(e, fd), fd)
  {
    Unseal(rules, e);
    if e.clients[fd].inReadyQueue {
      ServedRefl(rules, e, fd);
    } else {
      EnqueueKeepsShape(rules, e, fd);
      ServedByUpdate(e, Enqueued(e, fd), fd, e.clients[fd].(inReadyQueue := true), e.journal[fd]);
    }
  }

  lemma RewriteIsServing(rules: HttpRules, e: Engine, fd: Fd, c: ClientConnection, j: Journal, inflight: nat)
    requires Shape(rules, e) && fd in e.clients && !c.closing
    requires Grown(e.clients[fd], e.journal[fd], e.sockets[fd], c, j, e.sockets[fd])
    requires j.deadlines == e.journal[fd].deadlines && j.requests == e.journal[fd].requests
    requires c.inReadyQueue == e.clients[fd].inReadyQueue
    requires forall kind :: c.TimerOf(kind) == e.clients[fd].TimerOf(kind)
    requires inflight + e.clients[fd].BufferedBytes() == e.inflight + c.BufferedBytes() && inflight <= MAX_INFLIGHT_BYTES
    ensures Shape(rules, Rewritten(e, fd, c, j, inflight)) && Served(e, Rewritten(e, fd, c, j, inflight), fd)
  {
    RewriteKeepsShape(rules, e, fd, c, j, inflight, e.metrics.(inflightCurrent := inflight));
    ServedByUpdate(e, Rewritten(e, fd, c, j, inflight), fd, c, j);
  }

  lemma CompleteIsServing(rules: HttpRules, e: Engine, fd: Fd, c: ClientConnection, request: HttpRequest)
    requires Shape(rules, e) && fd in e.clients && c == e.clients[fd].(
      waitingForRequestBody := c.waitingForRequestBody, pendingRequest := c.pendingRequest,
      pendingBodyBytesTotal := c.pendingBodyBytesTotal, pendingBodyBytesRemaining := c.pendingBodyBytesRemaining)
    ensures Shape(rules, Completed(e, fd, c, request)) && Served(e, Completed(e, fd, c, request), fd)
  {
    var done := Completed(e, fd, c, request);
    RewriteKeepsShape(rules, e, fd, c, done.journal[fd], e.inflight, done.metrics);
    ServedByUpdate(e, done, fd, c, done.journal[fd]);
  }

  lemma MaskIsServing(rules: HttpRules, e: Engine, fd: Fd)
    requires Shape(rules, e) && fd in e.clients
    ensures Shape(rules, Masked(e, fd)) && Served(e, Masked(e, fd), fd)
  {
    Unseal(rules, e);
    UpdateElsewhere(e.interest, fd, MaskFor(e.clients[fd]));
    Seal(rules, Masked(e, fd));
    SealStep(e, Masked(e, fd), fd);
  }

  lemma MoveIsServing(rules: HttpRules, e: Engine, fd: Fd, s: Stream)
    requires Shape(rules, e) && fd in e.clients
    requires e.sockets[fd].received <= s.received && e.sockets[fd].sent <= s.sent
    ensures Shape(rules, Moved(e, fd, s)) && Served(e, Moved(e, fd, s), fd)
  {
    Unseal(rules, e);
    UpdateElsewhere(e.sockets, fd, s);
    Seal(rules, Moved(e, fd, s));
    SealStep(e, Moved(e, fd, s), fd);
  }

  // Counters that the population and byte invariants do not look at.
  lemma CountIsServing(rules: HttpRules, e: Engine, fd: Fd, m: Metrics)
    requires Shape(rules, e)
    requires m.acceptTotal == e.metrics.acceptTotal && m.reject429 == e.metrics.reject429
    requires m.connsCurrent == e.metrics.connsCurrent && m.inflightCurrent == e.metrics.inflightCurrent
    requires m.requestsTotal == e.metrics.requestsTotal
    ensures Shape(rules, e.(metrics := m)) && Served(e, e.(metrics := m), fd)
  {
    CountersAside(rules, e, m);
    ServedRefl(rules, e, fd);
    UnsealStep(e, e, fd);
  }

  lemma WithoutIsWithoutTwice<T>(m: map<Fd, T>, fd: Fd)
    ensures m - {fd} - {fd} == m - {fd}
  {
  }

  lemma CloseIsServing(rules: HttpRules, e: Engine, fd: Fd, record: CloseRecord)
    requires fd in e.clients && e.clients[fd].BufferedBytes() <= e.inflight && e.active > 0
    requires record.connectionId == e.clients[fd].connectionId && record.fd == fd
    requires fd in e.journal && record.journal == e.journal[fd]
    ensures Served(e, Closed(e, fd, record), fd)
  {
    WithoutIsWithoutTwice(e.clients, fd);
    WithoutIsWithoutTwice(e.journal, fd);
    WithoutIsWithoutTwice(e.sockets, fd);
    WithoutIsWithoutTwice(e.interest, fd);
    SealStep(e, Closed(e, fd, record), fd);
  }

  // ---------------------------------------------------------------- everybody else

  lemma SameElsewhere<T>(m: map<Fd, T>, m': map<Fd, T>, fd: Fd, f: Fd)
    requires m - {fd} == m' - {fd}
    ensures f != fd ==> (f in m <==> f in m') && (f in m ==> m[f] == m'[f])
  {
    if f != fd {
      assert f in m <==> f in m - {fd};
      assert f in m' <==> f in m' - {fd};
      if f in m {
        assert (m - {fd})[f] == m[f] && (m' - {fd})[f] == m'[f];
      }
    }
  }

  lemma GoodElsewhere(rules: HttpRules, a: Engine, b: Engine, fd: Fd, f: Fd)
    requires f in b.clients && f != fd
    requires a.clients - {fd} == b.clients - {fd} && a.journal - {fd} == b.journal - {fd}
    requires a.sockets - {fd} == b.sockets - {fd} && a.interest - {fd} == b.interest - {fd}
    ensures f in a.clients && (Good(rules, a, f) ==> Good(rules, b, f))
  {
    SameElsewhere(a.clients, b.clients, fd, f);
    SameElsewhere(a.journal, b.journal, fd, f);
    SameElsewhere(a.sockets, b.sockets, fd, f);
    SameElsewhere(a.interest, b.interest, fd, f);
  }

  lemma SocketsElsewhere(a: Engine, b: Engine, fd: Fd)
    requires a.clients - {fd} == b.clients - {fd} && a.sockets - {fd} == b.sockets - {fd}
    requires a.sockets.Keys == a.clients.Keys && KeysOk(b.clients, b.journal, b.sockets, b.interest)
    requires fd in b.sockets ==> fd in b.clients
    ensures b.sockets.Keys == b.clients.Keys
  {
    forall f ensures f in b.sockets.Keys <==> f in b.clients.Keys {
      SameElsewhere(a.sockets, b.sockets, fd, f);
      SameElsewhere(a.clients, b.clients, fd, f);
    }
  }

  lemma ServedKeepsSockets(a: Engine, b: Engine, fd: Fd)
    requires Served(a, b, fd)
    ensures b.sockets.Keys <= a.sockets.Keys && b.active <= a.active
    ensures b.nextId == a.nextId && b.metrics.acceptTotal == a.metrics.acceptTotal && b.metrics.reject429 == a.metrics.reject429
    ensures a.clients - {fd} == b.clients - {fd} && a.journal - {fd} == b.journal - {fd} && a.sockets - {fd} == b.sockets - {fd}
  {
    UnsealStep(a, b, fd);
    forall f | f in b.sockets ensures f in a.sockets {
      SameElsewhere(a.sockets, b.sockets, fd, f);
    }
  }

  // When a handler leaves its own connection in order, everything is in order again.
  lemma ValidAfterServing(rules: HttpRules, a: Engine, b: Engine, fd: Fd)
    requires Shape(rules, a) && Shape(rules, b) && Counted(b) && Served(a, b, fd)
    requires OthersGood(rules, a, fd)
    requires fd in b.clients ==> Good(rules, b, fd)
    requires a.sockets.Keys == a.clients.Keys && (a.active <= MAX_CONNECTIONS || b.active <= MAX_CONNECTIONS)
    ensures Valid(rules, b) && Ran(a, b)
    ensures b.sockets.Keys <= a.sockets.Keys && b.active <= a.active
    ensures b.nextId == a.nextId && b.metrics.acceptTotal == a.metrics.acceptTotal && b.metrics.reject429 == a.metrics.reject429
    ensures a.clients - {fd} == b.clients - {fd} && a.journal - {fd} == b.journal - {fd} && a.sockets - {fd} == b.sockets - {fd}
  {
    RanByServing(rules, a, b, fd);
    ServedKeepsSockets(a, b, fd);
    UnsealStep(a, b, fd);
    assert Unsealed(a, 0);
    forall f | f in b.clients && f != fd ensures Good(rules, b, f) {
      GoodElsewhere(rules, a, b, fd, f);
    }
    SocketsElsewhere(a, b, fd);
    Unseal(rules, b);
    SealValid(rules, b);
  }

  // Taking a connection off the queue and serving it.
  lemma ValidAfterDequeue(rules: HttpRules, a: Engine, dequeued: Engine, b: Engine, fd: Fd)
    requires Valid(rules, a) && a.ready != [] && fd == a.ready[0] && fd in a.clients
    requires dequeued == Put(a, fd, a.clients[fd].(inReadyQueue := false), a.journal[fd]).(ready := a.ready[1..])
    requires Shape(rules, dequeued) && fd !in a.ready[1..]
    requires Served(dequeued, b, fd) && Shape(rules, b) && Counted(b) && (fd in b.clients ==> Good(rules, b, fd))
    ensures Valid(rules, b) && Ran(a, b)
    ensures b.sockets - {fd} == a.sockets - {fd}
    ensures b.clients - {fd} == a.clients - {fd} && b.journal - {fd} == a.journal - {fd} && b.sockets.Keys <= a.sockets.Keys
    ensures b.nextId == a.nextId && b.metrics.reject429 == a.metrics.reject429
    ensures b.ready == a.ready[1..] || b.ready == a.ready[1..] + [fd]
  {
    UnsealValid(rules, a);
    UpdateElsewhere(a.clients, fd, dequeued.clients[fd]);
    UpdateElsewhere(a.journal, fd, dequeued.journal[fd]);
    forall f | f in dequeued.clients && f != fd ensures Good(rules, dequeued, f) {
      GoodElsewhere(rules, a, dequeued, fd, f);
    }
    ValidAfterServing(rules, dequeued, b, fd);
    RanByDequeue(rules, a, dequeued, b, fd);
    UnsealStep(dequeued, b, fd);
    WithoutAbsent(a.ready[1..], fd);
  }
}
