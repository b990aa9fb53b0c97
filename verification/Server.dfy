// The connection engine: every handler between the event loop and the single closing entry.
module Servers {
  import opened Text
  import opened DynamicBuffers
  import opened HttpParser
  import opened Framing
  import opened Connections
  import opened Engines
  import opened Upkeep
  import opened Serving
  import opened Exchanges
  import opened Lifecycles
  import opened Kernels
  import RateLimiter

  const READ_CHUNK_SIZE: nat := 4096
  const MAX_REQUESTS_PER_ROUND: nat := 5
  const MAX_READ_BYTES_PER_EVENT: nat := 256 * 1024
  const METRICS_LOG_INTERVAL: int := 1000 * MS

  // What became of one buffered header.
  datatype HeaderOutcome = Gone | BodyStarted | Answered

  // What one connection may still read and write in the current round.
  class EventBudget {
    var readRemaining: nat
    var writeRemaining: nat

    constructor ()
      ensures readRemaining == MAX_READ_BYTES_PER_EVENT && writeRemaining == MAX_WRITE_BYTES_PER_EVENT
    {
      readRemaining, writeRemaining := MAX_READ_BYTES_PER_EVENT, MAX_WRITE_BYTES_PER_EVENT;
    }
  }

  // When the next metrics line is due.
  class MetricsLog {
    var nextTime: int

    constructor (start: int)
      ensures nextTime == start + METRICS_LOG_INTERVAL
    {
      nextTime := start + METRICS_LOG_INTERVAL;
    }
  }

  // What one event may move through the socket of a connection that survives it.
  ghost predicate WithinBudget(a: Engine, b: Engine, fd: Fd) {
    fd in b.clients ==>
      && fd in a.clients && fd in a.sockets && fd in b.sockets
      && |b.sockets[fd].received| - |a.sockets[fd].received| <= 262144
      && |b.sockets[fd].sent| - |a.sockets[fd].sent| <= 262144
  }

  // Nothing to send, to parse or to receive a body for: at most a postponed read is to be resumed.
  predicate HasNothingToDo(c: ClientConnection) {
    c.outputBuffer == "" && !c.waitingForRequestBody && !HasCompleteHeader(c.inputBuffer)
  }

  ghost predicate ReceivedNothing(a: Engine, b: Engine, fd: Fd) {
    fd in a.sockets && fd in b.sockets && b.sockets[fd].received == a.sockets[fd].received
  }

  // There is output to be sent first, the rest of the work is queued, or nothing is left to read.
  ghost predicate ReadOrQueued(e: Engine, fd: Fd, dry: set<Fd>) {
    fd in e.clients && (e.clients[fd].outputBuffer != "" || e.clients[fd].inReadyQueue || fd in dry)
  }

  // What has become of the connection that an event was reported for in state a: it has ended, and
  // a hangup always ends it, or its event has been dealt with.
  ghost predicate Dealt(a: Engine, b: Engine, event: PollEvent, dry: set<Fd>) {
    event.fd in a.clients && OwnedBy(b, event.fd, a.clients[event.fd].connectionId) ==>
      && !event.hangup
      && (event.readable ==> ReadOrQueued(b, event.fd, dry))
      && (event.writable ==> WroteOrStuck(a, b, event.fd))
  }

  // How long the poller is to sleep, what the clock read when the timers and the metrics line were
  // consulted, and when that line is due.
  datatype Sleep = Sleep(timeoutMs: int, timersAt: int, logAt: int, logDue: int)

  // One call of the poller: how long it might sleep, what it reported, and the engine it reported
  // that of.
  datatype Poll = Poll(sleep: Sleep, events: seq<PollEvent>, at: Engine)

  // Ghost record of what the loop has handed to its handlers: which descriptors, owned by which
  // connections, the ready queue and the poller had served, and every call of the poller.
  class Trace {
    ghost var served: seq<(Fd, nat)>
    ghost var dispatched: seq<(Fd, nat)>
    ghost var polls: seq<Poll>

    constructor ()
      ensures served == [] && dispatched == [] && polls == []
    {
      served, dispatched, polls := [], [], [];
    }
  }

  ghost predicate NoneDue(e: Engine, now: int) {
    forall fd :: fd in e.clients ==> fd in e.journal && !Due(e.journal[fd], now)
  }

  // The poller sleeps for a second at most, not at all when work is queued, and never past the next
  // deadline or metrics line; it sleeps for less only for one of these, or for a leftover node.
  ghost predicate SleepsRight(e: Engine, sleep: Sleep) {
    var ms := sleep.timeoutMs;
    && 0 <= ms <= 1000 && (e.ready != [] ==> ms == 0)
    && (ms > 0 ==> forall fd, kind :: fd in e.clients && fd in e.journal && kind in e.journal[fd].deadlines ==>
                     ms * MS <= e.journal[fd].deadlines[kind] - sleep.timersAt)
    && (ms > 0 && sleep.logDue != 0 ==> ms * MS <= sleep.logDue - sleep.logAt)
    && (ms < 1000 ==> e.ready != [] || (exists t :: t in e.heap && t.deadline < sleep.timersAt + (ms + 1) * MS)
                      || sleep.logDue < sleep.logAt + (ms + 1) * MS)
  }

  // The connections behind a list of descriptors.
  ghost function Owners(fds: seq<Fd>, clients: map<Fd, ClientConnection>): seq<(Fd, nat)> {
    if fds == [] then []
    else Owners(fds[..|fds| - 1], clients) + OwnerOf(fds[|fds| - 1], clients)
  }

  ghost function OwnerOf(fd: Fd, clients: map<Fd, ClientConnection>): seq<(Fd, nat)> {
    if fd in clients then [(fd, clients[fd].connectionId)] else []
  }

  lemma OneMoreOwner(fds: seq<Fd>, clients: map<Fd, ClientConnection>, i: nat)
    requires i < |fds|
    ensures Owners(fds[..i + 1], clients) == Owners(fds[..i], clients) + OwnerOf(fds[i], clients)
  {
    assert fds[..i + 1][..i] == fds[..i];
  }

  // The connections behind the events of a batch, the listening socket aside.
  ghost function Addressees(events: seq<PollEvent>, listenFd: Fd, clients: map<Fd, ClientConnection>): seq<(Fd, nat)> {
    if events == [] then []
    else
      Addressees(events[..|events| - 1], listenFd, clients) + AddresseeOf(events[|events| - 1], listenFd, clients)
  }

  ghost function AddresseeOf(event: PollEvent, listenFd: Fd, clients: map<Fd, ClientConnection>): seq<(Fd, nat)> {
    if event.fd == listenFd then [] else OwnerOf(event.fd, clients)
  }

  lemma OneMoreAddressee(events: seq<PollEvent>, listenFd: Fd, clients: map<Fd, ClientConnection>, i: nat)
    requires i < |events|
    ensures Addressees(events[..i + 1], listenFd, clients)
         == Addressees(events[..i], listenFd, clients) + AddresseeOf(events[i], listenFd, clients)
  {
    assert events[..i + 1][..i] == events[..i];
  }

  // Of the first i events all have been dealt with, and a readable listening socket has been
  // accepted from until nothing was left; those still to come find their connections as they were.
  ghost predicate BatchParts(a: Engine, b: Engine, events: seq<PollEvent>, listenFd: Fd, i: nat, dry: set<Fd>, listenerDry: bool) {
    && i <= |events|
    && (forall j :: 0 <= j < |events| && events[j].fd != listenFd ==> events[j].fd in a.clients)
    && (forall j :: i <= j < |events| && events[j].fd != listenFd ==> Undisturbed(a, b, events[j].fd))
    && (forall j :: 0 <= j < i && events[j].fd != listenFd ==> Dealt(a, b, events[j], dry))
    && (forall j :: 0 <= j < i && events[j].fd == listenFd && events[j].readable ==> listenerDry)
  }

  // Under seal.
  ghost predicate BatchSoFar(a: Engine, b: Engine, events: seq<PollEvent>, listenFd: Fd, i: nat, dry: set<Fd>, listenerDry: bool) {
    forall key: int {:trigger UnsealedStep(a, b, key)} :: UnsealedStep(a, b, key) ==> BatchParts(a, b, events, listenFd, i, dry, listenerDry)
  }

  lemma UnsealBatch(a: Engine, b: Engine, events: seq<PollEvent>, listenFd: Fd, i: nat, dry: set<Fd>, listenerDry: bool)
    requires BatchSoFar(a, b, events, listenFd, i, dry, listenerDry)
    ensures BatchParts(a, b, events, listenFd, i, dry, listenerDry)
  {
    assert UnsealedStep(a, b, 0);
  }

  lemma DealtStill(rules: HttpRules, a: Engine, b: Engine, c: Engine, event: PollEvent, dry: set<Fd>, dry': set<Fd>)
    requires Valid(rules, a) && Ran(a, b) && Ran(b, c) && Dealt(a, b, event, dry)
    requires event.fd in b.clients && event.fd in c.clients ==> Undisturbed(b, c, event.fd)
    requires event.fd in dry ==> event.fd in dry'
    ensures Dealt(a, c, event, dry')
  {
    GoneForGood(rules, a, b, c);
  }

  lemma DealtNow(a: Engine, b: Engine, c: Engine, event: PollEvent, dry: set<Fd>)
    requires Undisturbed(a, b, event.fd) && Dealt(b, c, event, dry)
    ensures Dealt(a, c, event, dry)
  {
  }

  lemma SameAddressee(a: Engine, b: Engine, events: seq<PollEvent>, listenFd: Fd, i: nat, dry: set<Fd>, listenerDry: bool)
    requires BatchSoFar(a, b, events, listenFd, i, dry, listenerDry) && i < |events|
    ensures AddresseeOf(events[i], listenFd, b.clients) == AddresseeOf(events[i], listenFd, a.clients)
  {
    UnsealBatch(a, b, events, listenFd, i, dry, listenerDry);
  }

  lemma BatchOneMore(rules: HttpRules, a: Engine, b: Engine, c: Engine, events: seq<PollEvent>, listenFd: Fd, i: nat,
                     dry: set<Fd>, listenerDry: bool, dry': set<Fd>, listenerDry': bool)
    requires Valid(rules, a) && Ran(a, b) && Ran(b, c) && BatchSoFar(a, b, events, listenFd, i, dry, listenerDry) && i < |events|
    requires forall j, k :: 0 <= j < k < |events| ==> events[j].fd != events[k].fd
    requires forall f :: f in b.clients && f != events[i].fd ==> Undisturbed(b, c, f)
    requires dry' - {events[i].fd} == dry - {events[i].fd}
    requires if events[i].fd == listenFd then events[i].readable ==> listenerDry'
             else listenerDry' == listenerDry && Dealt(b, c, events[i], dry')
    ensures BatchSoFar(a, c, events, listenFd, i + 1, dry', listenerDry')
  {
    UnsealBatch(a, b, events, listenFd, i, dry, listenerDry);
    forall j | 0 <= j < i + 1 && events[j].fd != listenFd ensures Dealt(a, c, events[j], dry') {
      if j < i {
        assert events[j].fd in dry ==> events[j].fd in dry - {events[i].fd};
        DealtStill(rules, a, b, c, events[j], dry, dry');
      } else {
        DealtNow(a, b, c, events[i], dry');
      }
    }
  }

  // What stays true of a call of the poller, seen from a later state b.
  ghost predicate PollKept(rules: HttpRules, p: Poll, b: Engine, listenFd: Fd) {
    && Valid(rules, p.at) && Ran(p.at, b) && SleepsRight(p.at, p.sleep)
    && (forall i :: 0 <= i < |p.events| && p.events[i].fd != listenFd ==> p.events[i].fd in p.at.clients)
    && (forall i :: 0 <= i < |p.events| && p.events[i].fd != listenFd && p.events[i].hangup ==>
          !OwnedBy(b, p.events[i].fd, p.at.clients[p.events[i].fd].connectionId))
  }

  lemma PollKeptLater(rules: HttpRules, p: Poll, b: Engine, c: Engine, listenFd: Fd)
    requires PollKept(rules, p, b, listenFd) && Ran(b, c)
    ensures PollKept(rules, p, c, listenFd)
  {
    RanTrans(p.at, b, c);
    GoneForGood(rules, p.at, b, c);
  }

  lemma PollsKeptLater(rules: HttpRules, polls: seq<Poll>, n: nat, b: Engine, c: Engine, listenFd: Fd, p: Poll)
    requires Ran(b, c) && forall i :: n <= i < |polls| ==> PollKept(rules, polls[i], b, listenFd)
    requires PollKept(rules, p, c, listenFd)
    ensures forall i :: n <= i < |polls + [p]| ==> PollKept(rules, (polls + [p])[i], c, listenFd)
  {
    forall i | n <= i < |polls + [p]| ensures PollKept(rules, (polls + [p])[i], c, listenFd) {
      if i < |polls| {
        PollKeptLater(rules, polls[i], b, c, listenFd);
      }
    }
  }

  // ... and what it has led to by the end of its round.
  ghost predicate PollServed(p: Poll, b: Engine, listenFd: Fd, dry: set<Fd>, listenerDry: bool) {
    forall i :: 0 <= i < |p.events| ==>
      if p.events[i].fd == listenFd then p.events[i].readable ==> listenerDry else Dealt(p.at, b, p.events[i], dry)
  }

  lemma PollServedStill(rules: HttpRules, p: Poll, b: Engine, c: Engine, listenFd: Fd, dry: set<Fd>, listenerDry: bool)
    requires Valid(rules, p.at) && Ran(p.at, b) && Ran(b, c) && PollServed(p, b, listenFd, dry, listenerDry)
    requires forall fd :: fd in c.clients ==> Undisturbed(b, c, fd)
    ensures PollServed(p, c, listenFd, dry, listenerDry)
  {
    forall i | 0 <= i < |p.events| && p.events[i].fd != listenFd ensures Dealt(p.at, c, p.events[i], dry) {
      DealtStill(rules, p.at, b, c, p.events[i], dry, dry);
    }
  }

  // A round that began in e0, polled, dealt with the batch by e2 and closed what was due by e3.
  lemma RoundIsServed(rules: HttpRules, e0: Engine, p: Poll, e2: Engine, e3: Engine, listenFd: Fd, dry: set<Fd>, listenerDry: bool)
    requires Valid(rules, e0) && Valid(rules, p.at) && Ran(e0, p.at) && Ran(p.at, e2) && Ran(e2, e3)
    requires QueueAdvanced(e0, p.at) && SleepsRight(p.at, p.sleep)
    requires forall event :: event in p.events && event.fd != listenFd ==> event.fd in p.at.clients
    requires PollServed(p, e2, listenFd, dry, listenerDry)
    requires forall fd :: fd in e3.clients ==> Undisturbed(e2, e3, fd)
    ensures Ran(e0, e3) && QueueAdvanced(e0, e3)
    ensures PollKept(rules, p, e3, listenFd) && PollServed(p, e3, listenFd, dry, listenerDry)
  {
    RanTrans(e0, p.at, e2);
    RanTrans(e0, e2, e3);
    RanTrans(p.at, e2, e3);
    QueueAdvancedLater(rules, e0, p.at, e3);
    PollServedStill(rules, p, e2, e3, listenFd, dry, listenerDry);
  }

  // All connections that the events of some calls of the poller were meant for, and the calls as
  // the kernel saw them.
  ghost function Dispatches(polls: seq<Poll>, listenFd: Fd): seq<(Fd, nat)> {
    if polls == [] then []
    else
      var p := polls[|polls| - 1];
      Dispatches(polls[..|polls| - 1], listenFd) + Addressees(p.events, listenFd, p.at.clients)
  }

  ghost function Batches(polls: seq<Poll>): seq<Batch> {
    seq(|polls|, i requires 0 <= i < |polls| => Batch(polls[i].sleep.timeoutMs, polls[i].events))
  }

  // The calls on record, from the n-th on, are those the kernel saw and all that was dispatched for.
  ghost predicate PolledSince(rules: HttpRules, polls: seq<Poll>, n: nat, b: Engine, listenFd: Fd,
                              batches: seq<Batch>, batches': seq<Batch>, dispatched: seq<(Fd, nat)>, dispatched': seq<(Fd, nat)>) {
    && n <= |polls| && batches' == batches + Batches(polls[n..])
    && dispatched' == dispatched + Dispatches(polls[n..], listenFd)
    && (forall i :: n <= i < |polls| ==> PollKept(rules, polls[i], b, listenFd))
  }

  lemma DispatchedOnceMore(polls: seq<Poll>, p: Poll, listenFd: Fd, dispatched: seq<(Fd, nat)>)
    ensures dispatched + Dispatches(polls, listenFd) + Addressees(p.events, listenFd, p.at.clients)
         == dispatched + Dispatches(polls + [p], listenFd)
  {
    assert (polls + [p])[..|polls|] == polls;
    AddedLast(dispatched, Dispatches(polls, listenFd), Addressees(p.events, listenFd, p.at.clients));
  }

  lemma AddedLast<T>(a: seq<T>, b: seq<T>, c: seq<T>)
    ensures a + b + c == a + (b + c)
  {
  }

  lemma BatchedOnceMore(polls: seq<Poll>, p: Poll, batches: seq<Batch>)
    ensures batches + Batches(polls) + [Batch(p.sleep.timeoutMs, p.events)] == batches + Batches(polls + [p])
  {
    assert Batches(polls + [p]) == Batches(polls) + [Batch(p.sleep.timeoutMs, p.events)];
  }

  lemma BehindFrom<T>(all: seq<T>, n: nat, x: T)
    requires n <= |all|
    ensures (all + [x])[n..] == all[n..] + [x]
  {
  }

  lemma PolledOnceMore(rules: HttpRules, polls: seq<Poll>, n: nat, b: Engine, c: Engine, listenFd: Fd, p: Poll,
                       batches: seq<Batch>, batches': seq<Batch>, dispatched: seq<(Fd, nat)>, dispatched': seq<(Fd, nat)>)
    requires PolledSince(rules, polls, n, b, listenFd, batches, batches', dispatched, dispatched')
    requires Ran(b, c) && PollKept(rules, p, c, listenFd)
    ensures PolledSince(rules, polls + [p], n, c, listenFd, batches, batches' + [Batch(p.sleep.timeoutMs, p.events)],
                        dispatched, dispatched' + Addressees(p.events, listenFd, p.at.clients))
  {
    PollsKeptLater(rules, polls, n, b, c, listenFd, p);
    BehindFrom(polls, n, p);
    DispatchedOnceMore(polls[n..], p, listenFd, dispatched);
    BatchedOnceMore(polls[n..], p, batches);
  }

  // Of the connections that a had queued with a header waiting, those still there have got on.
  ghost predicate QueueAdvanced(a: Engine, b: Engine) {
    forall fd :: fd in a.ready && HeaderWaiting(a, fd) && OwnedBy(b, fd, a.clients[fd].connectionId) ==> Advanced(a, b, fd)
  }

  lemma QueueAdvancedLater(rules: HttpRules, a: Engine, b: Engine, c: Engine)
    requires Valid(rules, a) && Ran(a, b) && Ran(b, c) && QueueAdvanced(a, b)
    ensures QueueAdvanced(a, c)
  {
    GoneForGood(rules, a, b, c);
    Unseal(rules, a);
    RunOf(a, b);
    RunOf(b, c);
    forall fd | fd in a.ready && HeaderWaiting(a, fd) && OwnedBy(c, fd, a.clients[fd].connectionId) ensures Advanced(a, c, fd) {
      assert Advanced(a, b, fd) && LivedOn(a, b, fd) && LivedOn(b, c, fd);
    }
  }

  // Where a round that found the connection in state a stands after answering n requests.
  ghost predicate InRound(rules: HttpRules, a: Engine, b: Engine, fd: Fd, n: nat) {
    fd in b.clients ==>
      && fd in a.clients && fd in a.journal && Healthy(rules, b, fd)
      && !b.clients[fd].waitingForRequestBody && SameFlags(a.clients[fd], b.clients[fd])
      && |b.journal[fd].requests| == |a.journal[fd].requests| + n
      && (if n == 0 then b == a else
            && HasCompleteHeader(a.clients[fd].inputBuffer)
            && !b.clients[fd].headerTimeout.armed && !b.clients[fd].idleTimeout.armed)
  }

  // ... and when there is nothing more for it to do: no header is left, five have been answered,
  // or a body has begun.
  ghost predicate RoundOver(rules: HttpRules, a: Engine, b: Engine, fd: Fd) {
    fd in b.clients ==>
      && fd in a.clients && fd in a.journal && Rested(rules, b, fd) && SameFlags(a.clients[fd], b.clients[fd])
      && (b.clients[fd].waitingForRequestBody ==> b.journal[fd].deadlines == map[BodyTimer := BodyDeadline(b, fd)])
      && |b.journal[fd].requests| <= |a.journal[fd].requests| + 5
      && (b.clients[fd].waitingForRequestBody || !HasCompleteHeader(b.clients[fd].inputBuffer) || LastHadBody(b.journal[fd].requests)
          || |b.journal[fd].requests| == |a.journal[fd].requests| + 5)
      && (if !HasCompleteHeader(a.clients[fd].inputBuffer) then b == a else
            && (b.clients[fd].waitingForRequestBody || |b.journal[fd].requests| > |a.journal[fd].requests|)
            && (b.clients[fd].waitingForRequestBody || (!b.clients[fd].headerTimeout.armed && !b.clients[fd].idleTimeout.armed)))
  }

  // What a chunk that has just been received makes of a connection that survives it.
  ghost predicate FedAsDue(before: Engine, after: Engine, fd: Fd, chunk: string) {
    fd in after.clients ==>
      && fd in before.clients && fd in before.journal && fd in after.journal
      && (var c, c' := before.clients[fd], after.clients[fd];
          // a header is left behind exactly when the chunk completes a body in front of it, the
          // response is out and the connection is not queued anyway
          && (Stalled(c') <==> HeaderBehindBody(c, chunk) && !c.inReadyQueue && c'.outputBuffer == "")
          // if a request has been answered, the connection is left without a clock exactly when the
          // response is out, it is not queued, no body is pending, and a body was completed or a
          // read is still postponed; if none has, exactly when it was before, a read is postponed
          // and no body has begun
          && (Unwatched(c') <==>
              if |after.journal[fd].requests| > |before.journal[fd].requests| then
                && c'.outputBuffer == "" && !c'.inReadyQueue && !c'.waitingForRequestBody
                && (CompletesBody(c, chunk) || c'.readyForRead)
              else Unwatched(c) && c.readyForRead && !c'.waitingForRequestBody)
          // the header it belongs to is within the limit
          && (!c.waitingForRequestBody ==> !HeaderExceedsLimit(c.inputBuffer + chunk, MAX_HEADER_BYTES))
          // a header that is complete now has been dealt with
          && (!c.waitingForRequestBody && HasCompleteHeader(c.inputBuffer + chunk) ==> Advanced(before, after, fd))
          // and one that is left over comes after five others or after a body
          && (!c.waitingForRequestBody && HasCompleteHeader(c'.inputBuffer) ==>
                || |after.journal[fd].requests| == |before.journal[fd].requests| + 5
                || LastHadBody(after.journal[fd].requests))
          // a pending body is all that a chunk completes
          && (c.waitingForRequestBody ==>
                |after.journal[fd].requests| == |before.journal[fd].requests| + (if CompletesBody(c, chunk) then 1 else 0))
          && c'.readyForRead == c.readyForRead && (c'.inReadyQueue == c.inReadyQueue || HasCompleteHeader(c'.inputBuffer))
          && BodyTimersKept(before, after, fd))
  }

  // A connection that has been through the closing entry holds nothing any more.
  predicate Retired(c: ClientConnection) {
    && c.closing && !c.inReadyQueue && !c.readyForRead && c.BufferedBytes() == 0
    && !c.headerTimeout.armed && !c.bodyTimeout.armed && !c.idleTimeout.armed
    && !c.waitingForRequestBody && c.pendingBodyBytesTotal == c.pendingBodyBytesRemaining == 0
  }

  // Marked closing, out of the queue, timers disarmed, body state and buffers cleared.
  function Retire(c: ClientConnection): (r: ClientConnection)
    ensures Retired(r)
  {
    DisarmAll(c.(closing := true, inReadyQueue := false, readyForRead := false)).(
      waitingForRequestBody := false, pendingRequest := EMPTY_REQUEST,
      pendingBodyBytesTotal := 0, pendingBodyBytesRemaining := 0, inputBuffer := "", outputBuffer := "")
  }

  class Server {
    const rules: HttpRules
    const kernel: Kernel
    const limiter: RateLimiter.IpRateLimiter
    const log: MetricsLog
    const trace: Trace

    var clients: map<Fd, ClientConnection>
    var readyQueue: seq<Fd>
    var pendingCloseQueue: seq<ClientConnection>
    var timerHeap: multiset<TimerEntry>
    var activeConnectionCount: nat
    var nextConnectionId: nat
    var globalInflightBytes: nat
    var metrics: Metrics
    ghost var journal: map<Fd, Journal>
    ghost var fate: map<nat, Option<Fd>>
    ghost var closeLog: seq<CloseRecord>

    ghost function View(): Engine
      reads this, kernel
    {
      Engine(clients, journal, kernel.sockets, kernel.interest, readyQueue, timerHeap, globalInflightBytes,
             activeConnectionCount, nextConnectionId, fate, closeLog, metrics)
    }

    // What is to be seen of a connection that is about to be closed.
    ghost function Seen(fd: Fd, asked: nat): Evidence
      reads this, kernel, kernel.inputs, kernel.poller
    {
      Evidence(fd in kernel.inputs.ended, fd in kernel.inputs.broken, fd in kernel.broken, SocketFull(View(), fd), kernel.poller.HungUp(fd),
               kernel.clock, activeConnectionCount, globalInflightBytes, asked)
    }

    // What holds between any two elementary changes.
    ghost predicate Consistent()
      reads this, kernel
    {
      Shape(rules, View()) && forall c :: c in pendingCloseQueue ==> Retired(c)
    }

    ghost predicate Ok()
      reads this, kernel
    {
      Consistent() && Counted(View())
    }

    // What holds whenever the event loop is between two handlers.
    ghost predicate Running()
      reads this, kernel, kernel.listener, limiter, log
    {
      Valid(rules, View()) && Surroundings() && OnRecord()
    }

    // The limiter's record and the tables tell the same story: the k-th arrival on record is that of
    // the k-th socket accepted, the k-th admission is connection number k, and every other arrival
    // was answered with 429.
    ghost predicate OnRecord()
      reads this, kernel.listener, limiter
    {
      forall key: int {:trigger Consulted(key)} :: Consulted(key) ==>
        && nextConnectionId == |RateLimiter.AdmittedLog(limiter.events)| + 1 && metrics.reject429 == RateLimiter.Refusals(limiter.events)
        && RateLimiter.CameFrom(RateLimiter.Arrivals(limiter.events), kernel.listener.accepted)
    }

    // So it does between an admission and the registration that follows it, with one id to come ...
    ghost predicate AboutToConnect()
      reads this, kernel.listener, limiter
    {
      forall key: int {:trigger Consulted(key)} :: Consulted(key) ==>
        && nextConnectionId == |RateLimiter.AdmittedLog(limiter.events)| && metrics.reject429 == RateLimiter.Refusals(limiter.events)
        && RateLimiter.CameFrom(RateLimiter.Arrivals(limiter.events), kernel.listener.accepted)
    }

    // ... and before, with one arrival to come.
    ghost predicate AboutToArrive(endpoint: string)
      reads this, kernel.listener, limiter
    {
      forall key: int {:trigger Consulted(key)} :: Consulted(key) ==>
        && nextConnectionId == |RateLimiter.AdmittedLog(limiter.events)| + 1 && metrics.reject429 == RateLimiter.Refusals(limiter.events)
        && RateLimiter.CameFrom(RateLimiter.Arrivals(limiter.events) + [RateLimiter.ExtractIpFromPeerEndpoint(endpoint)],
                                kernel.listener.accepted)
    }

    // The parts that have nothing to do with the connection tables.
    ghost predicate Surroundings()
      reads this, kernel, limiter, log
    {
      && (forall c :: c in pendingCloseQueue ==> Retired(c))
      && LimiterOk() && limiter.horizon <= kernel.clock
      && log.nextTime <= kernel.clock + METRICS_LOG_INTERVAL
      && kernel.listenFd !in kernel.sockets
    }

    // The limiter looks after itself: its invariant comes into view only where it is called.
    ghost predicate LimiterOk()
      reads this, limiter
    {
      forall key: int {:trigger Consulted(key)} :: Consulted(key) ==> limiter.Valid()
    }

    ghost predicate Consulted(key: int) {
      true
    }

    constructor (listenFd: Fd)
      ensures rules == HTTP_RULES && kernel.listenFd == listenFd && fresh(kernel) && fresh(limiter) && fresh(log)
      ensures fresh(kernel.inputs) && fresh(kernel.listener) && fresh(kernel.poller) && kernel.poller.batches == []
      ensures fresh(trace) && trace.served == [] && trace.dispatched == [] && trace.polls == []
      ensures Running()
    {
      rules := HTTP_RULES;
      kernel := new Kernel(listenFd);
      limiter := new RateLimiter.IpRateLimiter();
      log := new MetricsLog(0);
      trace := new Trace();
      clients, readyQueue, pendingCloseQueue, timerHeap := map[], [], [], multiset{};
      activeConnectionCount, nextConnectionId, globalInflightBytes := 0, 1, 0;
      metrics := ZERO_METRICS;
      journal, fate, closeLog := map[], map[], [];
      new;
      NothingYetIsValid(rules);
      assert View() == NOTHING_YET;
    }

    // ------------------------------------------------------------ counters

    method RecordErrorMetric()
      modifies `metrics
      ensures metrics == WithError(old(metrics))
    {
      metrics := metrics.(errorsTotal := metrics.errorsTotal + 1);
    }

    method RecordRejectMetric(status: nat)
      modifies `metrics
      ensures metrics == Rejecting(old(metrics), status)
    {
      metrics := metrics.(rejectTotal := metrics.rejectTotal + 1);
      match status {
        case 411 => metrics := metrics.(reject411 := metrics.reject411 + 1);
        case 413 => metrics := metrics.(reject413 := metrics.reject413 + 1);
        case 429 => metrics := metrics.(reject429 := metrics.reject429 + 1);
        case 431 => metrics := metrics.(reject431 := metrics.reject431 + 1);
        case 501 => metrics := metrics.(reject501 := metrics.reject501 + 1);
        case 503 => metrics := metrics.(reject503 := metrics.reject503 + 1);
        case _ =>
      }
    }

    // ------------------------------------------------------------ global byte budget

    // The clamp never takes effect where the engine calls this: see CloseNeverUnderflows.
    method ReleaseInflightBytes(releaseBytes: nat)
      modifies `globalInflightBytes, `metrics
      ensures globalInflightBytes == if releaseBytes >= old(globalInflightBytes) then 0 else old(globalInflightBytes) - releaseBytes
      ensures metrics == old(metrics).(inflightCurrent := globalInflightBytes)
    {
      if releaseBytes >= globalInflightBytes {
        globalInflightBytes := 0;
        metrics := metrics.(inflightCurrent := 0);
        return;
      }
      globalInflightBytes := globalInflightBytes - releaseBytes;
      metrics := metrics.(inflightCurrent := globalInflightBytes);
    }

    // ------------------------------------------------------------ elementary changes

    // Overwrites the record of one connection, buffers keeping their sizes.
    method Store(fd: Fd, c: ClientConnection, ghost j: Journal)
      requires Ok() && fd in clients && !c.closing
      requires Grown(clients[fd], journal[fd], kernel.sockets[fd], c, j, kernel.sockets[fd])
      requires j.deadlines == journal[fd].deadlines && j.requests == journal[fd].requests
      requires c.inReadyQueue == clients[fd].inReadyQueue
      requires forall kind :: c.TimerOf(kind) == clients[fd].TimerOf(kind)
      requires c.BufferedBytes() == clients[fd].BufferedBytes()
      modifies `clients, `journal
      ensures Ok() && Served(old(View()), View(), fd)
      ensures clients == old(clients)[fd := c] && journal == old(journal)[fd := j]
    {
      RewriteIsServing(rules, View(), fd, c, j, globalInflightBytes);
      clients := clients[fd := c];
      journal := journal[fd := j];
    }

    // Puts back a record whose buffers have grown, counting the new bytes.
    method StoreGrown(fd: Fd, c: ClientConnection, addBytes: nat)
      requires Ok() && fd in clients && !c.closing && globalInflightBytes + addBytes <= MAX_INFLIGHT_BYTES
      requires c.BufferedBytes() == clients[fd].BufferedBytes() + addBytes
      requires c == clients[fd].(inputBuffer := c.inputBuffer, outputBuffer := c.outputBuffer)
      modifies `clients, `globalInflightBytes, `metrics
      ensures Ok() && Served(old(View()), View(), fd)
      ensures clients == old(clients)[fd := c] && globalInflightBytes == old(globalInflightBytes) + addBytes
    {
      RewriteIsServing(rules, View(), fd, c, journal[fd], globalInflightBytes + addBytes);
      SameEntry(journal, fd);
      clients := clients[fd := c];
      globalInflightBytes := globalInflightBytes + addBytes;
      metrics := metrics.(inflightCurrent := globalInflightBytes);
    }

    // Puts back a record whose buffers have shrunk, giving the bytes back to the budget.
    method StoreShrunk(fd: Fd, c: ClientConnection, lessBytes: nat)
      requires Ok() && fd in clients && !c.closing && c.BufferedBytes() + lessBytes == clients[fd].BufferedBytes()
      requires c == clients[fd].(inputBuffer := c.inputBuffer, outputBuffer := c.outputBuffer)
      modifies `clients, `globalInflightBytes, `metrics
      ensures Ok() && Served(old(View()), View(), fd)
      ensures clients == old(clients)[fd := c] && globalInflightBytes == old(globalInflightBytes) - lessBytes
    {
      CloseNeverUnderflows(rules, View(), fd);
      RewriteIsServing(rules, View(), fd, c, journal[fd], globalInflightBytes - lessBytes);
      SameEntry(journal, fd);
      clients := clients[fd := c];
      ReleaseInflightBytes(lessBytes);
    }

    // Takes a prefix off the input buffer and gives its bytes back to the budget.
    method ConsumeInput(fd: Fd, n: nat)
      requires Ok() && fd in clients && n <= |clients[fd].inputBuffer|
      modifies `clients, `globalInflightBytes, `metrics
      ensures Ok() && Served(old(View()), View(), fd)
      ensures clients == old(clients)[fd := old(clients)[fd].(inputBuffer := old(clients)[fd].inputBuffer[n..])]
      ensures globalInflightBytes == old(globalInflightBytes) - n
    {
      StoreShrunk(fd, clients[fd].(inputBuffer := clients[fd].inputBuffer[n..]), n);
    }

    // Takes a prefix off the output buffer and gives its bytes back to the budget.
    method ConsumeOutput(fd: Fd, n: nat)
      requires Ok() && fd in clients && n <= |clients[fd].outputBuffer|
      modifies `clients, `globalInflightBytes, `metrics
      ensures Ok() && Served(old(View()), View(), fd)
      ensures clients == old(clients)[fd := old(clients)[fd].(outputBuffer := old(clients)[fd].outputBuffer[n..])]
      ensures globalInflightBytes == old(globalInflightBytes) - n
    {
      StoreShrunk(fd, clients[fd].(outputBuffer := clients[fd].outputBuffer[n..]), n);
    }

    // Any of the three disarm operations.
    method DisarmTimeout(fd: Fd, kind: TimerKind)
      requires Ok() && fd in clients
      modifies `clients, `journal
      ensures Ok() && Served(old(View()), View(), fd)
      ensures clients == old(clients)[fd := old(clients)[fd].Disarm(kind)]
      ensures journal == old(journal)[fd := old(journal)[fd].Disarm(kind)]
    {
      DisarmIsServing(rules, View(), fd, kind);
      if !clients[fd].TimerOf(kind).armed {
        return;
      }
      clients := clients[fd := clients[fd].Disarm(kind)];
      journal := journal[fd := journal[fd].Disarm(kind)];
    }

    // Marks a timer armed under a fresh generation and pushes its node.
    method PushTimer(fd: Fd, kind: TimerKind, deadline: int)
      requires Ok() && fd in clients
      modifies `clients, `journal, `timerHeap
      ensures Ok() && Served(old(View()), View(), fd)
      ensures clients == old(clients)[fd := old(clients)[fd].Arm(kind)]
      ensures journal == old(journal)[fd := old(journal)[fd].Arm(kind, deadline)]
    {
      ArmIsServing(rules, View(), fd, kind, deadline);
      clients := clients[fd := clients[fd].Arm(kind)];
      timerHeap := timerHeap + multiset{NodeOf(fd, clients[fd], kind, deadline)};
      journal := journal[fd := journal[fd].Arm(kind, deadline)];
    }

    method ArmHeaderTimeout(fd: Fd, now: int)
      requires Ok()
      modifies `clients, `journal, `timerHeap
      ensures Ok() && Served(old(View()), View(), fd)
      ensures fd in old(clients) ==>
        && clients == old(clients)[fd := old(clients)[fd].Disarm(IdleTimer).Arm(HeaderTimer)]
        && journal == old(journal)[fd := old(journal)[fd].Disarm(IdleTimer).Arm(HeaderTimer, now + HEADER_TIMEOUT)]
        && TimersMoved(old(View()), View(), fd) && Waits(View(), fd, HeaderTimer, now + 10_000 * MS)
      ensures fd !in old(clients) ==> View() == old(View())
    {
      ServedRefl(rules, View(), fd);
      if fd !in clients || clients[fd].closing {
        return;
      }
      ghost var e0 := View();
      DisarmTimeout(fd, IdleTimer);
      ghost var e1 := View();
      PushTimer(fd, HeaderTimer, now + HEADER_TIMEOUT);
      ServedTrans(e0, e1, View(), fd);
      ArmedTimersMove(e0, View(), fd, HeaderTimer, IdleTimer, now + HEADER_TIMEOUT);
    }

    method ArmIdleKeepAliveTimeout(fd: Fd, now: int)
      requires Ok()
      modifies `clients, `journal, `timerHeap
      ensures Ok() && Served(old(View()), View(), fd)
      ensures fd in old(clients) ==>
        && clients == old(clients)[fd := old(clients)[fd].Disarm(HeaderTimer).Arm(IdleTimer)]
        && journal == old(journal)[fd := old(journal)[fd].Disarm(HeaderTimer).Arm(IdleTimer, now + IDLE_KEEP_ALIVE_TIMEOUT)]
        && TimersMoved(old(View()), View(), fd) && Waits(View(), fd, IdleTimer, now + 60_000 * MS)
      ensures fd !in old(clients) ==> View() == old(View())
    {
      ServedRefl(rules, View(), fd);
      if fd !in clients || clients[fd].closing {
        return;
      }
      ghost var e0 := View();
      DisarmTimeout(fd, HeaderTimer);
      ghost var e1 := View();
      PushTimer(fd, IdleTimer, now + IDLE_KEEP_ALIVE_TIMEOUT);
      ServedTrans(e0, e1, View(), fd);
      ArmedTimersMove(e0, View(), fd, IdleTimer, HeaderTimer, now + IDLE_KEEP_ALIVE_TIMEOUT);
    }

    method EnqueueReadyConnection(fd: Fd)
      requires Ok()
      modifies `clients, `journal, `readyQueue
      ensures Ok() && Served(old(View()), View(), fd)
      ensures fd in old(clients) ==> View() == Enqueued(old(View()), fd)
      ensures fd !in old(clients) ==> View() == old(View())
    {
      ServedRefl(rules, View(), fd);
      if fd !in clients || clients[fd].closing {
        return;
      }
      EnqueueIsServing(rules, View(), fd);
      if clients[fd].inReadyQueue {
        return;
      }
      SameEntry(journal, fd);
      clients := clients[fd := clients[fd].(inReadyQueue := true)];
      readyQueue := readyQueue + [fd];
    }

    method UpdateClientPollMask(fd: Fd)
      requires Ok()
      modifies kernel`interest
      ensures Ok() && Served(old(View()), View(), fd)
      ensures fd in clients ==> View() == Masked(old(View()), fd)
      ensures fd !in clients ==> View() == old(View())
    {
      ServedRefl(rules, View(), fd);
      if fd !in clients || clients[fd].closing {
        return;
      }
      MaskIsServing(rules, View(), fd);
      kernel.EpollModify(fd, PollMask(true, clients[fd].outputBuffer != "", true));
    }

    // ------------------------------------------------------------ closing

    // The state changes of closing: out of the queue and the poller, socket closed, timers and
    // buffers gone, record moved to the pending queue.
    method TearDown(fd: Fd, ghost record: CloseRecord)
      requires fd in clients && fd in kernel.interest && fd in kernel.sockets
      requires clients[fd].BufferedBytes() <= globalInflightBytes && activeConnectionCount > 0
      modifies `clients, `readyQueue, `pendingCloseQueue, `activeConnectionCount, `globalInflightBytes, `metrics,
               `journal, `fate, `closeLog, kernel`interest, kernel`sockets
      ensures View() == Closed(old(View()), fd, record)
      ensures pendingCloseQueue == old(pendingCloseQueue) + [Retire(old(clients)[fd])]
    {
      var c := clients[fd].(closing := true);
      if activeConnectionCount > 0 {
        activeConnectionCount := activeConnectionCount - 1;
      }
      metrics := metrics.(connsCurrent := activeConnectionCount);
      c := c.(inReadyQueue := false, readyForRead := false);
      readyQueue := Without(readyQueue, fd);
      kernel.EpollRemove(fd);
      kernel.Close(fd);
      ReleaseInflightBytes(c.BufferedBytes());
      fate := fate[c.connectionId := None];
      closeLog := closeLog + [record];
      journal := journal - {fd};
      clients := clients - {fd};
      pendingCloseQueue := pendingCloseQueue + [Retire(c)];
    }

    // The only way out for a connection. The counters already include this closing.
    method CloseClientConnection(fd: Fd, reason: CloseReason, ghost okBytes: nat, ghost asked: nat := 0)
      requires Consistent()
      requires fd in clients ==> ClosedOk(rules, RecordOf(View(), fd, reason, okBytes, Seen(fd, asked)))
      requires if fd in clients then CountsOk(metrics, Reasons(closeLog) + multiset{reason}) else Counted(View())
      modifies `clients, `readyQueue, `pendingCloseQueue, `activeConnectionCount, `globalInflightBytes, `metrics,
               `journal, `fate, `closeLog, kernel`interest, kernel`sockets
      ensures Ok() && Served(old(View()), View(), fd)
      ensures fd !in old(clients) ==> View() == old(View())
      ensures fd in old(clients) ==>
        old(clients)[fd].BufferedBytes() <= old(globalInflightBytes) && old(activeConnectionCount) > 0 &&
        View() == Closed(old(View()), fd, RecordOf(old(View()), fd, reason, okBytes, old(Seen(fd, asked))))
        && closeLog == old(closeLog) + [RecordOf(old(View()), fd, reason, okBytes, old(Seen(fd, asked)))]
    {
      ServedRefl(rules, View(), fd);
      if fd !in clients || clients[fd].closing {
        return;
      }
      ghost var record := RecordOf(View(), fd, reason, okBytes, Seen(fd, asked));
      CloseNeverUnderflows(rules, View(), fd);
      CloseKeepsShape(rules, View(), fd, record);
      CloseIsServing(rules, View(), fd, record);
      OneMoreReason(closeLog, record);
      TearDown(fd, record);
    }

    // Counts a rejection, ahead of the closing that follows.
    method RecordRejection(fd: Fd, status: nat)
      requires Ok() && status in {400, 411, 413, 431, 501, 503}
      modifies `metrics
      ensures Consistent() && Served(old(View()), View(), fd)
      ensures CountsOk(metrics, Reasons(closeLog) + multiset{ErrorPage(status)})
    {
      ghost var e0 := View();
      RecordRejectMetric(status);
      RecordErrorMetric();
      RejectionIsCounted(e0, status);
      RejectionIsAside(rules, e0, fd, status);
    }

    // The error page has gone out behind what had been sent before, all of it unless the socket is
    // full or broken.
    ghost predicate PageWritten(fd: Fd, before: Stream, status: nat)
      reads kernel
    {
      && fd in kernel.sockets && before.sent <= kernel.sockets[fd].sent
      && (var page := kernel.sockets[fd].sent[|before.sent|..];
          && page <= rules.errorResponse(status)
          && (page == rules.errorResponse(status) || kernel.sockets[fd].full || fd in kernel.broken))
    }

    // Writes the error page behind what has been sent, as far as the socket takes it.
    method WriteErrorPage(fd: Fd, status: nat)
      requires Consistent() && fd in clients && OnTrack(rules, View(), fd)
      modifies kernel`sockets, kernel`broken
      ensures Consistent() && Served(old(View()), View(), fd)
      ensures fd in kernel.sockets && fd in old(kernel.sockets) && old(kernel.sockets)[fd].sent <= kernel.sockets[fd].sent
      ensures kernel.sockets == old(kernel.sockets)[fd := old(kernel.sockets)[fd].(sent := kernel.sockets[fd].sent, full := kernel.sockets[fd].full)]
      ensures PageWritten(fd, old(kernel.sockets)[fd], status)
    {
      ghost var e0 := View();
      var response := rules.errorResponse(status);
      var complete, count := kernel.WriteBestEffort(fd, response);
      MoveIsServing(rules, e0, fd, kernel.sockets[fd]);
    }

    // Counts the rejection and writes its page: the connection is ready to be closed for it.
    method Reject(fd: Fd, status: nat, ghost asked: nat)
      requires Ok() && status in {400, 411, 413, 431, 501, 503} && fd in clients && OnTrack(rules, View(), fd)
      requires IsVerdict(status) ==> Refuses(rules.parse, kernel.sockets[fd].received, journal[fd].requests, status)
      requires status == 431 ==> Oversized(rules.parse, kernel.sockets[fd].received, journal[fd].requests)
      requires status != 503 ==> Accounted(rules, View(), fd)
      requires status == 503 ==> globalInflightBytes + asked > MAX_INFLIGHT_BYTES
      modifies `metrics, kernel`sockets, kernel`broken
      ensures Consistent() && Served(old(View()), View(), fd)
      ensures CountsOk(metrics, Reasons(closeLog) + multiset{ErrorPage(status)})
      ensures fd in kernel.sockets && fd in old(kernel.sockets)
      ensures var record := RecordOf(View(), fd, ErrorPage(status), |old(kernel.sockets)[fd].sent|, Seen(fd, asked));
              ClosedOk(rules, record) && PageOn(old(View()), fd, record)
    {
      ghost var e0 := View();
      RecordRejection(fd, status);
      ghost var e1 := View();
      WriteErrorPage(fd, status);
      ServedTrans(e0, e1, View(), fd);
      PageIsOnRecord(rules, e0, View(), fd, status, Seen(fd, asked));
    }

    // Closes a connection that has been rejected in state a.
    method CloseRejected(fd: Fd, status: nat, ghost asked: nat, ghost a: Engine)
      requires Consistent() && Served(a, View(), fd) && fd in clients && fd in a.sockets && closeLog == a.closeLog
      requires CountsOk(metrics, Reasons(closeLog) + multiset{ErrorPage(status)}) && fd in kernel.sockets
      requires var record := RecordOf(View(), fd, ErrorPage(status), |a.sockets[fd].sent|, Seen(fd, asked));
               ClosedOk(rules, record) && PageOn(a, fd, record)
      modifies `clients, `readyQueue, `pendingCloseQueue, `activeConnectionCount, `globalInflightBytes, `metrics,
               `journal, `fate, `closeLog, kernel`interest, kernel`sockets
      ensures Ok() && Served(a, View(), fd) && fd !in clients
      ensures |closeLog| == |old(closeLog)| + 1 && closeLog[|old(closeLog)|].reason == ErrorPage(status)
      ensures PageOn(a, fd, closeLog[|old(closeLog)|])
    {
      ghost var e := View();
      ghost var record := RecordOf(e, fd, ErrorPage(status), |a.sockets[fd].sent|, Seen(fd, asked));
      CloseClientConnection(fd, ErrorPage(status), record.okBytes, asked);
      LastOnRecord(e.closeLog, record);
      ServedTrans(a, e, View(), fd);
    }

    // Best effort: whatever part of the error page the socket takes, the connection is closed.
    method SendErrorResponseAndClose(fd: Fd, status: nat, ghost asked: nat := 0)
      requires Ok() && status in {400, 411, 413, 431, 501, 503}
      requires fd in clients ==> OnTrack(rules, View(), fd)
      requires fd in clients && IsVerdict(status) ==>
        Refuses(rules.parse, kernel.sockets[fd].received, journal[fd].requests, status)
      requires fd in clients && status == 431 ==> Oversized(rules.parse, kernel.sockets[fd].received, journal[fd].requests)
      requires fd in clients && status != 503 ==> Accounted(rules, View(), fd)
      requires fd in clients && status == 503 ==> globalInflightBytes + asked > MAX_INFLIGHT_BYTES
      modifies this, kernel
      ensures Ok() && Served(old(View()), View(), fd) && fd !in clients
      ensures fd in old(clients) ==> |closeLog| == |old(closeLog)| + 1 && closeLog[|old(closeLog)|].reason == ErrorPage(status)
      ensures fd in old(clients) ==> PageOn(old(View()), fd, closeLog[|old(closeLog)|])
      ensures kernel.clock == old(kernel.clock)
    {
      ghost var e0 := View();
      ServedRefl(rules, e0, fd);
      if fd !in clients {
        return;
      }
      Reject(fd, status, asked);
      CloseRejected(fd, status, asked, e0);
    }

    method RecordFailure(fd: Fd, reason: CloseReason)
      requires Ok() && (reason == ReadFailed || reason == WriteFailed)
      modifies `metrics
      ensures Consistent() && Served(old(View()), View(), fd)
      ensures CountsOk(metrics, Reasons(closeLog) + multiset{reason})
    {
      ghost var e0 := View();
      RecordErrorMetric();
      FailureIsCounted(e0, reason);
      CountIsServing(rules, e0, fd, metrics);
    }

    // A failed read or write: count it and close.
    method FailConnection(fd: Fd, reason: CloseReason)
      requires Ok() && fd in clients && OnTrack(rules, View(), fd) && (reason == ReadFailed || reason == WriteFailed)
      requires reason == ReadFailed ==> Accounted(rules, View(), fd)
      requires fd in if reason == ReadFailed then kernel.inputs.broken else kernel.broken
      modifies this, kernel
      ensures Ok() && Served(old(View()), View(), fd) && fd !in clients
      ensures |closeLog| == |old(closeLog)| + 1 && closeLog[|old(closeLog)|].reason == reason
      ensures kernel.clock == old(kernel.clock)
    {
      ghost var e0 := View();
      RecordFailure(fd, reason);
      ghost var e1 := View();
      QuietClosing(rules, e1, fd, reason, Seen(fd, 0));
      CloseClientConnection(fd, reason, |kernel.sockets[fd].sent|);
      ServedTrans(e0, e1, View(), fd);
    }

    // Only decides; the counter moves when the bytes are in the buffer.
    method TryReserveInflightBytes(fd: Fd, addBytes: nat) returns (ok: bool)
      requires Ok() && (fd in clients ==> OnTrack(rules, View(), fd))
      modifies this, kernel
      ensures Ok() && Served(old(View()), View(), fd)
      ensures ok ==> View() == old(View()) && globalInflightBytes + addBytes <= MAX_INFLIGHT_BYTES
      ensures !ok ==> fd !in clients
      ensures !ok && fd in old(clients) ==> |closeLog| == |old(closeLog)| + 1 && closeLog[|old(closeLog)|].reason == ErrorPage(503)
      ensures ok <==> addBytes == 0 || old(globalInflightBytes) + addBytes <= 536870912
      ensures kernel.clock == old(kernel.clock)
    {
      ServedRefl(rules, View(), fd);
      if addBytes == 0 {
        return true;
      }
      var overLimit := globalInflightBytes > MAX_INFLIGHT_BYTES || addBytes > MAX_INFLIGHT_BYTES - globalInflightBytes;
      if !overLimit {
        return true;
      }
      SendErrorResponseAndClose(fd, 503, addBytes);
      ok := false;
    }

    method AppendToInputBuffer(fd: Fd, data: string) returns (ok: bool)
      requires Ok() && fd in clients && OnTrack(rules, View(), fd)
      modifies this, kernel
      ensures Ok() && Served(old(View()), View(), fd)
      ensures ok ==> clients == old(clients)[fd := old(clients)[fd].(inputBuffer := old(clients)[fd].inputBuffer + data)]
      ensures ok ==> journal == old(journal) && kernel.sockets == old(kernel.sockets) && kernel.interest == old(kernel.interest)
      ensures !ok ==> fd !in clients && |closeLog| == |old(closeLog)| + 1 && closeLog[|old(closeLog)|].reason == ErrorPage(503)
      ensures kernel.clock == old(kernel.clock)
    {
      ghost var e0 := View();
      ok := TryReserveInflightBytes(fd, |data|);
      if !ok {
        return;
      }
      ghost var e1 := View();
      StoreGrown(fd, clients[fd].(inputBuffer := clients[fd].inputBuffer + data), |data|);
      ServedTrans(e0, e1, View(), fd);
    }

    method AppendToOutputBuffer(fd: Fd, data: string) returns (ok: bool)
      requires Ok() && fd in clients && OnTrack(rules, View(), fd)
      modifies this, kernel
      ensures Ok() && Served(old(View()), View(), fd)
      ensures ok ==> clients == old(clients)[fd := old(clients)[fd].(outputBuffer := old(clients)[fd].outputBuffer + data)]
      ensures ok ==> journal == old(journal) && kernel.sockets == old(kernel.sockets) && kernel.interest == old(kernel.interest)
      ensures !ok ==> fd !in clients && |closeLog| == |old(closeLog)| + 1 && closeLog[|old(closeLog)|].reason == ErrorPage(503)
      ensures kernel.clock == old(kernel.clock)
    {
      ghost var e0 := View();
      ok := TryReserveInflightBytes(fd, |data|);
      if !ok {
        return;
      }
      ghost var e1 := View();
      StoreGrown(fd, clients[fd].(outputBuffer := clients[fd].outputBuffer + data), |data|);
      ServedTrans(e0, e1, View(), fd);
    }

    // Replaces the whole output buffer, which may grow or shrink.
    method ReplaceOutputBuffer(fd: Fd, data: string) returns (ok: bool)
      requires Ok() && fd in clients && OnTrack(rules, View(), fd)
      modifies this, kernel
      ensures Ok() && Served(old(View()), View(), fd)
      ensures ok ==> clients == old(clients)[fd := old(clients)[fd].(outputBuffer := data)]
      ensures ok ==> journal == old(journal) && kernel.sockets == old(kernel.sockets) && kernel.interest == old(kernel.interest)
      ensures !ok ==> fd !in clients && |closeLog| == |old(closeLog)| + 1 && closeLog[|old(closeLog)|].reason == ErrorPage(503)
      ensures kernel.clock == old(kernel.clock)
    {
      ghost var e0 := View();
      var oldSize, newSize := |clients[fd].outputBuffer|, |data|;
      if newSize > oldSize {
        ok := TryReserveInflightBytes(fd, newSize - oldSize);
        if !ok {
          return;
        }
        ghost var e1 := View();
        StoreGrown(fd, clients[fd].(outputBuffer := data), newSize - oldSize);
        ServedTrans(e0, e1, View(), fd);
        return;
      }
      StoreShrunk(fd, clients[fd].(outputBuffer := data), oldSize - newSize);
      ok := true;
    }

    // ------------------------------------------------------------ responses

    // Cancels the waiting timers and settles what the response says about the connection.
    method PrepareOkResponse(fd: Fd, request: HttpRequest) returns (response: string)
      requires Ok() && AwaitsReply(rules, View(), fd, request)
      modifies `clients, `journal
      ensures Ok() && Served(old(View()), View(), fd)
      ensures Owing(rules, View(), fd, response) && View().interest[fd] == MaskFor(clients[fd])
      ensures SameInput(old(clients)[fd], clients[fd])
      ensures journal[fd].requests == old(journal)[fd].requests
      ensures !clients[fd].headerTimeout.armed && !clients[fd].idleTimeout.armed
    {
      ghost var e0 := View();
      AwaitsReplyAfterDisarm(rules, e0, fd, HeaderTimer, request);
      DisarmTimeout(fd, HeaderTimer);
      ghost var e1 := View();
      AwaitsReplyAfterDisarm(rules, e1, fd, IdleTimer, request);
      DisarmTimeout(fd, IdleTimer);
      ghost var e2 := View();
      ServedTrans(e0, e1, e2, fd);
      response := SettleKeepAlive(fd, request);
      ServedTrans(e0, e2, View(), fd);
    }

    method SettleKeepAlive(fd: Fd, request: HttpRequest) returns (response: string)
      requires Ok() && AwaitsReply(rules, View(), fd, request)
      modifies `clients, `journal
      ensures Ok() && Served(old(View()), View(), fd)
      ensures Owing(rules, View(), fd, response) && View().interest[fd] == MaskFor(clients[fd])
      ensures SameInput(old(clients)[fd], clients[fd])
      ensures journal[fd].requests == old(journal)[fd].requests
      ensures clients[fd].headerTimeout == old(clients)[fd].headerTimeout && clients[fd].idleTimeout == old(clients)[fd].idleTimeout
    {
      var c := clients[fd];
      var keepAlive := rules.keepsAlive(request) && !c.closeAfterWrite;
      response := rules.okResponse(keepAlive);
      ReplyIsOwing(rules, View(), fd, request);
      Store(fd, c.(keepAliveEnabled := keepAlive, closeAfterWrite := c.closeAfterWrite || !keepAlive), journal[fd]);
    }

    // Queues what is left of a response and asks for write readiness.
    method QueueResponse(fd: Fd, rest: string)
      requires Ok() && Owing(rules, View(), fd, rest)
      modifies this, kernel
      ensures Ok() && Served(old(View()), View(), fd) && GoneFor(old(View()), View(), fd, Answering)
      ensures fd in clients ==>
        && Healthy(rules, View(), fd) && journal == old(journal) && kernel.sockets == old(kernel.sockets)
        && clients[fd] == old(clients)[fd].(outputBuffer := clients[fd].outputBuffer)
      ensures kernel.clock == old(kernel.clock)
    {
      ghost var e0 := View();
      OwingIsOnTrack(rules, e0, fd, rest);
      var ok;
      if clients[fd].outputBuffer != "" {
        ok := AppendToOutputBuffer(fd, rest);
      } else {
        ok := ReplaceOutputBuffer(fd, rest);
      }
      if !ok {
        return;
      }
      ghost var e1 := View();
      assert e0.clients[fd].outputBuffer == "" ==> "" + rest == rest;
      OwingAfterQueueing(rules, e0, e1, fd, rest);
      UpdateClientPollMask(fd);
      NothingOwing(rules, View(), fd);
      ServedTrans(e0, e1, View(), fd);
    }

    // Queues the response behind earlier output, or writes it.
    method SendOkResponse(fd: Fd, response: string, budget: EventBudget)
      requires Ok() && Owing(rules, View(), fd, response) && View().interest[fd] == MaskFor(clients[fd])
      modifies this, kernel, budget
      ensures Ok() && Served(old(View()), View(), fd) && GoneFor(old(View()), View(), fd, Answering)
      ensures fd in clients ==>
        && Healthy(rules, View(), fd) && journal == old(journal)
        && clients[fd] == old(clients)[fd].(outputBuffer := clients[fd].outputBuffer)
      ensures fd in clients && old(clients)[fd].outputBuffer == "" && old(budget.writeRemaining) > 0 ==>
        budget.writeRemaining < old(budget.writeRemaining) || SocketFull(View(), fd)
      ensures Traffic(old(View()), View(), fd, 0, old(budget.writeRemaining) - budget.writeRemaining)
      ensures budget.writeRemaining <= old(budget.writeRemaining) && budget.readRemaining == old(budget.readRemaining)
      ensures kernel.clock == old(kernel.clock)
    {
      if clients[fd].outputBuffer != "" || budget.writeRemaining == 0 {
        QueueResponse(fd, response);
      } else {
        WriteResponse(fd, response, budget);
      }
    }

    // Writes what the budget and the socket allow of a response, queues the rest.
    method WriteResponse(fd: Fd, response: string, budget: EventBudget)
      requires Ok() && Owing(rules, View(), fd, response) && View().interest[fd] == MaskFor(clients[fd])
      requires clients[fd].outputBuffer == "" && budget.writeRemaining > 0
      modifies this, kernel, budget
      ensures Ok() && Served(old(View()), View(), fd) && GoneFor(old(View()), View(), fd, Answering)
      ensures fd in clients ==>
        && Healthy(rules, View(), fd) && journal == old(journal)
        && clients[fd] == old(clients)[fd].(outputBuffer := clients[fd].outputBuffer)
        && (budget.writeRemaining < old(budget.writeRemaining) || SocketFull(View(), fd))
      ensures Traffic(old(View()), View(), fd, 0, old(budget.writeRemaining) - budget.writeRemaining)
      ensures budget.writeRemaining <= old(budget.writeRemaining) && budget.readRemaining == old(budget.readRemaining)
      ensures kernel.clock == old(kernel.clock)
    {
      ghost var e0 := View();
      OwingIsOnTrack(rules, e0, fd, response);
      var attempt := if |response| < budget.writeRemaining then |response| else budget.writeRemaining;
      var w := kernel.Write(fd, response[..attempt]);
      if w.WriteError? {
        FailConnection(fd, WriteFailed);
        return;
      }
      budget.writeRemaining := budget.writeRemaining - w.count;
      assert response[..attempt][..w.count] == response[..w.count];
      OwingAfterWrite(rules, e0, fd, response, w.count);
      MoveIsServing(rules, e0, fd, kernel.sockets[fd]);
      ghost var e1 := View();
      if w.count >= |response| {
        assert response[w.count..] == "";
        NothingOwing(rules, e1, fd);
        return;
      }
      QueueResponse(fd, response[w.count..]);
      ServedTrans(e0, e1, View(), fd);
    }

    method StartOkResponse(fd: Fd, request: HttpRequest, budget: EventBudget)
      requires Ok() && (fd in clients ==> AwaitsReply(rules, View(), fd, request))
      modifies this, kernel, budget
      ensures Ok() && Served(old(View()), View(), fd) && GoneFor(old(View()), View(), fd, Answering)
      ensures fd in clients ==>
        && Healthy(rules, View(), fd) && fd in old(clients) && SameInput(old(clients)[fd], clients[fd])
        && journal[fd].requests == old(journal)[fd].requests
        && !clients[fd].headerTimeout.armed && !clients[fd].idleTimeout.armed
      ensures fd in clients && fd in old(clients) && old(clients)[fd].outputBuffer == "" && old(budget.writeRemaining) > 0 ==>
        budget.writeRemaining < old(budget.writeRemaining) || SocketFull(View(), fd)
      ensures Traffic(old(View()), View(), fd, 0, old(budget.writeRemaining) - budget.writeRemaining)
      ensures budget.writeRemaining <= old(budget.writeRemaining) && budget.readRemaining == old(budget.readRemaining)
      ensures kernel.clock == old(kernel.clock)
    {
      ghost var e0 := View();
      ServedRefl(rules, e0, fd);
      if fd !in clients || clients[fd].closing {
        return;
      }
      var response := PrepareOkResponse(fd, request);
      ghost var e1 := View();
      SendOkResponse(fd, response, budget);
      ServedTrans(e0, e1, View(), fd);
    }

    // ------------------------------------------------------------ request bodies

    method ArmBodyTimeout(fd: Fd, now: int, contentLength: nat)
      requires Ok()
      modifies `clients, `journal, `timerHeap
      ensures Ok() && Served(old(View()), View(), fd)
      ensures fd in old(clients) ==> OnlyBodyArmed(old(View()), View(), fd, CalculateBodyReceiveDeadline(now, contentLength))
      ensures fd !in old(clients) ==> View() == old(View())
    {
      ghost var e0 := View();
      ServedRefl(rules, e0, fd);
      if fd !in clients || clients[fd].closing {
        return;
      }
      DisarmAllTimeouts(fd);
      ghost var e1 := View();
      PushTimer(fd, BodyTimer, CalculateBodyReceiveDeadline(now, contentLength));
      ServedTrans(e0, e1, View(), fd);
    }

    method DisarmAllTimeouts(fd: Fd)
      requires Ok() && fd in clients
      modifies `clients, `journal
      ensures Ok() && Served(old(View()), View(), fd)
      ensures clients == old(clients)[fd := DisarmAll(old(clients)[fd])]
      ensures fd in journal && journal[fd] == old(journal)[fd].(deadlines := map[])
    {
      ghost var e0 := View();
      DisarmTimeout(fd, HeaderTimer);
      ghost var e1 := View();
      DisarmTimeout(fd, BodyTimer);
      ghost var e2 := View();
      ServedTrans(e0, e1, e2, fd);
      DisarmTimeout(fd, IdleTimer);
      ServedTrans(e0, e2, View(), fd);
      DisarmOneByOne(old(clients)[fd]);
      NoDeadlineLeft(old(journal)[fd].deadlines);
    }

    // Overwrites the body state with that of a completed request, and counts the request.
    method RecordCompletion(fd: Fd, c: ClientConnection, request: HttpRequest)
      requires Ok() && fd in clients && c == clients[fd].(
        waitingForRequestBody := c.waitingForRequestBody, pendingRequest := c.pendingRequest,
        pendingBodyBytesTotal := c.pendingBodyBytesTotal, pendingBodyBytesRemaining := c.pendingBodyBytesRemaining)
      modifies `clients, `journal, `metrics
      ensures Ok() && Served(old(View()), View(), fd) && View() == Completed(old(View()), fd, c, request)
    {
      CompleteIsServing(rules, View(), fd, c, request);
      clients := clients[fd := c];
      journal := journal[fd := journal[fd].(requests := journal[fd].requests + [request])];
      metrics := metrics.(requestsTotal := metrics.requestsTotal + 1);
    }

    // Moves n buffered bytes into the body.
    method TakeBodyBytes(fd: Fd, n: nat)
      requires Ok() && Receiving(rules, View(), fd)
      requires n <= |clients[fd].inputBuffer| && n <= clients[fd].pendingBodyBytesRemaining
      modifies `clients, `globalInflightBytes, `metrics
      ensures Ok() && Served(old(View()), View(), fd) && Receiving(rules, View(), fd)
      ensures clients == old(clients)[fd := WithBodyBytes(old(clients)[fd], n)]
    {
      ReceivingAfterBytes(rules, View(), fd, n);
      BodyBytesAreServing(rules, View(), fd, n);
      SameEntry(journal, fd);
      clients := clients[fd := WithBodyBytes(clients[fd], n)];
      ReleaseInflightBytes(n);
    }

    // Moves whatever is buffered into the body, as far as the body goes.
    method TakeAvailableBody(fd: Fd)
      requires Ok() && Receiving(rules, View(), fd)
      modifies `clients, `globalInflightBytes, `metrics
      ensures Ok() && Served(old(View()), View(), fd) && Receiving(rules, View(), fd)
      ensures var c := old(clients)[fd];
              var available := if c.pendingBodyBytesRemaining < |c.inputBuffer| then c.pendingBodyBytesRemaining else |c.inputBuffer|;
              clients[fd] == WithBodyBytes(c, available)
    {
      ServedRefl(rules, View(), fd);
      var remaining, buffered := clients[fd].pendingBodyBytesRemaining, |clients[fd].inputBuffer|;
      var available := if remaining < buffered then remaining else buffered;
      if available > 0 {
        TakeBodyBytes(fd, available);
      }
    }

    // The whole body is there: answer the pending request.
    method FinishRequestBody(fd: Fd, budget: EventBudget)
      requires Ok() && Receiving(rules, View(), fd) && clients[fd].pendingBodyBytesRemaining == 0
      modifies this, kernel, budget
      ensures Ok() && Served(old(View()), View(), fd) && GoneFor(old(View()), View(), fd, Answering)
      ensures fd in clients ==>
        && Healthy(rules, View(), fd) && !clients[fd].waitingForRequestBody && LastHadBody(journal[fd].requests)
        && |journal[fd].requests| == |old(journal)[fd].requests| + 1
        && clients[fd].inputBuffer == old(clients)[fd].inputBuffer
        && !clients[fd].headerTimeout.armed && !clients[fd].idleTimeout.armed
        && SameFlags(old(clients)[fd], clients[fd])
      ensures Traffic(old(View()), View(), fd, 0, old(budget.writeRemaining) - budget.writeRemaining)
      ensures budget.writeRemaining <= old(budget.writeRemaining) && budget.readRemaining == old(budget.readRemaining)
      ensures kernel.clock == old(kernel.clock)
    {
      ghost var e0 := View();
      BodyDoneAwaitsReply(rules, e0, fd);
      var finished := clients[fd].pendingRequest;
      RecordCompletion(fd, BodyDone(clients[fd]), finished);
      ghost var e1 := View();
      DisarmTimeout(fd, BodyTimer);
      ghost var e2 := View();
      ServedTrans(e0, e1, e2, fd);
      StartOkResponse(fd, finished, budget);
      ServedTrans(e0, e2, View(), fd);
    }

    // False only when the connection is gone.
    method ConsumePendingRequestBody(fd: Fd, budget: EventBudget) returns (ok: bool)
      requires Ok() && (fd in clients ==> Healthy(rules, View(), fd) || (Receiving(rules, View(), fd) && clients[fd].waitingForRequestBody))
      modifies this, kernel, budget
      ensures Ok() && Served(old(View()), View(), fd) && GoneFor(old(View()), View(), fd, Answering)
      ensures ok <==> fd in old(clients)
      ensures fd in clients ==>
        && fd in old(clients) && Healthy(rules, View(), fd)
        && SameFlags(old(clients)[fd], clients[fd])
        && (if !old(clients)[fd].waitingForRequestBody then View() == old(View())
            else if clients[fd].waitingForRequestBody then
              && old(clients)[fd].pendingBodyBytesRemaining > |old(clients)[fd].inputBuffer|
              && clients[fd] == WithBodyBytes(old(clients)[fd], |old(clients)[fd].inputBuffer|) && journal[fd] == old(journal)[fd]
            else
              && LastHadBody(journal[fd].requests) && |journal[fd].requests| == |old(journal)[fd].requests| + 1
              && !clients[fd].headerTimeout.armed && !clients[fd].idleTimeout.armed
              && old(clients)[fd].pendingBodyBytesRemaining <= |old(clients)[fd].inputBuffer|
              && clients[fd].inputBuffer == old(clients)[fd].inputBuffer[old(clients)[fd].pendingBodyBytesRemaining..])
      ensures fd in old(clients) && old(clients)[fd].pendingBodyBytesRemaining > |old(clients)[fd].inputBuffer| ==> fd in clients
      ensures Traffic(old(View()), View(), fd, 0, old(budget.writeRemaining) - budget.writeRemaining)
      ensures budget.writeRemaining <= old(budget.writeRemaining) && budget.readRemaining == old(budget.readRemaining)
      ensures kernel.clock == old(kernel.clock)
    {
      ghost var e0 := View();
      ServedRefl(rules, e0, fd);
      if fd !in clients || clients[fd].closing {
        return false;
      }
      ok := true;
      if !clients[fd].waitingForRequestBody {
        return;
      }
      if Healthy(rules, e0, fd) {
        HealthyIsReceiving(rules, e0, fd);
      }
      TakeAvailableBody(fd);
      ghost var e1 := View();
      if clients[fd].pendingBodyBytesRemaining > 0 {
        ReceivingIsHealthy(rules, e1, fd);
        return;
      }
      FinishRequestBody(fd, budget);
      ServedTrans(e0, e1, View(), fd);
    }

    // Switches to body reception and starts its one deadline.
    method SwitchToBody(fd: Fd, request: HttpRequest)
      requires Ok() && AwaitsBody(rules, View(), fd, request)
      modifies `clients, `journal, `timerHeap, kernel`clock
      ensures Ok() && Served(old(View()), View(), fd) && Receiving(rules, View(), fd)
      ensures fd in clients && clients[fd].inReadyQueue == old(clients)[fd].inReadyQueue
      ensures clients[fd].readyForRead == old(clients)[fd].readyForRead
      ensures journal[fd].requests == old(journal)[fd].requests
      ensures journal[fd].deadlines == map[BodyTimer := BodyDeadline(View(), fd)]
      ensures old(kernel.clock) <= kernel.clock == journal[fd].bodyStart
    {
      ghost var e0 := View();
      var now := kernel.Now();
      Store(fd, BodyBegun(clients[fd], request), journal[fd].(bodyStart := now));
      ghost var e1 := View();
      ArmBodyTimeout(fd, now, BodyLength(request));
      BodyBegunIsReceiving(rules, e0, e1, View(), fd, request, now);
      ServedTrans(e0, e1, View(), fd);
    }

    method BeginRequestBodyReceive(fd: Fd, request: HttpRequest, budget: EventBudget) returns (ok: bool)
      requires Ok() && (fd in clients ==> AwaitsBody(rules, View(), fd, request))
      modifies this, kernel, budget
      ensures Ok() && Served(old(View()), View(), fd) && GoneFor(old(View()), View(), fd, Answering)
      ensures ok <==> fd in old(clients)
      ensures fd in clients ==>
        && fd in old(clients) && Healthy(rules, View(), fd)
        && SameFlags(old(clients)[fd], clients[fd])
        && (if clients[fd].waitingForRequestBody then
              && clients[fd].inputBuffer == "" && |journal[fd].requests| == |old(journal)[fd].requests|
              && old(kernel.clock) <= journal[fd].bodyStart <= kernel.clock
              && journal[fd].deadlines == map[BodyTimer := BodyDeadline(View(), fd)]
            else
              && LastHadBody(journal[fd].requests) && |journal[fd].requests| == |old(journal)[fd].requests| + 1
              && !clients[fd].headerTimeout.armed && !clients[fd].idleTimeout.armed)
      ensures Traffic(old(View()), View(), fd, 0, old(budget.writeRemaining) - budget.writeRemaining)
      ensures budget.writeRemaining <= old(budget.writeRemaining) && budget.readRemaining == old(budget.readRemaining)
      ensures kernel.clock >= old(kernel.clock)
    {
      ghost var e0 := View();
      ServedRefl(rules, e0, fd);
      if fd !in clients || clients[fd].closing {
        return false;
      }
      SwitchToBody(fd, request);
      ghost var e1 := View();
      ok := ConsumePendingRequestBody(fd, budget);
      ServedTrans(e0, e1, View(), fd);
    }

    // ------------------------------------------------------------ request headers

    method CheckHeaderLimit(fd: Fd) returns (ok: bool)
      requires Ok() && (fd in clients ==> Healthy(rules, View(), fd) && !clients[fd].waitingForRequestBody)
      modifies this, kernel
      ensures Ok() && Served(old(View()), View(), fd) && GoneFor(old(View()), View(), fd, Answering)
      ensures ok ==> View() == old(View()) && fd in clients
      ensures !ok ==> fd !in clients
      ensures !ok && fd in old(clients) ==> |closeLog| == |old(closeLog)| + 1 && closeLog[|old(closeLog)|].reason == ErrorPage(431)
      ensures !ok && fd in old(clients) ==> PageFollows(rules, old(View()), fd, closeLog[|old(closeLog)|])
      ensures fd in old(clients) ==> ok == !HeaderExceedsLimit(old(clients)[fd].inputBuffer, 8192)
      ensures kernel.clock == old(kernel.clock)
    {
      ghost var e0 := View();
      ServedRefl(rules, e0, fd);
      if fd !in clients {
        return false;
      }
      if !HeaderExceedsLimit(clients[fd].inputBuffer, MAX_HEADER_BYTES) {
        return true;
      }
      HealthyIsOnTrack(rules, View(), fd);
      TooLongIsOversized(rules, View(), fd);
      SendErrorResponseAndClose(fd, 431);
      PageAfterAll(rules, e0, fd, closeLog[|old(closeLog)|]);
      ok := false;
    }

    // Takes the next header off the buffer and either accepts it or refuses the connection.
    method TakeNextRequest(fd: Fd) returns (taken: Option<HttpRequest>)
      requires Ok() && Healthy(rules, View(), fd)
      requires !clients[fd].waitingForRequestBody && HasCompleteHeader(clients[fd].inputBuffer)
      modifies this, kernel
      ensures Ok() && Served(old(View()), View(), fd) && GoneFor(old(View()), View(), fd, Answering)
      ensures match Admit(rules.parse(FirstHeader(old(clients)[fd].inputBuffer)))
              case Accepted(request) =>
                && taken == Some(request) && Admitted(rules, View(), fd, request) && fd in old(clients)
                && journal == old(journal) && kernel.sockets == old(kernel.sockets)
                && SameFlags(old(clients)[fd], clients[fd])
              case Refused(status) =>
                && taken == None && fd !in clients
                && |closeLog| == |old(closeLog)| + 1 && closeLog[|old(closeLog)|].reason == ErrorPage(status)
                && PageFollows(rules, old(View()), fd, closeLog[|old(closeLog)|])
      ensures kernel.clock == old(kernel.clock)
    {
      ghost var e0 := View();
      var header := FirstHeader(clients[fd].inputBuffer);
      ConsumeInput(fd, |header|);
      ghost var e1 := View();
      PopIsAdmitted(rules, e0, e1, fd);
      var result := rules.parse(header);
      var refusal :=
        if result.error == NotImplementedChunked then 501
        else if result.error == LengthRequired then 411
        else if result.error != NoError then 400
        else if result.request.contentLength.Some? && result.request.contentLength.value > MAX_BODY_BYTES then 413
        else 0;
      if refusal == 0 {
        return Some(result.request);
      }
      SendErrorResponseAndClose(fd, refusal);
      ServedTrans(e0, e1, View(), fd);
      HealthyIsOnTrack(rules, e0, fd);
      PageAfterAll(rules, e0, fd, closeLog[|old(closeLog)|]);
      taken := None;
    }

    // One header from the buffer to its response or to the start of its body.
    method ProcessOneHeader(fd: Fd, budget: EventBudget) returns (outcome: HeaderOutcome)
      requires Ok() && Healthy(rules, View(), fd)
      requires !clients[fd].waitingForRequestBody && HasCompleteHeader(clients[fd].inputBuffer)
      modifies this, kernel, budget
      ensures Ok() && Served(old(View()), View(), fd) && GoneFor(old(View()), View(), fd, Answering)
      ensures outcome.Gone? ==> fd !in clients
      ensures fd in clients ==>
        && fd in old(clients) && Rested(rules, View(), fd)
        && (outcome.Answered? ==> !clients[fd].waitingForRequestBody)
        && (outcome.BodyStarted? ==> clients[fd].waitingForRequestBody || LastHadBody(journal[fd].requests))
        && |journal[fd].requests| == |old(journal)[fd].requests| + (if clients[fd].waitingForRequestBody then 0 else 1)
      ensures fd in clients && !clients[fd].waitingForRequestBody ==> !clients[fd].headerTimeout.armed && !clients[fd].idleTimeout.armed
      ensures fd in clients && clients[fd].waitingForRequestBody ==> journal[fd].deadlines == map[BodyTimer := BodyDeadline(View(), fd)]
      ensures Traffic(old(View()), View(), fd, 0, old(budget.writeRemaining) - budget.writeRemaining)
      ensures fd in clients ==> SameFlags(old(clients)[fd], clients[fd])
      ensures budget.writeRemaining <= old(budget.writeRemaining) && budget.readRemaining == old(budget.readRemaining)
      ensures kernel.clock >= old(kernel.clock)
    {
      ghost var e0 := View();
      var taken := TakeNextRequest(fd);
      if taken.None? {
        return Gone;
      }
      var request := taken.value;
      ghost var e1 := View();
      if request.contentLength.Some? && request.contentLength.value > 0 {
        AdmittedWithBody(rules, e1, fd, request);
        var ok := BeginRequestBodyReceive(fd, request, budget);
        ServedTrans(e0, e1, View(), fd);
        return if ok then BodyStarted else Gone;
      }
      AdmittedWithoutBody(rules, e1, fd, request);
      RecordCompletion(fd, clients[fd], request);
      ghost var e2 := View();
      ServedTrans(e0, e1, e2, fd);
      StartOkResponse(fd, request, budget);
      ServedTrans(e0, e2, View(), fd);
      outcome := Answered;
    }

    // After a round of headers: queue what is left, close, or wait for more.
    method FinishHeaderRound(fd: Fd) returns (ok: bool)
      requires Ok() && (fd in clients ==> Rested(rules, View(), fd))
      modifies this, kernel
      ensures Ok() && Served(old(View()), View(), fd) && GoneFor(old(View()), View(), fd, Answering)
      ensures fd in clients ==>
        && fd in old(clients) && Good(rules, View(), fd)
        && journal[fd].requests == old(journal)[fd].requests && kernel.sockets == old(kernel.sockets)
      ensures ok ==> fd in clients && SameButWaiting(old(clients)[fd], clients[fd]) && CaughtUp(View(), fd, kernel.clock)
      ensures ok && (clients[fd].readyForRead || clients[fd].outputBuffer != "") ==> clients == old(clients)
      ensures !ok && fd in clients ==>
        && HasCompleteHeader(clients[fd].inputBuffer) && !clients[fd].waitingForRequestBody
        && clients[fd] == old(clients)[fd].(inReadyQueue := true)
      ensures fd in clients && old(clients)[fd].headerTimeout.armed && clients[fd].inputBuffer != "" ==> clients[fd].headerTimeout.armed
      ensures fd in clients && clients[fd].waitingForRequestBody ==> View() == old(View())
      ensures kernel.clock >= old(kernel.clock)
    {
      ghost var e0 := View();
      ServedRefl(rules, e0, fd);
      if fd !in clients || clients[fd].closing {
        return false;
      }
      if clients[fd].waitingForRequestBody {
        PoisedIsGood(rules, e0, fd);
        return true;
      }
      if HasCompleteHeader(clients[fd].inputBuffer) {
        QueueLeftover(fd);
        return false;
      }
      var c := clients[fd];
      if c.outputBuffer == "" && c.closeAfterWrite && !c.readyForRead {
        HealthyIsOnTrack(rules, e0, fd);
        CloseFinished(fd);
        return false;
      }
      if c.outputBuffer == "" && !c.closeAfterWrite && !c.readyForRead {
        WaitForNextRequest(fd);
        return true;
      }
      PoisedIsGood(rules, e0, fd);
      ok := true;
    }

    // A complete header is left for another round.
    method QueueLeftover(fd: Fd)
      requires Ok() && Rested(rules, View(), fd) && HasCompleteHeader(clients[fd].inputBuffer)
      modifies `clients, `journal, `readyQueue
      ensures Ok() && Served(old(View()), View(), fd) && Good(rules, View(), fd)
      ensures clients == old(clients)[fd := old(clients)[fd].(inReadyQueue := true)] && journal == old(journal)
    {
      ghost var e0 := View();
      EnqueueReadyConnection(fd);
      RestedAfterFlags(rules, e0, View(), fd);
      PoisedIsGood(rules, View(), fd);
    }

    // Everything owed has been sent and the connection is not to be kept.
    method CloseFinished(fd: Fd)
      requires Ok() && fd in clients && clients[fd].outputBuffer == "" && Accounted(rules, View(), fd)
      requires clients[fd].closeAfterWrite
      modifies `clients, `readyQueue, `pendingCloseQueue, `activeConnectionCount, `globalInflightBytes, `metrics,
               `journal, `fate, `closeLog, kernel`interest, kernel`sockets
      ensures Ok() && Served(old(View()), View(), fd) && fd !in clients && GoneFor(old(View()), View(), fd, Answering)
    {
      QuietClosing(rules, View(), fd, ResponsesSent, Seen(fd, 0));
      CloseClientConnection(fd, ResponsesSent, |kernel.sockets[fd].sent|);
    }

    // Nothing queued, connection kept: start the timer that fits.
    method WaitForNextRequest(fd: Fd)
      requires Ok() && fd in clients && Rested(rules, View(), fd) && !HasCompleteHeader(clients[fd].inputBuffer)
      modifies `clients, `journal, `timerHeap, kernel`clock, kernel`interest
      ensures Ok() && Served(old(View()), View(), fd) && fd in clients && Good(rules, View(), fd)
      ensures SameButWaiting(old(clients)[fd], clients[fd]) && journal[fd].requests == old(journal)[fd].requests
      ensures OnTheClock(View(), fd, kernel.clock)
      ensures kernel.clock >= old(kernel.clock)
    {
      ghost var e0 := View();
      var now := kernel.Now();
      if clients[fd].inputBuffer == "" {
        ArmIdleKeepAliveTimeout(fd, now);
      } else {
        ArmHeaderTimeout(fd, now);
      }
      ghost var e1 := View();
      GoodOnceArmed(rules, e0, e1, fd);
      UpdateClientPollMask(fd);
      ServedTrans(e0, e1, View(), fd);
      SameEntry(kernel.interest, fd);
    }

    // The next header of a round that found the connection in state a.
    method NextOfRound(fd: Fd, budget: EventBudget, ghost a: Engine, ghost n: nat) returns (outcome: HeaderOutcome)
      requires Ok() && fd in clients && HasCompleteHeader(clients[fd].inputBuffer)
      requires Served(a, View(), fd) && InRound(rules, a, View(), fd, n) && n < MAX_REQUESTS_PER_ROUND
      modifies this, kernel, budget
      ensures Ok() && Served(a, View(), fd) && GoneFor(a, View(), fd, Answering)
      ensures outcome.Gone? ==> fd !in clients
      ensures outcome.Answered? ==> InRound(rules, a, View(), fd, n + 1)
      ensures outcome.BodyStarted? ==> RoundOver(rules, a, View(), fd)
      ensures Traffic(old(View()), View(), fd, 0, old(budget.writeRemaining) - budget.writeRemaining)
      ensures budget.writeRemaining <= old(budget.writeRemaining) && budget.readRemaining == old(budget.readRemaining)
      ensures kernel.clock >= old(kernel.clock)
    {
      ghost var e := View();
      outcome := ProcessOneHeader(fd, budget);
      ServedTrans(a, e, View(), fd);
    }

    // The end of a round that found the connection in state a.
    method EndRound(fd: Fd, ghost a: Engine) returns (ok: bool)
      requires Ok() && Served(a, View(), fd) && GoneFor(a, View(), fd, Answering) && RoundOver(rules, a, View(), fd)
      modifies this, kernel
      ensures Ok() && Served(a, View(), fd) && GoneFor(a, View(), fd, Answering)
      ensures fd in clients ==>
        && fd in a.clients && fd in a.journal && Good(rules, View(), fd)
        && clients[fd].readyForRead == a.clients[fd].readyForRead
        && |journal[fd].requests| <= |a.journal[fd].requests| + 5
        && (!HasCompleteHeader(a.clients[fd].inputBuffer) ==> journal[fd].requests == a.journal[fd].requests)
      ensures ok ==> fd in clients && CaughtUp(View(), fd, kernel.clock)
      ensures !ok && fd in clients ==>
        && clients[fd].inReadyQueue && HasCompleteHeader(clients[fd].inputBuffer)
        && (|journal[fd].requests| == |a.journal[fd].requests| + 5 || LastHadBody(journal[fd].requests))
      ensures fd in a.clients && HasCompleteHeader(a.clients[fd].inputBuffer) ==> Advanced(a, View(), fd)
      ensures ok && HasCompleteHeader(a.clients[fd].inputBuffer) && !clients[fd].waitingForRequestBody ==>
        (Unwatched(clients[fd]) <==> clients[fd].readyForRead && clients[fd].outputBuffer == "" && !clients[fd].inReadyQueue)
      ensures fd in a.clients && a.clients[fd].inputBuffer != "" ==> KeepsHeaderClock(a, View(), fd)
      ensures fd in clients && !HasCompleteHeader(a.clients[fd].inputBuffer) ==>
        (Unwatched(clients[fd]) <==> Unwatched(a.clients[fd]) && a.clients[fd].readyForRead)
      ensures ok ==> SameFlags(a.clients[fd], clients[fd])
      ensures fd in clients && clients[fd].waitingForRequestBody ==> journal[fd].deadlines == map[BodyTimer := BodyDeadline(View(), fd)]
      ensures fd in clients ==> fd in old(clients) && kernel.sockets == old(kernel.sockets)
      ensures kernel.clock >= old(kernel.clock)
    {
      ghost var e := View();
      ok := FinishHeaderRound(fd);
      ServedTrans(a, e, View(), fd);
      if ok && HasCompleteHeader(a.clients[fd].inputBuffer) && !clients[fd].waitingForRequestBody {
        ClockUnlessPostponed(rules, e, View(), fd, kernel.clock);
      }
    }

    // The loop of a round. False means the connection is gone.
    method AnswerHeaders(fd: Fd, budget: EventBudget) returns (over: bool)
      requires Ok() && (fd in clients ==> Healthy(rules, View(), fd) && !clients[fd].waitingForRequestBody)
      modifies this, kernel, budget
      ensures Ok() && Served(old(View()), View(), fd) && GoneFor(old(View()), View(), fd, Answering)
      ensures if over then RoundOver(rules, old(View()), View(), fd) else fd !in clients
      ensures Traffic(old(View()), View(), fd, 0, old(budget.writeRemaining) - budget.writeRemaining)
      ensures budget.writeRemaining <= old(budget.writeRemaining) && budget.readRemaining == old(budget.readRemaining)
      ensures kernel.clock >= old(kernel.clock)
    {
      ghost var e0 := View();
      ServedRefl(rules, e0, fd);
      var processedRequests := 0;
      while processedRequests < MAX_REQUESTS_PER_ROUND
        invariant Ok() && Served(e0, View(), fd) && GoneFor(e0, View(), fd, Answering) && InRound(rules, e0, View(), fd, processedRequests)
        invariant processedRequests <= MAX_REQUESTS_PER_ROUND
        invariant Traffic(e0, View(), fd, 0, old(budget.writeRemaining) - budget.writeRemaining)
        invariant budget.writeRemaining <= old(budget.writeRemaining) && budget.readRemaining == old(budget.readRemaining)
        invariant kernel.clock >= old(kernel.clock)
      {
        if fd !in clients || clients[fd].closing {
          return false;
        }
        if !HasCompleteHeader(clients[fd].inputBuffer) {
          return true;
        }
        var outcome := NextOfRound(fd, budget, e0, processedRequests);
        processedRequests := processedRequests + 1;
        if !outcome.Answered? {
          return outcome.BodyStarted?;
        }
      }
      over := true;
    }

    // Parses buffered headers, at most five requests a round. False means stop: closed, or
    // queued for another round.
    method ProcessBufferedHeaders(fd: Fd, budget: EventBudget) returns (ok: bool)
      requires Ok() && (fd in clients ==> Healthy(rules, View(), fd) && !clients[fd].waitingForRequestBody)
      modifies this, kernel, budget
      ensures Ok() && Served(old(View()), View(), fd) && GoneFor(old(View()), View(), fd, Answering)
      ensures fd in clients ==>
        && fd in old(clients) && Good(rules, View(), fd) && clients[fd].readyForRead == old(clients)[fd].readyForRead
        && |journal[fd].requests| <= |old(journal)[fd].requests| + 5
      ensures ok ==> fd in clients && CaughtUp(View(), fd, kernel.clock)
      ensures !ok && fd in clients ==>
        && clients[fd].inReadyQueue && HasCompleteHeader(clients[fd].inputBuffer)
        && (|journal[fd].requests| == |old(journal)[fd].requests| + 5 || LastHadBody(journal[fd].requests))
      ensures fd in old(clients) && HasCompleteHeader(old(clients)[fd].inputBuffer) ==> Advanced(old(View()), View(), fd)
      ensures fd in clients && !HasCompleteHeader(old(clients)[fd].inputBuffer) ==> journal[fd].requests == old(journal)[fd].requests
      // once something has been answered, only a postponed read leaves a connection without a clock
      ensures ok && HasCompleteHeader(old(clients)[fd].inputBuffer) && !clients[fd].waitingForRequestBody ==>
        (Unwatched(clients[fd]) <==> clients[fd].readyForRead && clients[fd].outputBuffer == "" && !clients[fd].inReadyQueue)
      // ... and with nothing to answer, it stays without one
      ensures fd in clients && !HasCompleteHeader(old(clients)[fd].inputBuffer) ==>
        (Unwatched(clients[fd]) <==> Unwatched(old(clients)[fd]) && old(clients)[fd].readyForRead)
      ensures ok ==> SameFlags(old(clients)[fd], clients[fd])
      ensures fd in clients && clients[fd].waitingForRequestBody ==> journal[fd].deadlines == map[BodyTimer := BodyDeadline(View(), fd)]
      ensures fd in old(clients) && old(clients)[fd].inputBuffer != "" ==> KeepsHeaderClock(old(View()), View(), fd)
      ensures Traffic(old(View()), View(), fd, 0, old(budget.writeRemaining) - budget.writeRemaining)
      ensures budget.writeRemaining <= old(budget.writeRemaining) && budget.readRemaining == old(budget.readRemaining)
      ensures kernel.clock >= old(kernel.clock)
    {
      ghost var e0 := View();
      var over := AnswerHeaders(fd, budget);
      if !over {
        return false;
      }
      ok := EndRound(fd, e0);
    }

    // ------------------------------------------------------------ reading

    // The read budget ran out: come back through the ready queue.
    method DeferReading(fd: Fd)
      requires Ok() && fd in clients && Rested(rules, View(), fd)
      modifies `clients, `journal, `readyQueue
      ensures Ok() && Served(old(View()), View(), fd) && Good(rules, View(), fd)
      ensures clients[fd] == old(clients)[fd].(readyForRead := true, inReadyQueue := true)
      ensures journal[fd] == old(journal)[fd]
    {
      ghost var e0 := View();
      Store(fd, clients[fd].(readyForRead := true), journal[fd]);
      ghost var e1 := View();
      EnqueueReadyConnection(fd);
      ServedTrans(e0, e1, View(), fd);
      RestedAfterFlags(rules, e0, View(), fd);
      PoisedIsGood(rules, View(), fd);
    }

    // The chunk, already in the input buffer, goes to the pending body.
    method FeedBody(fd: Fd, chunk: string, budget: EventBudget, ghost before: Engine) returns (more: bool)
      requires Ok() && Healthy(rules, View(), fd) && clients[fd].waitingForRequestBody
      requires fd in before.clients && clients[fd] == before.clients[fd].(inputBuffer := before.clients[fd].inputBuffer + chunk)
      requires before.journal == journal
      modifies this, kernel, budget
      ensures Ok() && Served(old(View()), View(), fd) && GoneFor(old(View()), View(), fd, Answering)
      ensures fd in clients ==> Good(rules, View(), fd)
      ensures FedAsDue(before, View(), fd, chunk)
      ensures more <==> fd in clients
      ensures more ==> clients[fd].inReadyQueue == before.clients[fd].inReadyQueue
      ensures Traffic(old(View()), View(), fd, 0, old(budget.writeRemaining) - budget.writeRemaining)
      ensures budget.writeRemaining <= old(budget.writeRemaining) && budget.readRemaining == old(budget.readRemaining)
      ensures kernel.clock >= old(kernel.clock)
    {
      NoHeaderInNothing();
      more := ConsumePendingRequestBody(fd, budget);
      if fd in clients {
        PoisedIsGood(rules, View(), fd);
      } else {
        more := false;
      }
    }

    // The chunk, already in the input buffer, goes to the parser.
    method FeedHeaders(fd: Fd, chunk: string, budget: EventBudget, ghost before: Engine) returns (more: bool)
      requires Ok() && Healthy(rules, View(), fd) && !clients[fd].waitingForRequestBody
      requires fd in before.clients && clients[fd] == before.clients[fd].(inputBuffer := before.clients[fd].inputBuffer + chunk)
      requires before.journal == journal
      modifies this, kernel, budget
      ensures Ok() && Served(old(View()), View(), fd) && GoneFor(old(View()), View(), fd, Answering)
      ensures fd in clients ==> Good(rules, View(), fd)
      ensures FedAsDue(before, View(), fd, chunk)
      ensures chunk != "" ==> KeepsHeaderClock(old(View()), View(), fd)
      ensures more ==> fd in clients && clients[fd].inReadyQueue == before.clients[fd].inReadyQueue
      ensures !more && fd in clients ==> clients[fd].inReadyQueue && HasCompleteHeader(clients[fd].inputBuffer)
      ensures Traffic(old(View()), View(), fd, 0, old(budget.writeRemaining) - budget.writeRemaining)
      ensures budget.writeRemaining <= old(budget.writeRemaining) && budget.readRemaining == old(budget.readRemaining)
      ensures kernel.clock >= old(kernel.clock)
    {
      ghost var e0 := View();
      var ok := CheckHeaderLimit(fd);
      ghost var e1 := View();
      if !ok {
        return false;
      }
      more := ProcessBufferedHeaders(fd, budget);
      ServedTrans(e0, e1, View(), fd);
    }

    // Feeds freshly received bytes to the parser or to the pending body. True means the
    // connection is still there and no budget decision is due.
    method FeedChunk(fd: Fd, chunk: string, budget: EventBudget, ghost before: Engine) returns (more: bool)
      requires Ok() && fd in clients && fd in kernel.sockets && Healthy(rules, before, fd)
      requires before.clients == clients && before.journal == journal && before.interest == kernel.interest
      requires kernel.sockets[fd] == before.sockets[fd].(received := before.sockets[fd].received + chunk)
      modifies this, kernel, budget
      ensures Ok() && Served(old(View()), View(), fd) && GoneFor(old(View()), View(), fd, Answering)
      ensures fd in clients ==> Good(rules, View(), fd)
      ensures FedAsDue(before, View(), fd, chunk)
      ensures fd in clients ==> kernel.sockets[fd].received == old(kernel.sockets)[fd].received
      ensures more ==> fd in clients && clients[fd].inReadyQueue == before.clients[fd].inReadyQueue
      ensures !more && fd in clients ==> HasCompleteHeader(clients[fd].inputBuffer)
      ensures chunk != "" ==> KeepsHeaderClock(old(View()), View(), fd)
      ensures !more && fd in clients ==> clients[fd].inReadyQueue
      ensures Traffic(old(View()), View(), fd, 0, old(budget.writeRemaining) - budget.writeRemaining)
      ensures budget.writeRemaining <= old(budget.writeRemaining) && budget.readRemaining == old(budget.readRemaining)
      ensures kernel.clock >= old(kernel.clock)
    {
      ghost var e0 := View();
      HealthyIsOnTrack(rules, before, fd);
      var ok := AppendToInputBuffer(fd, chunk);
      if !ok {
        return false;
      }
      ghost var e1 := View();
      HealthyAfterRead(rules, before, e1, fd, chunk);
      if clients[fd].waitingForRequestBody {
        more := FeedBody(fd, chunk, budget, before);
      } else {
        more := FeedHeaders(fd, chunk, budget, before);
      }
      ServedTrans(e0, e1, View(), fd);
      if fd in clients {
        ReceivedNoMore(e0, View(), fd);
      }
    }

    // The same at the end of what began in state a.
    method ReadLater(fd: Fd, ghost a: Engine)
      requires Ok() && fd in clients && Good(rules, View(), fd)
      requires Served(a, View(), fd) && KeepsHeaderClock(a, View(), fd) && BodyTimersKept(a, View(), fd)
      modifies `clients, `journal, `readyQueue
      ensures Ok() && Good(rules, View(), fd)
      ensures Served(a, View(), fd) && KeepsHeaderClock(a, View(), fd) && BodyTimersKept(a, View(), fd)
      ensures clients[fd].readyForRead && clients[fd].inReadyQueue
    {
      ghost var e := View();
      DeferReading(fd);
      ServedTrans(a, e, View(), fd);
      KeepsHeaderClockTrans(a, e, View(), fd);
      BodyTimersKeptTrans(a, e, View(), fd);
    }

    // One successful read: account for it, feed it, and stop when the budget is used up.
    method ReceiveChunk(fd: Fd, chunk: string, budget: EventBudget, ghost before: Engine) returns (more: bool)
      requires Ok() && fd in clients && fd in kernel.sockets && Good(rules, before, fd)
      requires before.clients == clients && before.journal == journal && before.interest == kernel.interest
      requires kernel.sockets[fd] == before.sockets[fd].(received := before.sockets[fd].received + chunk)
      requires 0 < |chunk| <= budget.readRemaining
      modifies this, kernel, budget
      ensures Ok() && Served(old(View()), View(), fd) && GoneFor(old(View()), View(), fd, Answering)
      ensures fd in clients ==> Good(rules, View(), fd)
      ensures !more && fd in clients ==> clients[fd].inReadyQueue
      ensures more ==> fd in clients && budget.readRemaining > 0
      ensures budget.readRemaining > 0 ==> FedAsDue(old(View()), View(), fd, chunk)
      ensures fd in clients ==> kernel.sockets[fd].received == old(kernel.sockets)[fd].received
      ensures KeepsHeaderClock(old(View()), View(), fd)
      ensures BodyTimersKept(old(View()), View(), fd)
      ensures fd in clients && clients[fd].waitingForRequestBody && budget.readRemaining == 0 ==>
        clients[fd].readyForRead && clients[fd].inReadyQueue
      ensures budget.readRemaining == old(budget.readRemaining) - |chunk|
      ensures Traffic(old(View()), View(), fd, 0, old(budget.writeRemaining) - budget.writeRemaining)
      ensures budget.writeRemaining <= old(budget.writeRemaining)
      ensures kernel.clock >= old(kernel.clock)
    {
      ghost var e0 := View();
      budget.readRemaining := budget.readRemaining - |chunk|;
      more := FeedChunk(fd, chunk, budget, before);
      if more && budget.readRemaining == 0 {
        ReadLater(fd, e0);
        more := false;
      }
    }

    // A read that brought nothing: end of stream and errors close the connection.
    method StopReading(fd: Fd, r: ReadResult)
      requires Ok() && fd in clients && Good(rules, View(), fd) && !r.Data?
      requires match r case EndOfStream => fd in kernel.inputs.ended case ReadError => fd in kernel.inputs.broken case _ => true
      modifies this, kernel
      ensures Ok() && Served(old(View()), View(), fd) && GoneFor(old(View()), View(), fd, Reading)
      ensures fd in clients || (|closeLog| == |old(closeLog)| + 1 && closeLog[|old(closeLog)|].reason == if r.ReadError? then ReadFailed else PeerClosed)
      ensures if r.WouldBlock? then View() == old(View()) else fd !in clients
      ensures kernel.clock == old(kernel.clock)
    {
      ghost var e0 := View();
      ServedRefl(rules, e0, fd);
      HealthyIsOnTrack(rules, e0, fd);
      match r {
        case EndOfStream =>
          QuietClosing(rules, e0, fd, PeerClosed, Seen(fd, 0));
          CloseClientConnection(fd, PeerClosed, |kernel.sockets[fd].sent|);
        case ReadError =>
          FailConnection(fd, ReadFailed);
        case _ =>
      }
    }

    // What a read that was made in state a has brought.
    method TakeChunk(fd: Fd, chunk: string, budget: EventBudget, ghost a: Engine) returns (more: bool)
      requires Shape(rules, a) && Counted(a) && Good(rules, a, fd) && forall c :: c in pendingCloseQueue ==> Retired(c)
      requires 0 < |chunk| <= budget.readRemaining
      requires View() == Moved(a, fd, a.sockets[fd].(received := a.sockets[fd].received + chunk))
      modifies this, kernel, budget
      ensures Ok() && Served(a, View(), fd) && GoneFor(a, View(), fd, Answering)
      ensures fd in clients ==> Good(rules, View(), fd)
      ensures !more && fd in clients ==> clients[fd].inReadyQueue
      ensures more ==> fd in clients
      ensures fd in clients ==> fd in a.clients && fd in a.sockets && kernel.sockets[fd].received == a.sockets[fd].received + chunk
      ensures budget.readRemaining > 0 ==> FedAsDue(a, View(), fd, chunk)
      ensures KeepsHeaderClock(a, View(), fd) && BodyTimersKept(a, View(), fd)
      ensures fd in clients && clients[fd].waitingForRequestBody && budget.readRemaining == 0 ==>
        clients[fd].readyForRead && clients[fd].inReadyQueue
      ensures budget.readRemaining == old(budget.readRemaining) - |chunk|
      ensures Traffic(a, View(), fd, |chunk|, old(budget.writeRemaining) - budget.writeRemaining)
      ensures budget.writeRemaining <= old(budget.writeRemaining)
      ensures kernel.clock >= old(kernel.clock)
    {
      MoveIsServing(rules, a, fd, kernel.sockets[fd]);
      ghost var e := View();
      more := ReceiveChunk(fd, chunk, budget, a);
      ServedTrans(a, e, View(), fd);
    }

    // One read; true means that there may be more.
    method ReadOnce(fd: Fd, attempt: nat, budget: EventBudget) returns (more: bool, ghost chunk: string)
      requires Ok() && fd in clients && Good(rules, View(), fd) && 0 < attempt <= budget.readRemaining
      modifies this, kernel, kernel.inputs, budget
      ensures Ok() && Served(old(View()), View(), fd) && GoneFor(old(View()), View(), fd, Reading)
      ensures fd in clients ==> Good(rules, View(), fd)
      ensures !more && fd in clients ==> fd in kernel.inputs.dry || clients[fd].inReadyQueue
      ensures more ==> fd in clients && budget.readRemaining < old(budget.readRemaining)
      ensures fd in clients && budget.readRemaining == old(budget.readRemaining) ==> View() == old(View())
      ensures fd in clients ==>
        fd in old(clients) && fd in old(kernel.sockets) && kernel.sockets[fd].received == old(kernel.sockets)[fd].received + chunk
      ensures fd in clients && chunk != "" && budget.readRemaining > 0 ==> FedAsDue(old(View()), View(), fd, chunk)
      ensures KeepsHeaderClock(old(View()), View(), fd)
      ensures BodyTimersKept(old(View()), View(), fd)
      ensures fd in clients && clients[fd].waitingForRequestBody && budget.readRemaining == 0 ==>
        clients[fd].readyForRead && clients[fd].inReadyQueue
      ensures Traffic(old(View()), View(), fd, old(budget.readRemaining) - budget.readRemaining, old(budget.writeRemaining) - budget.writeRemaining)
      ensures budget.readRemaining <= old(budget.readRemaining) && budget.writeRemaining <= old(budget.writeRemaining)
      ensures kernel.inputs.dry - {fd} == old(kernel.inputs.dry) - {fd}
      ensures kernel.clock >= old(kernel.clock)
    {
      ghost var e0 := View();
      var r := kernel.Read(fd, attempt);
      match r {
        case Data(bytes) =>
          chunk := bytes;
          more := TakeChunk(fd, bytes, budget, e0);
        case _ =>
          StopReading(fd, r);
          chunk, more := "", false;
      }
    }

    // Reads until the socket would block, the connection is gone, or the rest of the work has been
    // queued: because the budget is used up or because there are more requests than a round takes.
    method ReadFromClient(fd: Fd, budget: EventBudget)
      requires Ok() && (fd in clients ==> Good(rules, View(), fd))
      modifies this, kernel, kernel.inputs, budget
      ensures Ok() && Served(old(View()), View(), fd) && GoneFor(old(View()), View(), fd, Reading)
      ensures fd in clients ==> Good(rules, View(), fd) && (fd in kernel.inputs.dry || clients[fd].inReadyQueue)
      ensures budget.readRemaining == old(budget.readRemaining) > 0 && fd in clients ==> View() == old(View())
      ensures KeepsHeaderClock(old(View()), View(), fd)
      ensures BodyTimersKept(old(View()), View(), fd)
      ensures fd in clients && clients[fd].waitingForRequestBody && budget.readRemaining == 0 ==>
        clients[fd].readyForRead && clients[fd].inReadyQueue
      ensures Traffic(old(View()), View(), fd, old(budget.readRemaining) - budget.readRemaining, old(budget.writeRemaining) - budget.writeRemaining)
      ensures budget.readRemaining <= old(budget.readRemaining) && budget.writeRemaining <= old(budget.writeRemaining)
      ensures kernel.inputs.dry - {fd} == old(kernel.inputs.dry) - {fd}
      ensures kernel.clock >= old(kernel.clock)
    {
      ghost var e0 := View();
      ServedRefl(rules, e0, fd);
      while budget.readRemaining > 0
        invariant Ok() && Served(e0, View(), fd) && GoneFor(e0, View(), fd, Reading) && (fd in clients ==> Good(rules, View(), fd))
        invariant kernel.inputs.dry - {fd} == old(kernel.inputs.dry) - {fd}
        invariant KeepsHeaderClock(e0, View(), fd) && BodyTimersKept(e0, View(), fd)
        invariant budget.readRemaining == old(budget.readRemaining) ==> View() == e0
        invariant Traffic(e0, View(), fd, old(budget.readRemaining) - budget.readRemaining, old(budget.writeRemaining) - budget.writeRemaining)
        invariant budget.readRemaining <= old(budget.readRemaining) && budget.writeRemaining <= old(budget.writeRemaining)
        invariant kernel.clock >= old(kernel.clock)
        decreases budget.readRemaining
      {
        if fd !in clients || clients[fd].closing {
          return;
        }
        var attempt := if READ_CHUNK_SIZE < budget.readRemaining then READ_CHUNK_SIZE else budget.readRemaining;
        ghost var e1 := View();
        var more, chunk := ReadOnce(fd, attempt, budget);
        ServedTrans(e0, e1, View(), fd);
        KeepsHeaderClockTrans(e0, e1, View(), fd);
        BodyTimersKeptTrans(e0, e1, View(), fd);
        if !more {
          return;
        }
      }
      if fd !in clients || clients[fd].closing {
        return;
      }
      ReadLater(fd, e0);
    }

    // ------------------------------------------------------------ writing

    // The output buffer is drained: decide what the connection does next.
    method FinishFlush(fd: Fd)
      requires Ok() && Flushing(rules, View(), fd) && clients[fd].outputBuffer == ""
      modifies this, kernel
      ensures Ok() && Served(old(View()), View(), fd) && GoneFor(old(View()), View(), fd, Answering)
      ensures fd in clients ==> Good(rules, View(), fd) && Drained(View(), fd, kernel.clock)
      ensures fd in clients ==> journal[fd].deadlines == DrainedDeadlines(old(journal)[fd].deadlines, clients[fd], kernel.clock)
      ensures fd in clients && old(journal)[fd].requests != [] ==> !Unwatched(clients[fd])
      ensures Flushed(old(View()), View(), fd, 0)
      ensures kernel.clock >= old(kernel.clock)
    {
      if HasCompleteHeader(clients[fd].inputBuffer) || clients[fd].readyForRead {
        GoOnFromQueue(fd);
        return;
      }
      if clients[fd].closeAfterWrite {
        FlushingIsOnTrack(rules, View(), fd);
        CloseFinished(fd);
        return;
      }
      ghost var answered := journal[fd].requests != [];
      if answered {
        AnsweredIsKept(rules, View(), fd);
      }
      GoIdle(fd);
    }

    // Nothing to send, but more to parse or to read.
    method GoOnFromQueue(fd: Fd)
      requires Ok() && Flushing(rules, View(), fd) && clients[fd].outputBuffer == ""
      requires HasCompleteHeader(clients[fd].inputBuffer) || clients[fd].readyForRead
      modifies `clients, `journal, `readyQueue, kernel`interest
      ensures Ok() && Served(old(View()), View(), fd) && Good(rules, View(), fd)
      ensures clients == old(clients)[fd := old(clients)[fd].(inReadyQueue := true)]
      ensures journal == old(journal)
    {
      ghost var e0 := View();
      UpdateClientPollMask(fd);
      ghost var e1 := View();
      FlushingIsRested(rules, e0, e1, fd);
      EnqueueReadyConnection(fd);
      ServedTrans(e0, e1, View(), fd);
      RestedAfterFlags(rules, e1, View(), fd);
      PoisedIsGood(rules, View(), fd);
    }

    // Nothing to send, parse or read.
    method GoIdle(fd: Fd)
      requires Ok() && Flushing(rules, View(), fd) && !HasCompleteHeader(clients[fd].inputBuffer)
      requires clients[fd].outputBuffer == "" && !clients[fd].closeAfterWrite && !clients[fd].readyForRead
      modifies `clients, `journal, `timerHeap, kernel`clock, kernel`interest
      ensures Ok() && Served(old(View()), View(), fd) && Good(rules, View(), fd)
      ensures SameButWaiting(old(clients)[fd], clients[fd]) && journal[fd].requests == old(journal)[fd].requests
      ensures journal[fd].deadlines == DrainedDeadlines(old(journal)[fd].deadlines, clients[fd], kernel.clock)
      ensures clients[fd].keepAliveEnabled ==> Waits(View(), fd, IdleTimer, kernel.clock + IDLE_KEEP_ALIVE_TIMEOUT)
      ensures kernel.clock >= old(kernel.clock)
    {
      ghost var e0 := View();
      ServedRefl(rules, e0, fd);
      if clients[fd].keepAliveEnabled {
        var now := kernel.Now();
        ArmIdleKeepAliveTimeout(fd, now);
      }
      ghost var e1 := View();
      UpdateClientPollMask(fd);
      ServedTrans(e0, e1, View(), fd);
      IdleAfterFlush(rules, e0, e1, View(), fd);
    }

    // Writes until the buffer is empty, the budget used up or the socket full.
    method FlushClientOutput(fd: Fd, budget: EventBudget)
      requires Ok() && (fd in clients ==> Poised(rules, View(), fd))
      modifies this, kernel, budget
      ensures Ok() && Served(old(View()), View(), fd) && GoneFor(old(View()), View(), fd, Answering)
      ensures fd in clients ==> fd in old(clients) && Good(rules, View(), fd)
      ensures fd in clients ==>
        if clients[fd].outputBuffer == "" then Drained(View(), fd, kernel.clock)
        else budget.writeRemaining == 0 || SocketFull(View(), fd)
      ensures fd in clients && clients[fd].outputBuffer == "" ==>
        journal[fd].deadlines == DrainedDeadlines(old(journal)[fd].deadlines, clients[fd], kernel.clock)
      ensures fd in clients && clients[fd].outputBuffer != "" ==> journal[fd].deadlines == old(journal)[fd].deadlines
      // draining never leaves a connection without a clock
      ensures fd in clients && old(journal)[fd].requests != [] ==> !Unwatched(clients[fd])
      ensures Flushed(old(View()), View(), fd, old(budget.writeRemaining) - budget.writeRemaining)
      ensures budget.writeRemaining <= old(budget.writeRemaining)
      ensures budget.readRemaining == old(budget.readRemaining)
      ensures kernel.clock >= old(kernel.clock)
    {
      ghost var e0 := View();
      ServedRefl(rules, e0, fd);
      while true
        invariant Ok() && Served(e0, View(), fd) && GoneFor(e0, View(), fd, Answering) && (fd in clients ==> Flushing(rules, View(), fd))
        invariant fd in clients ==> fd in old(clients) && journal == old(journal)
        invariant Flushed(e0, View(), fd, old(budget.writeRemaining) - budget.writeRemaining)
        invariant budget.writeRemaining <= old(budget.writeRemaining)
        invariant kernel.clock >= old(kernel.clock) && budget.readRemaining == old(budget.readRemaining)
        decreases if fd in clients then |clients[fd].outputBuffer| else 0
      {
        if fd !in clients || clients[fd].closing {
          return;
        }
        ghost var e1 := View();
        if clients[fd].outputBuffer == "" {
          FinishFlush(fd);
          ServedTrans(e0, e1, View(), fd);
          return;
        }
        if budget.writeRemaining == 0 {
          UpdateClientPollMask(fd);
          ServedTrans(e0, e1, View(), fd);
          FlushingIsRested(rules, e1, View(), fd);
          PoisedIsGood(rules, View(), fd);
          return;
        }
        var sent := FlushOnce(fd, budget);
        ServedTrans(e0, e1, View(), fd);
        if !sent {
          if fd in clients {
            StuckIsGood(rules, e1, fd);
          }
          return;
        }
      }
    }

    // The socket has taken the first n bytes of the output buffer.
    method AccountForWrite(fd: Fd, n: nat, budget: EventBudget, ghost before: Engine)
      requires Shape(rules, before) && Counted(before) && forall c :: c in pendingCloseQueue ==> Retired(c)
      requires Flushing(rules, before, fd) && fd in clients && n <= |clients[fd].outputBuffer| && n <= budget.writeRemaining
      requires View() == Moved(before, fd, before.sockets[fd].(sent := before.sockets[fd].sent + clients[fd].outputBuffer[..n], full := false))
      modifies `clients, `globalInflightBytes, `metrics, budget`writeRemaining
      ensures Ok() && Served(before, View(), fd) && Flushing(rules, View(), fd)
      ensures clients == old(clients)[fd := old(clients)[fd].(outputBuffer := old(clients)[fd].outputBuffer[n..])]
      ensures budget.writeRemaining == old(budget.writeRemaining) - n
      ensures Flushed(before, View(), fd, n)
    {
      MoveIsServing(rules, before, fd, kernel.sockets[fd]);
      ghost var e1 := View();
      budget.writeRemaining := budget.writeRemaining - n;
      ConsumeOutput(fd, n);
      ServedTrans(before, e1, View(), fd);
      FlushingAfterWrite(rules, before, View(), fd, n);
    }

    // A write that took nothing: an error closes the connection.
    method StopWriting(fd: Fd, w: WriteResult, ghost before: Engine)
      requires Shape(rules, before) && Counted(before) && Flushing(rules, before, fd)
      requires View() == if w.WriteError? then before else Moved(before, fd, before.sockets[fd].(full := true))
      requires forall c :: c in pendingCloseQueue ==> Retired(c)
      requires w.WriteError? ==> fd in kernel.broken
      modifies this, kernel
      ensures Ok() && Served(before, View(), fd) && GoneFor(before, View(), fd, Answering)
      ensures if w.WriteError? then fd !in clients else View() == old(View())
      ensures kernel.clock == old(kernel.clock)
    {
      if w.WriteError? {
        FlushingIsOnTrack(rules, before, fd);
        FailConnection(fd, WriteFailed);
      } else {
        MoveIsServing(rules, before, fd, kernel.sockets[fd]);
      }
    }

    // One write from the output buffer. False means stop: closed, or the socket is full.
    method FlushOnce(fd: Fd, budget: EventBudget) returns (sent: bool)
      requires Ok() && Flushing(rules, View(), fd) && clients[fd].outputBuffer != "" && budget.writeRemaining > 0
      modifies this, kernel, budget
      ensures Ok() && Served(old(View()), View(), fd) && GoneFor(old(View()), View(), fd, Answering)
      ensures sent ==> Flushing(rules, View(), fd) && journal == old(journal)
      ensures Flushed(old(View()), View(), fd, old(budget.writeRemaining) - budget.writeRemaining)
      ensures sent ==> |clients[fd].outputBuffer| < |old(clients)[fd].outputBuffer|
      ensures !sent && fd in clients ==> View() == Moved(old(View()), fd, old(kernel.sockets)[fd].(full := true))
      ensures budget.writeRemaining <= old(budget.writeRemaining)
      ensures budget.readRemaining == old(budget.readRemaining)
      ensures kernel.clock == old(kernel.clock)
    {
      ghost var e0 := View();
      var output := clients[fd].outputBuffer;
      var attempt := if |output| < budget.writeRemaining then |output| else budget.writeRemaining;
      var w := kernel.Write(fd, output[..attempt]);
      if w.WriteError? || w.count == 0 {
        NothingSent(e0.sockets[fd], output[..attempt]);
        StopWriting(fd, w, e0);
        return false;
      }
      assert output[..attempt][..w.count] == output[..w.count];
      AccountForWrite(fd, w.count, budget, e0);
      sent := true;
    }

    // ------------------------------------------------------------ serving one connection

    // Work that does not wait for the poller: first write, then body, then headers, then read.
    method ContinueReadyConnection(fd: Fd, budget: EventBudget)
      requires Ok() && (fd in clients ==> Poised(rules, View(), fd))
      modifies this, kernel, kernel.inputs, budget, trace`served
      ensures trace.served == old(trace.served) + OwnerOf(fd, old(clients))
      ensures Ok() && Served(old(View()), View(), fd) && GoneFor(old(View()), View(), fd, Reading)
      ensures fd in clients ==> Good(rules, View(), fd)
      ensures fd in clients && fd in old(clients) && budget.writeRemaining > 0 ==>
        |kernel.sockets[fd].sent| >= |old(kernel.sockets)[fd].sent| + |old(clients)[fd].outputBuffer| || kernel.sockets[fd].full
      ensures OutputFirst(old(View()), View(), fd)
      ensures fd in old(clients) && old(clients)[fd].outputBuffer == "" && HasCompleteHeader(old(clients)[fd].inputBuffer) ==>
        Advanced(old(View()), View(), fd)
      ensures fd in clients && fd in old(clients) && old(clients)[fd].readyForRead ==>
        clients[fd].outputBuffer != "" || clients[fd].waitingForRequestBody || clients[fd].inReadyQueue || fd in kernel.inputs.dry
      // a resumed read that brings nothing takes back the flag and leaves everything else, clocks included
      ensures budget.readRemaining == old(budget.readRemaining) > 0 && fd in clients && fd in old(clients) && HasNothingToDo(old(clients)[fd]) ==>
        clients[fd] == old(clients)[fd].(readyForRead := false)
      // a pending body waits for the poller, whatever has been postponed
      ensures fd in old(clients) && old(clients)[fd].outputBuffer == "" && old(clients)[fd].waitingForRequestBody ==>
        && fd in clients && clients[fd] == old(clients)[fd] && journal[fd] == old(journal)[fd]
        && ReceivedNothing(old(View()), View(), fd)
      ensures Traffic(old(View()), View(), fd, old(budget.readRemaining) - budget.readRemaining, old(budget.writeRemaining) - budget.writeRemaining)
      ensures budget.readRemaining <= old(budget.readRemaining) && budget.writeRemaining <= old(budget.writeRemaining)
      ensures kernel.clock >= old(kernel.clock)
    {
      ghost var e0 := View();
      ServedRefl(rules, e0, fd);
      trace.served := trace.served + OwnerOf(fd, clients);
      if fd !in clients || clients[fd].closing {
        return;
      }
      if clients[fd].outputBuffer != "" {
        FlushClientOutput(fd, budget);
      }
      if fd !in clients || clients[fd].outputBuffer != "" {
        return;
      }
      ghost var e1 := View();
      ContinueInput(fd, budget);
      ServedTrans(e0, e1, View(), fd);
      OutputWasFirst(e0, e1, View(), fd, |e0.clients[fd].outputBuffer|);
    }

    // Nothing to send: first the pending body, then the headers behind it.
    method ContinueInput(fd: Fd, budget: EventBudget)
      requires Ok() && Poised(rules, View(), fd) && clients[fd].outputBuffer == ""
      modifies this, kernel, kernel.inputs, budget
      ensures Ok() && Served(old(View()), View(), fd) && GoneFor(old(View()), View(), fd, Reading)
      ensures fd in clients ==> Good(rules, View(), fd)
      ensures HasCompleteHeader(old(clients)[fd].inputBuffer) ==> Advanced(old(View()), View(), fd)
      ensures fd in clients && old(clients)[fd].readyForRead ==>
        clients[fd].outputBuffer != "" || clients[fd].waitingForRequestBody || clients[fd].inReadyQueue || fd in kernel.inputs.dry
      ensures budget.readRemaining == old(budget.readRemaining) > 0 && fd in clients && HasNothingToDo(old(clients)[fd]) ==>
        clients[fd] == old(clients)[fd].(readyForRead := false)
      ensures old(clients)[fd].waitingForRequestBody ==>
        && fd in clients && clients[fd] == old(clients)[fd] && journal[fd] == old(journal)[fd]
        && ReceivedNothing(old(View()), View(), fd)
      ensures Traffic(old(View()), View(), fd, old(budget.readRemaining) - budget.readRemaining, old(budget.writeRemaining) - budget.writeRemaining)
      ensures budget.readRemaining <= old(budget.readRemaining) && budget.writeRemaining <= old(budget.writeRemaining)
      ensures kernel.clock >= old(kernel.clock)
    {
      ghost var e0 := View();
      ServedRefl(rules, e0, fd);
      if clients[fd].waitingForRequestBody {
        var ok := ConsumePendingRequestBody(fd, budget);
        if fd in clients {
          ReceivedNoMore(e0, View(), fd);
        }
        if !ok {
          return;
        }
      }
      if fd !in clients || clients[fd].waitingForRequestBody || clients[fd].outputBuffer != "" {
        if fd in clients {
          PoisedIsGood(rules, View(), fd);
        }
        return;
      }
      ghost var e1 := View();
      ContinueParsing(fd, budget);
      ServedTrans(e0, e1, View(), fd);
    }

    method ContinueParsing(fd: Fd, budget: EventBudget)
      requires Ok() && Poised(rules, View(), fd) && !clients[fd].waitingForRequestBody
      modifies this, kernel, kernel.inputs, budget
      ensures Ok() && Served(old(View()), View(), fd) && GoneFor(old(View()), View(), fd, Reading)
      ensures fd in clients ==> Good(rules, View(), fd)
      ensures HasCompleteHeader(old(clients)[fd].inputBuffer) ==> Advanced(old(View()), View(), fd)
      ensures fd in clients && old(clients)[fd].readyForRead ==> clients[fd].outputBuffer != "" || clients[fd].inReadyQueue || fd in kernel.inputs.dry
      ensures budget.readRemaining == old(budget.readRemaining) > 0 && fd in clients && HasNothingToDo(old(clients)[fd]) ==>
        clients[fd] == old(clients)[fd].(readyForRead := false)
      ensures Traffic(old(View()), View(), fd, old(budget.readRemaining) - budget.readRemaining, old(budget.writeRemaining) - budget.writeRemaining)
      ensures budget.readRemaining <= old(budget.readRemaining) && budget.writeRemaining <= old(budget.writeRemaining)
      ensures kernel.clock >= old(kernel.clock)
    {
      ghost var e0 := View();
      ServedRefl(rules, e0, fd);
      if HasCompleteHeader(clients[fd].inputBuffer) {
        var ok := ProcessBufferedHeaders(fd, budget);
        if !ok {
          return;
        }
      } else {
        PoisedIsGood(rules, e0, fd);
      }
      if fd !in clients || clients[fd].outputBuffer != "" {
        return;
      }
      if clients[fd].readyForRead {
        ghost var e1 := View();
        ResumeReading(fd, budget);
        ServedTrans(e0, e1, View(), fd);
        if HasCompleteHeader(old(clients)[fd].inputBuffer) {
          AdvancedLater(e0, e1, View(), fd);
        }
      }
    }

    // Goes on where the read budget ran out the last time.
    method ResumeReading(fd: Fd, budget: EventBudget)
      requires Ok() && fd in clients && Good(rules, View(), fd)
      modifies this, kernel, kernel.inputs, budget
      ensures Ok() && Served(old(View()), View(), fd) && GoneFor(old(View()), View(), fd, Reading)
      ensures fd in clients ==> Good(rules, View(), fd) && (fd in kernel.inputs.dry || clients[fd].inReadyQueue)
      ensures budget.readRemaining == old(budget.readRemaining) > 0 && fd in clients ==>
        clients[fd] == old(clients)[fd].(readyForRead := false)
      ensures Traffic(old(View()), View(), fd, old(budget.readRemaining) - budget.readRemaining, old(budget.writeRemaining) - budget.writeRemaining)
      ensures budget.readRemaining <= old(budget.readRemaining) && budget.writeRemaining <= old(budget.writeRemaining)
      ensures kernel.clock >= old(kernel.clock)
    {
      ghost var e0 := View();
      Store(fd, clients[fd].(readyForRead := false), journal[fd].(resumed := true));
      ghost var e1 := View();
      RestedAfterFlags(rules, e0, e1, fd);
      PoisedIsGood(rules, e1, fd);
      ReadFromClient(fd, budget);
      ServedTrans(e0, e1, View(), fd);
    }

    method CloseForHangup(fd: Fd)
      requires Ok() && (fd in clients ==> Good(rules, View(), fd))
      requires kernel.poller.HungUp(fd)
      modifies `clients, `readyQueue, `pendingCloseQueue, `activeConnectionCount, `globalInflightBytes, `metrics,
               `journal, `fate, `closeLog, kernel`interest, kernel`sockets
      ensures Ok() && Served(old(View()), View(), fd) && fd !in clients
      ensures fd in old(clients) ==> |closeLog| == |old(closeLog)| + 1 && closeLog[|old(closeLog)|].reason == PeerHangup
    {
      if fd in clients {
        HealthyIsOnTrack(rules, View(), fd);
        QuietClosing(rules, View(), fd, PeerHangup, Seen(fd, 0));
      }
      CloseClientConnection(fd, PeerHangup, if fd in clients then |kernel.sockets[fd].sent| else 0);
    }

    // A hangup closes. Anything else is served within the budget of one event.
    method HandleClientEvent(event: PollEvent)
      requires Ok() && (event.fd in clients ==> Good(rules, View(), event.fd))
      requires event.hangup ==> event in kernel.poller.Latest()
      modifies this, kernel, kernel.inputs, trace`dispatched
      ensures trace.dispatched == old(trace.dispatched) + OwnerOf(event.fd, old(clients))
      ensures Ok() && Served(old(View()), View(), event.fd)
      ensures event.fd in clients ==> Good(rules, View(), event.fd)
      ensures Dealt(old(View()), View(), event, kernel.inputs.dry)
      ensures kernel.inputs.dry - {event.fd} == old(kernel.inputs.dry) - {event.fd}
      ensures event.hangup ==> event.fd !in clients
      ensures event.hangup && event.fd in old(clients) ==> |closeLog| > |old(closeLog)| && closeLog[|old(closeLog)|].reason == PeerHangup
      ensures !event.hangup ==> GoneFor(old(View()), View(), event.fd, Reading)
      ensures !event.hangup && !event.writable && event.fd in old(clients) && old(clients)[event.fd].outputBuffer != "" ==> View() == old(View())
      ensures OutputFirst(old(View()), View(), event.fd)
      ensures WithinBudget(old(View()), View(), event.fd)
      ensures kernel.clock >= old(kernel.clock)
    {
      var fd := event.fd;
      ghost var e0 := View();
      ServedRefl(rules, e0, fd);
      trace.dispatched := trace.dispatched + OwnerOf(fd, clients);
      if event.hangup {
        CloseForHangup(fd);
        return;
      }
      if fd !in clients || clients[fd].closing {
        return;
      }
      var budget := new EventBudget();
      ServeEvent(event, budget);
    }

    // Queued output first: a connection whose output is stuck is neither read nor parsed.
    method ServeEvent(event: PollEvent, budget: EventBudget)
      requires Ok() && event.fd in clients && Good(rules, View(), event.fd) && !event.hangup
      requires budget.writeRemaining == MAX_WRITE_BYTES_PER_EVENT
      modifies this, kernel, kernel.inputs, budget
      ensures Ok() && Served(old(View()), View(), event.fd)
      ensures event.fd in clients ==> Good(rules, View(), event.fd)
      ensures Dealt(old(View()), View(), event, kernel.inputs.dry)
      ensures kernel.inputs.dry - {event.fd} == old(kernel.inputs.dry) - {event.fd}
      ensures GoneFor(old(View()), View(), event.fd, Reading)
      ensures !event.writable && old(clients)[event.fd].outputBuffer != "" ==> View() == old(View())
      ensures OutputFirst(old(View()), View(), event.fd)
      ensures Traffic(old(View()), View(), event.fd, old(budget.readRemaining) - budget.readRemaining, old(budget.writeRemaining) - budget.writeRemaining)
      ensures budget.readRemaining <= old(budget.readRemaining)
      ensures kernel.clock >= old(kernel.clock)
    {
      var fd := event.fd;
      ghost var e0 := View();
      ServedRefl(rules, e0, fd);
      if clients[fd].outputBuffer != "" {
        if event.writable {
          FlushClientOutput(fd, budget);
        }
        if fd !in clients || clients[fd].outputBuffer != "" {
          return;
        }
      }
      ghost var e1 := View();
      if event.readable {
        HandleReadable(fd, budget);
        ServedTrans(e0, e1, View(), fd);
        SentStaysSent(e1, View(), fd);
        OutputWasFirst(e0, e1, View(), fd, |e0.clients[fd].outputBuffer|);
      }
    }

    method StopIdling(fd: Fd)
      requires Ok() && Rested(rules, View(), fd)
      modifies `clients, `journal
      ensures Ok() && Served(old(View()), View(), fd) && Rested(rules, View(), fd)
      ensures clients[fd] == old(clients)[fd].Disarm(IdleTimer) && journal[fd] == old(journal)[fd].Disarm(IdleTimer)
    {
      ghost var e0 := View();
      DisarmTimeout(fd, IdleTimer);
      DisarmedTimersMove(e0, View(), fd, IdleTimer);
      RestedAfterTimers(rules, e0, View(), fd);
    }

    // The idle timer is exchanged for the header timer.
    method LeaveIdle(fd: Fd)
      requires Ok() && fd in clients && Good(rules, View(), fd) && clients[fd].idleTimeout.armed
      modifies `clients, `journal, `timerHeap, kernel`clock
      ensures Ok() && Served(old(View()), View(), fd) && Good(rules, View(), fd)
      ensures clients[fd].headerTimeout.armed && !clients[fd].idleTimeout.armed
      ensures SameButWaiting(old(clients)[fd], clients[fd]) && journal[fd].requests == old(journal)[fd].requests
      ensures OnHeaderClockSince(old(journal)[fd].deadlines, journal[fd].deadlines, old(kernel.clock), kernel.clock)
      ensures kernel.clock >= old(kernel.clock)
    {
      ghost var e0 := View();
      StopIdling(fd);
      ghost var e1 := View();
      StartHeaderClock(fd);
      HeaderClockStarts(e0.journal[fd].deadlines, kernel.clock, old(kernel.clock), kernel.clock);
      ServedTrans(e0, e1, View(), fd);
    }

    // An idle connection that starts a request is on the header clock from here on, until the
    // request is complete or its body begins.
    method HandleReadable(fd: Fd, budget: EventBudget)
      requires Ok() && fd in clients && Good(rules, View(), fd)
      modifies this, kernel, kernel.inputs, budget
      ensures Ok() && Served(old(View()), View(), fd) && GoneFor(old(View()), View(), fd, Reading)
      ensures fd in clients ==> Good(rules, View(), fd) && (fd in kernel.inputs.dry || clients[fd].inReadyQueue)
      ensures fd in clients && old(clients)[fd].idleTimeout.armed ==> OnHeaderClockUnlessDone(old(View()), View(), fd)
      // a body that is still pending keeps its deadlines, but an idle deadline becomes a header deadline
      ensures fd in clients && clients[fd].waitingForRequestBody ==>
        if !SameBody(old(View()), View(), fd) then journal[fd].deadlines == map[BodyTimer := BodyDeadline(View(), fd)]
        else if !old(clients)[fd].idleTimeout.armed then journal[fd].deadlines == old(journal)[fd].deadlines
        else OnHeaderClockSince(old(journal)[fd].deadlines, journal[fd].deadlines, old(kernel.clock), kernel.clock)
      ensures fd in clients && clients[fd].waitingForRequestBody && budget.readRemaining == 0 ==>
        clients[fd].readyForRead && clients[fd].inReadyQueue
      ensures Traffic(old(View()), View(), fd, old(budget.readRemaining) - budget.readRemaining, old(budget.writeRemaining) - budget.writeRemaining)
      ensures budget.readRemaining <= old(budget.readRemaining) && budget.writeRemaining <= old(budget.writeRemaining)
      ensures kernel.inputs.dry - {fd} == old(kernel.inputs.dry) - {fd}
      ensures kernel.clock >= old(kernel.clock)
    {
      ghost var e0 := View();
      ServedRefl(rules, e0, fd);
      if clients[fd].idleTimeout.armed {
        LeaveIdle(fd);
      }
      ghost var e1 := View();
      ReadFromClient(fd, budget);
      ServedTrans(e0, e1, View(), fd);
    }

    // ------------------------------------------------------------ accepting

    // Asks the limiter, which puts its answer on record.
    method AskLimiter(endpoint: string) returns (ok: bool, ghost run: seq<RateLimiter.Event>)
      requires AboutToArrive(endpoint) && LimiterOk() && limiter.horizon <= kernel.clock
      modifies kernel`clock, limiter
      ensures LimiterOk() && old(kernel.clock) <= limiter.horizon <= kernel.clock
      ensures RateLimiter.Decision(old(limiter.events), run, limiter.events,
                                   RateLimiter.ExtractIpFromPeerEndpoint(endpoint), limiter.horizon, ok)
      ensures old(limiter.events) <= limiter.events
      ensures |RateLimiter.AdmittedLog(limiter.events)| == |RateLimiter.AdmittedLog(old(limiter.events))| + (if ok then 1 else 0)
      ensures RateLimiter.CameFrom(RateLimiter.Arrivals(limiter.events), kernel.listener.accepted)
      ensures RateLimiter.Refusals(limiter.events) == RateLimiter.Refusals(old(limiter.events)) + (if ok then 0 else 1)
    {
      assert Consulted(0);
      var ip := RateLimiter.ExtractIpFromPeerEndpoint(endpoint);
      var now := kernel.Now();
      ok, run := limiter.Admit(ip, now);
      RateLimiter.DecisionIsLogged(old(limiter.events), run, limiter.events, ip, now, ok);
    }

    // False means refused with 429: the socket is still open and still unregistered.
    method CheckIpRateLimitBeforeRegister(accepted: AcceptedSocket) returns (ok: bool, ghost run: seq<RateLimiter.Event>)
      requires Accepting(rules, View(), accepted.fd)
      requires AboutToArrive(accepted.endpoint) && LimiterOk() && limiter.horizon <= kernel.clock
      modifies `metrics, kernel`clock, kernel`sockets, kernel`broken, limiter
      ensures LimiterOk() && old(kernel.clock) <= limiter.horizon <= kernel.clock
      ensures RateLimiter.Decision(old(limiter.events), run, limiter.events,
                                   RateLimiter.ExtractIpFromPeerEndpoint(accepted.endpoint), limiter.horizon, ok)
      ensures kernel.sockets.Keys == old(kernel.sockets).Keys
      ensures old(limiter.events) <= limiter.events && (if ok then AboutToConnect() else OnRecord())
      ensures ok ==> View() == old(View())
      ensures !ok ==> RefusedButOpen(old(View()), View(), accepted.fd)
      ensures !ok ==> accepted.fd in kernel.sockets && PageWritten(accepted.fd, old(kernel.sockets)[accepted.fd], 429)
    {
      assert Consulted(0);
      ok, run := AskLimiter(accepted.endpoint);
      if ok {
        return;
      }
      RefuseAccepted(accepted.fd);
    }

    method RefuseAccepted(fd: Fd)
      requires fd in kernel.sockets
      modifies `metrics, kernel`sockets, kernel`broken
      ensures kernel.sockets.Keys == old(kernel.sockets).Keys
      ensures RefusedButOpen(old(View()), View(), fd)
      ensures fd in old(kernel.sockets) && fd in kernel.sockets && PageWritten(fd, old(kernel.sockets)[fd], 429)
    {
      RecordRejectMetric(429);
      RecordErrorMetric();
      ghost var sockets := kernel.sockets;
      var complete, count := kernel.WriteBestEffort(fd, rules.errorResponse(429));
      UpdateElsewhere(sockets, fd, kernel.sockets[fd]);
    }

    // Over the limit the newcomer is closed again through the ordinary closing entry.
    method EnforceConnectionLimitAfterRegister(fd: Fd) returns (ok: bool)
      requires Ok() && (fd in clients ==> Good(rules, View(), fd))
      modifies this, kernel`interest, kernel`sockets
      ensures Ok() && Served(old(View()), View(), fd)
      ensures fd in clients ==> Good(rules, View(), fd)
      ensures fd in old(clients) ==> (ok <==> old(activeConnectionCount) <= 200000)
      ensures fd in old(clients) ==>
        if ok then View() == old(View())
        else
          && activeConnectionCount == old(activeConnectionCount) - 1 && fd !in clients && nextConnectionId == old(nextConnectionId)
          && |closeLog| == |old(closeLog)| + 1 && closeLog[|old(closeLog)|].reason == ConnectionLimit
    {
      ghost var e0 := View();
      ServedRefl(rules, e0, fd);
      if fd !in clients || clients[fd].closing {
        return false;
      }
      if activeConnectionCount <= MAX_CONNECTIONS {
        return true;
      }
      metrics := metrics.(connRejectTotal := metrics.connRejectTotal + 1, rejectTotal := metrics.rejectTotal + 1);
      RecordErrorMetric();
      CountIsServing(rules, e0, fd, metrics);
      ghost var e1 := View();
      HealthyIsOnTrack(rules, e0, fd);
      QuietClosing(rules, e1, fd, ConnectionLimit, Seen(fd, 0));
      LimitIsCounted(e0);
      CloseClientConnection(fd, ConnectionLimit, |kernel.sockets[fd].sent|);
      ServedTrans(e0, e1, View(), fd);
      ok := false;
    }

    // Enters an admitted connection into the tables, under a fresh id.
    method AddConnection(fd: Fd)
      requires Accepting(rules, View(), fd) && AboutToConnect()
      modifies this, kernel`interest
      ensures View() == Registered(Uncounted(old(View()), fd).(sockets := old(kernel.sockets)), fd)
      ensures pendingCloseQueue == old(pendingCloseQueue) && OnRecord()
    {
      NotPolled(rules, View(), fd);
      var connection := NewConnection(nextConnectionId);
      nextConnectionId := nextConnectionId + 1;
      kernel.EpollAdd(fd, PollMask(true, false, true));
      clients := clients[fd := connection];
      activeConnectionCount := activeConnectionCount + 1;
      metrics := metrics.(connsCurrent := activeConnectionCount);
      journal := journal[fd := EMPTY_JOURNAL];
      fate := fate[connection.connectionId := Some(fd)];
    }

    // The two gates of accept: the token bucket before registration, the connection limit after.
    method RegisterAcceptedConnection(accepted: AcceptedSocket)
      returns (ghost admitted: bool, ghost run: seq<RateLimiter.Event>)
      requires Accepting(rules, View(), accepted.fd) && Surroundings() && AboutToArrive(accepted.endpoint)
      modifies this, kernel`interest, kernel`sockets, kernel`broken, kernel`clock, limiter
      ensures Running() && kernel.clock >= old(kernel.clock)
      ensures clients - {accepted.fd} == old(clients) && metrics.acceptTotal == old(metrics).acceptTotal && Ran(old(View()), View())
      ensures forall f :: f in old(clients) ==> Undisturbed(old(View()), View(), f)
      ensures old(limiter.events) <= limiter.events
      ensures kernel.backlog == old(kernel.backlog) && old(kernel.clock) <= limiter.horizon <= kernel.clock
      ensures RateLimiter.Decision(old(limiter.events), run, limiter.events,
                                   RateLimiter.ExtractIpFromPeerEndpoint(accepted.endpoint), limiter.horizon, admitted)
      ensures var ip := RateLimiter.ExtractIpFromPeerEndpoint(accepted.endpoint);
              RateLimiter.AdmittedLog(limiter.events) == RateLimiter.AdmittedLog(old(limiter.events))
                + (if admitted then [RateLimiter.Admission(ip, limiter.horizon)] else [])
      ensures if admitted then Connected(old(View()), View(), accepted.fd, kernel.clock) else View() == RefusedAt(old(View()), accepted.fd)
    {
      var fd := accepted.fd;
      ghost var e0 := View();
      WithoutMissing(clients, fd);
      var ok;
      ok, run := CheckIpRateLimitBeforeRegister(accepted);
      admitted := ok;
      RateLimiter.DecisionIsLogged(old(limiter.events), run, limiter.events,
                                   RateLimiter.ExtractIpFromPeerEndpoint(accepted.endpoint), limiter.horizon, ok);
      if !ok {
        DiscardRefused(fd, e0);
        UndisturbedByAccepting(rules, e0, View(), fd);
        return;
      }
      ConnectAdmitted(fd);
      UndisturbedByAccepting(rules, e0, View(), fd);
    }

    // A refused socket is closed as it goes out of scope.
    method DiscardRefused(fd: Fd, ghost before: Engine)
      requires Accepting(rules, before, fd) && Surroundings() && OnRecord()
      requires RefusedButOpen(before, View(), fd)
      modifies kernel`sockets
      ensures Running() && View() == RefusedAt(before, fd) && Ran(before, View())
    {
      NotPolled(rules, before, fd);
      RefusalIsValid(rules, before, fd);
      RanByRefusal(rules, before, fd);
      kernel.Close(fd);
    }

    method ConnectAdmitted(fd: Fd)
      requires Accepting(rules, View(), fd) && Surroundings() && AboutToConnect()
      modifies this, kernel`interest, kernel`sockets, kernel`clock
      ensures Running() && clients - {fd} == old(clients) && kernel.sockets - {fd} == old(kernel.sockets) - {fd}
      ensures metrics.acceptTotal == old(metrics).acceptTotal && Ran(old(View()), View())
      ensures kernel.clock >= old(kernel.clock)
      ensures Connected(old(View()), View(), fd, kernel.clock)
    {
      ghost var e0 := View();
      ConnectIsSound(rules, e0, fd);
      AddConnection(fd);
      ghost var e1 := View();
      StartConnection(fd);
      RanTrans(e0, e1, View());
    }

    method StartHeaderClock(fd: Fd)
      requires Ok() && Rested(rules, View(), fd) && (Stalled(clients[fd]) ==> LastHadBody(journal[fd].requests))
      modifies `clients, `journal, `timerHeap, kernel`clock
      ensures Ok() && Served(old(View()), View(), fd) && Good(rules, View(), fd)
      ensures Waits(View(), fd, HeaderTimer, kernel.clock + HEADER_TIMEOUT)
      ensures clients == old(clients)[fd := old(clients)[fd].Disarm(IdleTimer).Arm(HeaderTimer)]
      ensures journal == old(journal)[fd := old(journal)[fd].Disarm(IdleTimer).Arm(HeaderTimer, kernel.clock + HEADER_TIMEOUT)]
      ensures kernel.clock >= old(kernel.clock)
    {
      ghost var e0 := View();
      var now := kernel.Now();
      ArmHeaderTimeout(fd, now);
      GoodOnceArmed(rules, e0, View(), fd);
    }

    // The newcomer gets its header timer and faces the connection limit.
    method StartConnection(fd: Fd)
      requires Ok() && fd in clients && Rested(rules, View(), fd) && OthersGood(rules, View(), fd) && Surroundings() && OnRecord()
      requires !Stalled(clients[fd])
      requires View().sockets.Keys == View().clients.Keys && activeConnectionCount <= MAX_CONNECTIONS + 1
      modifies this, kernel`interest, kernel`sockets, kernel`clock
      ensures Running() && kernel.clock >= old(kernel.clock)
      ensures clients - {fd} == old(clients) - {fd} && kernel.sockets - {fd} == old(kernel.sockets) - {fd}
      ensures metrics.acceptTotal == old(metrics).acceptTotal && metrics.reject429 == old(metrics).reject429
      ensures nextConnectionId == old(nextConnectionId) && Ran(old(View()), View())
      ensures if old(activeConnectionCount) <= MAX_CONNECTIONS then
                && fd in clients && clients[fd] == old(clients)[fd].Disarm(IdleTimer).Arm(HeaderTimer)
                && Waits(View(), fd, HeaderTimer, kernel.clock + HEADER_TIMEOUT)
                && journal[fd].requests == old(journal)[fd].requests && kernel.sockets == old(kernel.sockets)
              else
                fd !in clients && |closeLog| == |old(closeLog)| + 1 && closeLog[|old(closeLog)|].reason == ConnectionLimit
    {
      ghost var e1 := View();
      StartHeaderClock(fd);
      ghost var e2 := View();
      var ok := EnforceConnectionLimitAfterRegister(fd);
      ServedTrans(e1, e2, View(), fd);
      ServedKeepsSockets(e1, e2, fd);
      ValidAfterServing(rules, e1, View(), fd);
    }

    method AcceptOne() returns (accepted: Option<AcceptedSocket>)
      requires Running()
      modifies `metrics, kernel`sockets, kernel`backlog, kernel`broken, kernel.inputs`ended, kernel.inputs`broken, kernel.listener
      ensures accepted.None? ==> Running() && metrics == old(metrics) && kernel.listener.dry
      ensures forall f :: f in old(clients) ==> Undisturbed(old(View()), View(), f)
      ensures accepted.Some? ==> metrics.acceptTotal == old(metrics).acceptTotal + 1
      ensures Ran(old(View()), View()) && nextConnectionId == old(nextConnectionId) && metrics.reject429 == old(metrics).reject429
      ensures accepted.Some? ==>
        Accepting(rules, View(), accepted.value.fd) && Surroundings() && AboutToArrive(accepted.value.endpoint) && kernel.backlog < old(kernel.backlog)
    {
      ghost var e0, peers := View(), kernel.listener.accepted;
      assert Consulted(0);
      RanSoFar(rules, e0);
      accepted := kernel.Accept();
      if accepted.Some? {
        metrics := metrics.(acceptTotal := metrics.acceptTotal + 1);
        AcceptedIsAccepting(rules, e0, View(), accepted.value.fd);
        RateLimiter.OneMorePeer(RateLimiter.Arrivals(limiter.events), peers, accepted.value.endpoint);
      }
    }

    // Accepts until nothing is left, putting every arrival on record.
    method DrainAcceptQueue() returns (acceptedCount: nat)
      requires Running()
      modifies this, kernel, kernel.inputs`ended, kernel.inputs`broken, kernel.listener, limiter
      ensures Running() && kernel.listener.dry && kernel.clock >= old(kernel.clock)
      ensures old(limiter.events) <= limiter.events
      ensures nextConnectionId + metrics.reject429 == old(nextConnectionId) + old(metrics).reject429 + acceptedCount
      ensures metrics.acceptTotal == old(metrics).acceptTotal + acceptedCount && Ran(old(View()), View())
      ensures forall f :: f in old(clients) ==> Undisturbed(old(View()), View(), f)
    {
      acceptedCount := 0;
      ghost var e0 := View();
      RanSoFar(rules, e0);
      while true
        invariant Running() && kernel.clock >= old(kernel.clock) && Ran(e0, View()) && old(limiter.events) <= limiter.events
        invariant nextConnectionId + metrics.reject429 == old(nextConnectionId) + old(metrics).reject429 + acceptedCount
        invariant metrics.acceptTotal == old(metrics).acceptTotal + acceptedCount
        invariant forall f :: f in old(clients) ==> Undisturbed(e0, View(), f)
        decreases kernel.backlog
      {
        ghost var e1 := View();
        var accepted := AcceptOne();
        ghost var e2 := View();
        RanTrans(e0, e1, e2);
        if accepted.None? {
          return;
        }
        acceptedCount := acceptedCount + 1;
        ghost var admitted, run := RegisterAcceptedConnection(accepted.value);
        RanTrans(e0, e2, View());
      }
    }

    // ------------------------------------------------------------ the ready queue

    // Takes the front of the queue off it.
    method TakeFront() returns (fd: Fd)
      requires Running() && readyQueue != []
      modifies `readyQueue, `clients
      ensures Ok() && fd == old(readyQueue)[0] && fd in old(clients) && fd !in readyQueue && Poised(rules, View(), fd)
      ensures View() == Put(old(View()), fd, old(clients)[fd].(inReadyQueue := false), journal[fd]).(ready := old(readyQueue)[1..])
    {
      ghost var e0 := View();
      DequeueKeepsShape(rules, e0);
      fd := readyQueue[0];
      GoodNow(rules, e0, fd);
      readyQueue := readyQueue[1..];
      clients := clients[fd := clients[fd].(inReadyQueue := false)];
      SameEntry(journal, fd);
      RestedAfterFlags(rules, e0, View(), fd);
    }

    // Serves the connection at the front. The guard for a connection that is gone cannot fire:
    // closing takes it out of the queue.
    method ServeNextReady() returns (ghost fd: Fd)
      requires Running() && readyQueue != []
      modifies this, kernel, kernel.inputs, trace`served
      ensures trace.served == old(trace.served) + OwnerOf(fd, old(clients))
      ensures Running() && kernel.clock >= old(kernel.clock) && Ran(old(View()), View())
      ensures fd == old(readyQueue)[0] && fd in old(clients)
      ensures clients - {fd} == old(clients) - {fd} && journal - {fd} == old(journal) - {fd}
      ensures kernel.sockets - {fd} == old(kernel.sockets) - {fd}
      ensures GoneFor(old(View()), View(), fd, Reading)
      ensures ServedFromQueue(old(View()), View(), fd)
      ensures WithinBudget(old(View()), View(), fd) && OutputFirst(old(View()), View(), fd)
      ensures fd in clients && old(clients)[fd].readyForRead ==>
        clients[fd].waitingForRequestBody || ReadOrQueued(View(), fd, kernel.inputs.dry)
      ensures fd in clients && HasNothingToDo(old(clients)[fd]) && ReceivedNothing(old(View()), View(), fd) ==>
        clients[fd] == old(clients)[fd].(inReadyQueue := false, readyForRead := false)
      ensures old(clients)[fd].outputBuffer == "" && old(clients)[fd].waitingForRequestBody ==>
        && fd in clients && clients[fd] == old(clients)[fd].(inReadyQueue := false) && journal[fd] == old(journal)[fd]
        && ReceivedNothing(old(View()), View(), fd)
      ensures readyQueue == old(readyQueue)[1..] || readyQueue == old(readyQueue)[1..] + [fd]
    {
      ghost var e0 := View();
      var front := TakeFront();
      fd := front;
      ghost var e1 := View();
      var budget := new EventBudget();
      ContinueReadyConnection(front, budget);
      ValidAfterDequeue(rules, e0, e1, View(), front);
    }

    // The i-th of the connections that were queued in state a; those in again have come back since.
    method ServeQueued(ghost a: Engine, ghost i: nat, ghost again: seq<Fd>) returns (ghost again': seq<Fd>)
      requires Running() && Valid(rules, a) && Ran(a, View())
      requires i < |a.ready| && ServedSoFar(a, View(), i) && readyQueue == a.ready[i..] + again
      modifies this, kernel, kernel.inputs, trace`served
      ensures Running() && kernel.clock >= old(kernel.clock) && Ran(a, View())
      ensures trace.served == old(trace.served) + OwnerOf(a.ready[i], a.clients)
      ensures ServedSoFar(a, View(), i + 1)
      ensures readyQueue == a.ready[i + 1..] + again' && (again' == again || again' == again + [a.ready[i]])
    {
      ghost var e := View();
      FrontOfQueue(a.ready, again, i);
      NotServedYet(rules, a, i);
      UnsealServed(a, e, i);
      assert Untouched(a, e, a.ready[i]);
      ghost var fd := ServeNextReady();
      RanTrans(a, e, View());
      ServeOneMore(rules, a, e, View(), i);
      again' := if readyQueue == a.ready[i + 1..] + again then again else again + [fd];
    }

    method ServeAll()
      requires Running() && ServedSoFar(View(), View(), 0)
      modifies this, kernel, kernel.inputs, trace`served
      ensures Running() && kernel.clock >= old(kernel.clock) && Ran(old(View()), View())
      ensures trace.served == old(trace.served) + Owners(old(readyQueue), old(clients))
      ensures ServedSoFar(old(View()), View(), |old(readyQueue)|)
      ensures forall fd :: fd in readyQueue ==> fd in old(readyQueue)
    {
      ghost var e0, queued := View(), readyQueue;
      RanSoFar(rules, e0);
      ghost var again: seq<Fd> := [];
      var readyCount := |readyQueue|;
      for i := 0 to readyCount
        invariant Running() && kernel.clock >= old(kernel.clock) && Ran(e0, View())
        invariant readyQueue == queued[i..] + again
        invariant trace.served == old(trace.served) + Owners(queued[..i], e0.clients)
        invariant forall fd :: fd in again ==> fd in queued
        invariant ServedSoFar(e0, View(), i)
      {
        OneMoreOwner(queued, e0.clients, i);
        again := ServeQueued(e0, i, again);
      }
      assert queued[..readyCount] == queued;
    }

    // Serves exactly the connections queued at entry, in order, each once; a header that was waiting
    // is dealt with.
    method ProcessReadyQueue()
      requires Running()
      modifies this, kernel, kernel.inputs, trace`served
      ensures Running() && kernel.clock >= old(kernel.clock) && Ran(old(View()), View())
      ensures trace.served == old(trace.served) + Owners(old(readyQueue), old(clients))
      ensures forall fd :: fd in old(readyQueue) ==> ServedFromQueue(old(View()), View(), fd)
      ensures forall fd :: fd in readyQueue ==> fd in old(readyQueue)
      ensures forall fd :: fd in old(clients) && fd !in old(readyQueue) ==> fd in clients && clients[fd] == old(clients)[fd]
    {
      ghost var e0 := View();
      QueuedAreLive(rules, e0);
      ServeAll();
      UnsealServed(e0, View(), |e0.ready|);
    }

    // ------------------------------------------------------------ timers

    method TopTimer() returns (t: TimerEntry)
      requires timerHeap != multiset{}
      ensures IsTop(t, timerHeap)
    {
      ghost var top := TopExists(timerHeap);
      t :| t in timerHeap && forall u :: u in timerHeap ==> t.deadline <= u.deadline;
    }

    // Pops the node of an armed timer, which disarms it.
    method PopArmedTimer(t: TimerEntry)
      requires Ok() && t in timerHeap && IsCurrent(t, clients)
      modifies `timerHeap, `clients, `journal
      ensures Ok() && Served(old(View()), View(), t.fd)
      ensures t.fd in old(clients) && t.fd in old(journal) && t.kind in old(journal)[t.fd].deadlines
      ensures View() == Expired(old(View()), t) && old(journal)[t.fd].deadlines[t.kind] == t.deadline
    {
      ghost var e0 := View();
      PopCurrentKeepsTimers(rules, e0, t);
      ExpireKeepsShape(rules, e0, t);
      ExpireIsServing(rules, e0, t);
      timerHeap := timerHeap - multiset{t};
      clients := clients[t.fd := clients[t.fd].Disarm(t.kind)];
      journal := journal[t.fd := journal[t.fd].Expire(t.kind)];
    }

    // Counts a timeout.
    method RecordTimeout(fd: Fd, kind: TimerKind)
      requires Ok()
      modifies `metrics
      ensures Consistent() && Served(old(View()), View(), fd)
      ensures CountsOk(metrics, Reasons(closeLog) + multiset{TimedOut(kind)})
      ensures metrics.timeoutCloseTotal == old(metrics).timeoutCloseTotal + 1
    {
      ghost var e0 := View();
      RecordErrorMetric();
      metrics := metrics.(timeoutCloseTotal := metrics.timeoutCloseTotal + 1);
      CountIsServing(rules, e0, fd, metrics);
      TimeoutIsCounted(e0, kind);
    }

    // Closes a connection whose timeout has been counted.
    method CloseTimedOut(fd: Fd, kind: TimerKind)
      requires Consistent() && CountsOk(metrics, Reasons(closeLog) + multiset{TimedOut(kind)}) && fd in clients && Accounted(rules, View(), fd)
      requires journal[fd].lapsed.Some? && journal[fd].lapsed.value.kind == kind && journal[fd].lapsed.value.deadline <= kernel.clock
      modifies this, kernel`interest, kernel`sockets
      ensures Ok() && Served(old(View()), View(), fd)
      ensures timerHeap == old(timerHeap) && metrics.timeoutCloseTotal == old(metrics).timeoutCloseTotal
      ensures clients == old(clients) - {fd} && journal == old(journal) - {fd} && kernel.sockets == old(kernel.sockets) - {fd}
      ensures |closeLog| == |old(closeLog)| + 1 && old(closeLog) <= closeLog && closeLog[|old(closeLog)|].reason == TimedOut(kind)
      ensures old(activeConnectionCount) > 0 && activeConnectionCount == old(activeConnectionCount) - 1
    {
      ghost var record := RecordOf(View(), fd, TimedOut(kind), |kernel.sockets[fd].sent|, Seen(fd, 0));
      QuietClosing(rules, View(), fd, TimedOut(kind), Seen(fd, 0));
      CloseClientConnection(fd, TimedOut(kind), record.okBytes);
      LastOnRecord(old(closeLog), record);
    }

    method CloseExpired(fd: Fd, kind: TimerKind)
      requires Ok() && fd in clients && Accounted(rules, View(), fd)
      requires journal[fd].lapsed.Some? && journal[fd].lapsed.value.kind == kind && journal[fd].lapsed.value.deadline <= kernel.clock
      modifies this, kernel`interest, kernel`sockets
      ensures Ok() && Served(old(View()), View(), fd)
      ensures timerHeap == old(timerHeap)
      ensures clients == old(clients) - {fd} && journal == old(journal) - {fd} && kernel.sockets == old(kernel.sockets) - {fd}
      ensures |closeLog| == |old(closeLog)| + 1 && old(closeLog) <= closeLog && closeLog[|old(closeLog)|].reason == TimedOut(kind)
      ensures old(activeConnectionCount) > 0 && activeConnectionCount == old(activeConnectionCount) - 1
      ensures metrics.timeoutCloseTotal == old(metrics).timeoutCloseTotal + 1
    {
      ghost var e0 := View();
      RecordTimeout(fd, kind);
      ghost var e1 := View();
      CloseTimedOut(fd, kind);
      ServedTrans(e0, e1, View(), fd);
    }

    // Pops the node of an armed timer and closes its connection.
    method PopAndClose(t: TimerEntry)
      requires Ok() && t in timerHeap && IsCurrent(t, clients) && Accounted(rules, View(), t.fd)
      requires t.deadline <= kernel.clock
      modifies this, kernel`interest, kernel`sockets
      ensures Ok() && Served(old(View()), View(), t.fd) && t.fd !in clients
      ensures Popped(old(View()), View(), t, t.deadline)
      ensures timerHeap == old(timerHeap) - multiset{t}
    {
      ghost var e0 := View();
      PopArmedTimer(t);
      ghost var e1 := View();
      ExpiredMeans(rules, e0, t);
      CloseExpired(t.fd, t.kind);
      ServedTrans(e0, e1, View(), t.fd);
      ClosedIsPopped(e0, e1, View(), t);
    }

    method ExpireConnection(t: TimerEntry)
      requires Running() && t in timerHeap && IsCurrent(t, clients)
      requires t.deadline <= kernel.clock
      modifies this, kernel`interest, kernel`sockets
      ensures Running() && Popped(old(View()), View(), t, t.deadline) && Ran(old(View()), View())
      ensures timerHeap == old(timerHeap) - multiset{t}
    {
      ghost var e0 := View();
      GoodNow(rules, e0, t.fd);
      HealthyIsOnTrack(rules, e0, t.fd);
      PopAndClose(t);
      ValidAfterServing(rules, e0, View(), t.fd);
    }

    method ExpireTop(t: TimerEntry)
      requires Running() && t in timerHeap
      requires t.deadline <= kernel.clock
      modifies this, kernel`interest, kernel`sockets
      ensures Running() && Popped(old(View()), View(), t, t.deadline) && Ran(old(View()), View())
      ensures timerHeap == old(timerHeap) - multiset{t}
    {
      ghost var e0 := View();
      CurrentMeansArmed(rules, e0, t);
      if t.fd in clients && !clients[t.fd].closing && clients[t.fd].connectionId == t.connectionId {
        var timer := clients[t.fd].TimerOf(t.kind);
        if timer.armed && timer.generation == t.generation {
          ExpireConnection(t);
          return;
        }
      }
      PopStaleIsValid(rules, e0, t);
      RanStill(rules, e0, e0.(heap := timerHeap - multiset{t}));
      timerHeap := timerHeap - multiset{t};
    }

    // Closes exactly the connections with an armed deadline at or before now, counting each once.
    method ProcessExpiredTimers() returns (ghost now: int)
      requires Running()
      modifies this, kernel`interest, kernel`sockets, kernel`clock
      ensures Running() && old(kernel.clock) <= now == kernel.clock && Ran(old(View()), View())
      ensures clients == map fd | fd in old(clients) && !Due(old(journal)[fd], now) :: old(clients)[fd]
      ensures forall fd :: fd in clients ==> fd in journal && !Due(journal[fd], now) && Undisturbed(old(View()), View(), fd)
      ensures metrics.timeoutCloseTotal - old(metrics).timeoutCloseTotal == |old(clients)| - |clients|
      ensures |closeLog| - |old(closeLog)| == |old(clients)| - |clients|
      ensures old(closeLog) <= closeLog && forall i :: |old(closeLog)| <= i < |closeLog| ==> closeLog[i].reason.TimedOut?
    {
      ghost var e0 := View();
      RanSoFar(rules, e0);
      var time := kernel.Now();
      now := time;
      while timerHeap != multiset{}
        invariant Running() && kernel.clock == now && Expiring(e0, View(), now) && Ran(e0, View())
        decreases |timerHeap|
      {
        var t := TopTimer();
        if t.deadline > time {
          break;
        }
        ghost var e1 := View();
        ExpireTop(t);
        RanTrans(e0, e1, View());
        DueLater(e1, View(), t, now);
        ExpiringStep(e0, e1, View(), t, now);
      }
      ExpiryIsExact(rules, e0, View(), now);
    }

    // How long the poller may sleep. Time left is measured at now, when the heap was consulted.
    method ComputePollTimeoutMs() returns (ms: int, ghost now: int)
      requires Running()
      modifies kernel`clock
      ensures Running() && View() == old(View()) && old(kernel.clock) <= now <= kernel.clock
      ensures 0 <= ms <= 1000 && (readyQueue != [] ==> ms == 0)
      ensures ms > 0 ==> forall fd, kind :: fd in clients && kind in journal[fd].deadlines ==> ms * MS <= journal[fd].deadlines[kind] - now
      ensures ms < 1000 ==>
        || readyQueue != [] || (exists t :: t in timerHeap && t.deadline < now + (ms + 1) * MS) || log.nextTime < kernel.clock + (ms + 1) * MS
      ensures ms > 0 && log.nextTime != 0 ==> ms * MS <= log.nextTime - kernel.clock
    {
      now := kernel.clock;
      if readyQueue != [] {
        return 0, now;
      }
      var waitTimeoutMs := 1000;
      if timerHeap != multiset{} {
        var first := kernel.Now();
        now := first;
        var top := TopTimer();
        TopBoundsDeadlines(rules, View(), top);
        if top.deadline <= first {
          return 0, now;
        }
        var wait := (top.deadline - first) / MS;
        if wait <= 0 {
          return 0, now;
        }
        waitTimeoutMs := if wait > 1000 then 1000 else wait;
      } else {
        NoNodesNoDeadlines(rules, View());
      }
      if log.nextTime == 0 {
        return waitTimeoutMs, now;
      }
      var second := kernel.Now();
      if log.nextTime <= second {
        return 0, now;
      }
      // at most one interval ahead, so the narrowing to 32 bits loses nothing
      var metricsWait := (log.nextTime - second) / MS;
      if metricsWait <= 0 {
        return 0, now;
      }
      ms := if waitTimeoutMs < metricsWait then waitTimeoutMs else metricsWait;
    }

    // Writes a line when one is due and moves on to the next whole interval.
    method MaybeWriteMetricsLog()
      requires Running()
      modifies log, kernel`clock
      ensures Running() && View() == old(View()) && kernel.clock >= old(kernel.clock)
      ensures if old(log.nextTime) > kernel.clock then log.nextTime == old(log.nextTime)
              else kernel.clock < log.nextTime && (log.nextTime - old(log.nextTime)) % METRICS_LOG_INTERVAL == 0
    {
      var now := kernel.Now();
      if now < log.nextTime {
        return;
      }
      ghost var due := log.nextTime;
      log.nextTime := log.nextTime + METRICS_LOG_INTERVAL;
      while log.nextTime <= now
        invariant log.nextTime <= now + METRICS_LOG_INTERVAL
        invariant (log.nextTime - due) % METRICS_LOG_INTERVAL == 0
        decreases now - log.nextTime
        modifies log
      {
        log.nextTime := log.nextTime + METRICS_LOG_INTERVAL;
      }
    }

    method FlushPendingCloseQueue()
      requires Running()
      modifies `pendingCloseQueue
      ensures Running() && View() == old(View()) && pendingCloseQueue == []
    {
      pendingCloseQueue := [];
    }

    // ------------------------------------------------------------ the event loop

    method HandleListenEvent(event: PollEvent)
      requires Running()
      modifies this, kernel, kernel.inputs`ended, kernel.inputs`broken, kernel.listener, limiter
      ensures Running() && kernel.clock >= old(kernel.clock) && Ran(old(View()), View()) && old(limiter.events) <= limiter.events
      ensures event.readable ==> kernel.listener.dry
      ensures !event.readable ==> View() == old(View())
      ensures forall f :: f in old(clients) ==> Undisturbed(old(View()), View(), f)
    {
      RanSoFar(rules, View());
      if !event.readable {
        return;
      }
      var acceptedCount := DrainAcceptQueue();
    }

    // Serves one event; nothing but the connection it names can be touched or disappear.
    method HandlePollEvent(event: PollEvent)
      requires Running()
      requires event.hangup ==> event in kernel.poller.Latest()
      modifies this, kernel, kernel.inputs, kernel.listener, limiter, trace`dispatched
      ensures Running() && kernel.clock >= old(kernel.clock) && Ran(old(View()), View()) && old(limiter.events) <= limiter.events
      ensures trace.dispatched == old(trace.dispatched) + AddresseeOf(event, kernel.listenFd, old(clients))
      ensures event.fd == kernel.listenFd && event.readable ==> kernel.listener.dry
      ensures event.fd != kernel.listenFd ==>
        && WithinBudget(old(View()), View(), event.fd) && OutputFirst(old(View()), View(), event.fd)
        && (event.hangup ==> event.fd !in clients)
        && (event.hangup && event.fd in old(clients) ==> |closeLog| > |old(closeLog)| && closeLog[|old(closeLog)|].reason == PeerHangup)
        && (!event.hangup ==> GoneFor(old(View()), View(), event.fd, Reading))
        && (event.fd !in old(clients) ==> View() == old(View()))
        && Dealt(old(View()), View(), event, kernel.inputs.dry) && kernel.listener.dry == old(kernel.listener.dry)
      ensures kernel.inputs.dry - {event.fd} == old(kernel.inputs.dry) - {event.fd}
      ensures forall f :: f in old(clients) && f != event.fd ==> Undisturbed(old(View()), View(), f)
    {
      var fd := event.fd;
      RanSoFar(rules, View());
      if fd == kernel.listenFd {
        HandleListenEvent(event);
        return;
      }
      if fd !in clients || clients[fd].closing {
        return;
      }
      ghost var e0 := View();
      GoodNow(rules, e0, fd);
      HandleClientEvent(event);
      ValidAfterServing(rules, e0, View(), fd);
      UndisturbedElsewhere(rules, e0, View(), fd);
    }

    // The next event of a batch that was reported in the state a.
    method HandleNextEvent(events: seq<PollEvent>, i: nat, ghost a: Engine)
      requires events == kernel.poller.Latest() && Running() && Valid(rules, a) && Ran(a, View())
      requires BatchSoFar(a, View(), events, kernel.listenFd, i, kernel.inputs.dry, kernel.listener.dry) && i < |events|
      requires forall j, k :: 0 <= j < k < |events| ==> events[j].fd != events[k].fd
      modifies this, kernel, kernel.inputs, kernel.listener, limiter, trace`dispatched
      ensures Running() && kernel.clock >= old(kernel.clock) && Ran(a, View()) && old(limiter.events) <= limiter.events
      ensures trace.dispatched == old(trace.dispatched) + AddresseeOf(events[i], kernel.listenFd, a.clients)
      ensures BatchSoFar(a, View(), events, kernel.listenFd, i + 1, kernel.inputs.dry, kernel.listener.dry)
    {
      ghost var e, dry, listenerDry := View(), kernel.inputs.dry, kernel.listener.dry;
      SameAddressee(a, e, events, kernel.listenFd, i, dry, listenerDry);
      HandlePollEvent(events[i]);
      BatchOneMore(rules, a, e, View(), events, kernel.listenFd, i, dry, listenerDry, kernel.inputs.dry, kernel.listener.dry);
      RanTrans(a, e, View());
    }

    method DispatchAll(events: seq<PollEvent>)
      requires events == kernel.poller.Latest() && Running()
      requires BatchSoFar(View(), View(), events, kernel.listenFd, 0, kernel.inputs.dry, kernel.listener.dry)
      requires forall j, k :: 0 <= j < k < |events| ==> events[j].fd != events[k].fd
      modifies this, kernel, kernel.inputs, kernel.listener, limiter, trace`dispatched
      ensures Running() && kernel.clock >= old(kernel.clock) && Ran(old(View()), View()) && old(limiter.events) <= limiter.events
      ensures trace.dispatched == old(trace.dispatched) + Addressees(events, kernel.listenFd, old(clients))
      ensures BatchSoFar(old(View()), View(), events, kernel.listenFd, |events|, kernel.inputs.dry, kernel.listener.dry)
    {
      ghost var e0 := View();
      RanSoFar(rules, e0);
      for i := 0 to |events|
        invariant Running() && kernel.clock >= old(kernel.clock) && Ran(e0, View()) && old(limiter.events) <= limiter.events
        invariant trace.dispatched == old(trace.dispatched) + Addressees(events[..i], kernel.listenFd, e0.clients)
        invariant BatchSoFar(e0, View(), events, kernel.listenFd, i, kernel.inputs.dry, kernel.listener.dry)
      {
        OneMoreAddressee(events, kernel.listenFd, e0.clients, i);
        HandleNextEvent(events, i, e0);
      }
      assert events[..|events|] == events;
    }

    // Serves one batch. Although the batch may close descriptors and accept new connections under
    // the same numbers, each client event is handed to the very connection it was reported for,
    // and a connection that hung up is gone for good.
    method HandlePollEvents(events: seq<PollEvent>)
      requires Running() && kernel.EventsOk(events) && events == kernel.poller.Latest()
      modifies this, kernel, kernel.inputs, kernel.listener, limiter, trace`dispatched
      ensures Running() && kernel.clock >= old(kernel.clock) && Ran(old(View()), View()) && old(limiter.events) <= limiter.events
      ensures forall event :: event in events && event.fd != kernel.listenFd ==> event.fd in old(clients)
      ensures trace.dispatched == old(trace.dispatched) + Addressees(events, kernel.listenFd, old(clients))
      ensures forall event :: event in events && event.fd != kernel.listenFd ==> Dealt(old(View()), View(), event, kernel.inputs.dry)
      ensures forall event :: event in events && event.fd == kernel.listenFd && event.readable ==> kernel.listener.dry
    {
      ghost var e0 := View();
      PolledIsLive(rules, e0);
      DispatchAll(events);
      UnsealBatch(e0, View(), events, kernel.listenFd, |events|, kernel.inputs.dry, kernel.listener.dry);
    }

    // Work that is queued or due, then a look at when to wake up.
    method PrepareRound() returns (waitTimeoutMs: int, ghost sleep: Sleep)
      requires Running()
      modifies this, kernel, kernel.inputs, log, trace`served
      ensures Running() && Ran(old(View()), View()) && old(kernel.clock) <= sleep.timersAt <= sleep.logAt <= kernel.clock
      ensures trace.served == old(trace.served) + Owners(old(readyQueue), old(clients))
      ensures QueueAdvanced(old(View()), View()) && SleepsRight(View(), sleep)
      ensures NoneDue(View(), old(kernel.clock))
      ensures sleep.timeoutMs == waitTimeoutMs && old(kernel.clock) < sleep.logDue == log.nextTime
    {
      ghost var e0 := View();
      ProcessReadyQueue();
      ghost var e1 := View();
      var expired := ProcessExpiredTimers();
      RanTrans(e0, e1, View());
      QueueAdvancedLater(rules, e0, e1, View());
      MaybeWriteMetricsLog();
      ghost var consulted: int;
      waitTimeoutMs, consulted := ComputePollTimeoutMs();
      sleep := Sleep(waitTimeoutMs, consulted, kernel.clock, log.nextTime);
    }

    // What has come due meanwhile, and the records of the closed.
    method FinishRound() returns (ghost now: int)
      requires Running()
      modifies this, kernel`interest, kernel`sockets, kernel`clock, log
      ensures Running() && Ran(old(View()), View()) && pendingCloseQueue == []
      ensures old(kernel.clock) <= now <= kernel.clock && now < log.nextTime && old(log.nextTime) <= log.nextTime
      ensures forall fd :: fd in clients ==> fd in journal && !Due(journal[fd], now) && Undisturbed(old(View()), View(), fd)
    {
      now := ProcessExpiredTimers();
      MaybeWriteMetricsLog();
      FlushPendingCloseQueue();
    }

    // Sleeps until something happens, and deals with it.
    method WaitAndServe(waitTimeoutMs: int, ghost sleep: Sleep)
      requires Running()
      modifies this, kernel, kernel.inputs, kernel.listener, kernel.poller, limiter, trace`dispatched, trace`polls
      ensures Running() && Ran(old(View()), View()) && kernel.clock >= old(kernel.clock) && old(limiter.events) <= limiter.events
      ensures |trace.polls| == |old(trace.polls)| + 1 && old(trace.polls) <= trace.polls
      ensures var p := trace.polls[|old(trace.polls)|];
              && p.sleep == sleep && p.at == old(View())
              && kernel.poller.batches == old(kernel.poller.batches) + [Batch(waitTimeoutMs, p.events)]
              && trace.dispatched == old(trace.dispatched) + Addressees(p.events, kernel.listenFd, p.at.clients)
              && (forall event :: event in p.events && event.fd != kernel.listenFd ==> event.fd in p.at.clients)
              && PollServed(p, View(), kernel.listenFd, kernel.inputs.dry, kernel.listener.dry)
    {
      ghost var e := View();
      var events := kernel.Wait(waitTimeoutMs);
      trace.polls := trace.polls + [Poll(sleep, events, e)];
      assert View() == e;
      HandlePollEvents(events);
    }

    // One round: what was queued has been served, everything the poller reported has been dealt
    // with, and no connection has a deadline that had come by now.
    method RunEventLoopOnce() returns (ghost now: int)
      requires Running()
      modifies this, kernel, kernel.inputs, kernel.listener, kernel.poller, limiter, log, trace
      ensures Running() && Ran(old(View()), View()) && pendingCloseQueue == [] && old(limiter.events) <= limiter.events
      ensures trace.served == old(trace.served) + Owners(old(readyQueue), old(clients)) && QueueAdvanced(old(View()), View())
      ensures |trace.polls| == |old(trace.polls)| + 1 && old(trace.polls) <= trace.polls
      ensures var p := trace.polls[|old(trace.polls)|];
              && kernel.poller.batches == old(kernel.poller.batches) + [Batch(p.sleep.timeoutMs, p.events)]
              && trace.dispatched == old(trace.dispatched) + Addressees(p.events, kernel.listenFd, p.at.clients)
              && Ran(old(View()), p.at) && NoneDue(p.at, old(kernel.clock)) && old(kernel.clock) <= p.sleep.timersAt <= p.sleep.logAt <= kernel.clock
              && old(kernel.clock) < p.sleep.logDue <= log.nextTime
              && PollKept(rules, p, View(), kernel.listenFd)
              && PollServed(p, View(), kernel.listenFd, kernel.inputs.dry, kernel.listener.dry)
      ensures old(kernel.clock) <= now <= kernel.clock && now < log.nextTime
      ensures NoneDue(View(), now)
    {
      ghost var e0 := View();
      ghost var sleep;
      var waitTimeoutMs;
      waitTimeoutMs, sleep := PrepareRound();
      WaitAndServe(waitTimeoutMs, sleep);
      ghost var e2 := View();
      now := FinishRound();
      RoundIsServed(rules, e0, trace.polls[|old(trace.polls)|], e2, View(), kernel.listenFd, kernel.inputs.dry, kernel.listener.dry);
    }

    // One more round of a run that began in state a, with n calls of the poller on record.
    method NextRound(ghost a: Engine, ghost n: nat, ghost batches: seq<Batch>, ghost dispatched: seq<(Fd, nat)>)
      requires Running() && Ran(a, View())
      requires PolledSince(rules, trace.polls, n, View(), kernel.listenFd, batches, kernel.poller.batches, dispatched, trace.dispatched)
      modifies this, kernel, kernel.inputs, kernel.listener, kernel.poller, limiter, log, trace
      ensures Running() && Ran(a, View()) && old(limiter.events) <= limiter.events && old(trace.served) <= trace.served
      ensures |trace.polls| == |old(trace.polls)| + 1 && old(trace.polls) <= trace.polls
      ensures PolledSince(rules, trace.polls, n, View(), kernel.listenFd, batches, kernel.poller.batches, dispatched, trace.dispatched)
    {
      ghost var e, polls, seen, handed := View(), trace.polls, kernel.poller.batches, trace.dispatched;
      var now := RunEventLoopOnce();
      RanTrans(a, e, View());
      ghost var p := trace.polls[|polls|];
      assert trace.polls == polls + [p];
      PolledOnceMore(rules, polls, n, e, View(), kernel.listenFd, p, batches, seen, dispatched, handed);
    }

    // The server runs until it is told to stop, here after any number of rounds. Each asks the poller
    // once, and what the poller has reported is all that has been dispatched.
    method Run(rounds: nat)
      requires Running()
      modifies this, kernel, kernel.inputs, kernel.listener, kernel.poller, limiter, log, trace
      ensures Running() && Ran(old(View()), View()) && old(limiter.events) <= limiter.events
      ensures old(trace.served) <= trace.served
      ensures |trace.polls| == |old(trace.polls)| + rounds && old(trace.polls) <= trace.polls
      ensures PolledSince(rules, trace.polls, |old(trace.polls)|, View(), kernel.listenFd, old(kernel.poller.batches), kernel.poller.batches,
                          old(trace.dispatched), trace.dispatched)
    {
      ghost var e0, n := View(), |trace.polls|;
      RanSoFar(rules, e0);
      for round := 0 to rounds
        invariant Running() && Ran(e0, View()) && old(limiter.events) <= limiter.events
        invariant old(trace.served) <= trace.served
        invariant |trace.polls| == n + round && old(trace.polls) <= trace.polls
        invariant PolledSince(rules, trace.polls, n, View(), kernel.listenFd, old(kernel.poller.batches), kernel.poller.batches,
                              old(trace.dispatched), trace.dispatched)
      {
        NextRound(e0, n, old(kernel.poller.batches), old(trace.dispatched));
      }
      MaybeWriteMetricsLog();
    }
  }
}
