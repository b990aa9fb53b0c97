// How an elementary change of one entry is kept up with by every table: what each part of the
// invariant asks for, change by change.
module Upkeep {
  import opened Text
  import opened DynamicBuffers
  import opened HttpParser
  import opened Framing
  import opened Connections
  import opened Engines

  // ---------------------------------------------------------------- changing one connection

  // Rewrites the record and the journal of one connection.
  function Put(e: Engine, fd: Fd, c: ClientConnection, j: Journal): Engine {
    e.(clients := e.clients[fd := c], journal := e.journal[fd := j])
  }

  lemma PutKeepsTimers(e: Engine, fd: Fd, c: ClientConnection, j: Journal)
    requires fd in e.clients && TimersOk(e.clients, e.journal, e.heap, e.nextId)
    requires c.connectionId == e.clients[fd].connectionId && j.deadlines == e.journal[fd].deadlines
    requires forall kind :: c.TimerOf(kind) == e.clients[fd].TimerOf(kind)
    ensures TimersOk(e.clients[fd := c], e.journal[fd := j], e.heap, e.nextId)
  {
    forall t | t in e.heap ensures HeapNodeOk(t, e.clients[fd := c], e.journal[fd := j], e.nextId) {
      assert HeapNodeOk(t, e.clients, e.journal, e.nextId);
    }
    forall f | f in e.clients ensures ArmedOk(f, e.clients[fd := c][f], e.journal[fd := j][f], e.heap) {
      assert ArmedOk(f, e.clients[f], e.journal[f], e.heap);
    }
  }

  lemma PutKeepsIds(e: Engine, fd: Fd, c: ClientConnection)
    requires IdsOk(e.clients, e.nextId, e.fate, e.closeLog) && fd in e.clients && c.connectionId == e.clients[fd].connectionId
    ensures IdsOk(e.clients[fd := c], e.nextId, e.fate, e.closeLog)
  {
    forall f | f in e.clients
      ensures e.clients[fd := c][f].connectionId in e.fate && e.fate[e.clients[fd := c][f].connectionId] == Some(f)
    {
    }
  }

  lemma PutKeepsKeys(e: Engine, fd: Fd, c: ClientConnection, j: Journal)
    requires KeysOk(e.clients, e.journal, e.sockets, e.interest) && NoStrays(e.clients, e.journal, e.interest)
    requires fd in e.clients && !c.closing
    ensures KeysOk(e.clients[fd := c], e.journal[fd := j], e.sockets, e.interest)
    ensures NoStrays(e.clients[fd := c], e.journal[fd := j], e.interest) && |e.clients[fd := c]| == |e.clients|
  {
    assert e.clients[fd := c].Keys == e.clients.Keys;
  }

  lemma PutKeepsTotal(e: Engine, fd: Fd, j: Journal, total: nat)
    requires TotalOk(e.journal, e.closeLog, e.metrics.requestsTotal) && fd in e.journal
    requires total + |e.journal[fd].requests| == e.metrics.requestsTotal + |j.requests|
    ensures TotalOk(e.journal[fd := j], e.closeLog, total)
  {
    TotalUpdate(e.journal, RequestsOf, fd, j);
  }

  // To replace one record it is enough to look after the queue, the timers, the byte count and the
  // completed requests.
  lemma PutKeepsShape(rules: HttpRules, e: Engine, fd: Fd, c: ClientConnection, j: Journal,
                      ready: seq<Fd>, heap: multiset<TimerEntry>, inflight: nat, m: Metrics)
    requires Shape(rules, e) && fd in e.clients && c.connectionId == e.clients[fd].connectionId && !c.closing
    requires QueueOk(e.clients[fd := c], ready)
    requires TimersOk(e.clients[fd := c], e.journal[fd := j], heap, e.nextId)
    requires inflight + e.clients[fd].BufferedBytes() == e.inflight + c.BufferedBytes() && inflight <= MAX_INFLIGHT_BYTES
    requires m == e.metrics.(inflightCurrent := inflight, requestsTotal := m.requestsTotal)
    requires m.requestsTotal + |e.journal[fd].requests| == e.metrics.requestsTotal + |j.requests|
    ensures Shape(rules, Put(e, fd, c, j).(ready := ready, heap := heap, inflight := inflight, metrics := m))
  {
    Unseal(rules, e);
    TotalUpdate(e.clients, BytesOf, fd, c);
    PutKeepsIds(e, fd, c);
    PutKeepsKeys(e, fd, c, j);
    PutKeepsTotal(e, fd, j, m.requestsTotal);
    Seal(rules, Put(e, fd, c, j).(ready := ready, heap := heap, inflight := inflight, metrics := m));
  }

  // Rewriting buffers, flags and body state, the counts following along.
  lemma RewriteKeepsShape(rules: HttpRules, e: Engine, fd: Fd, c: ClientConnection, j: Journal, inflight: nat, m: Metrics)
    requires Shape(rules, e) && fd in e.clients && !c.closing
    requires c.connectionId == e.clients[fd].connectionId && j.deadlines == e.journal[fd].deadlines
    requires c.inReadyQueue == e.clients[fd].inReadyQueue
    requires forall kind :: c.TimerOf(kind) == e.clients[fd].TimerOf(kind)
    requires inflight + e.clients[fd].BufferedBytes() == e.inflight + c.BufferedBytes() && inflight <= MAX_INFLIGHT_BYTES
    requires m == e.metrics.(inflightCurrent := inflight, requestsTotal := m.requestsTotal)
    requires m.requestsTotal + |e.journal[fd].requests| == e.metrics.requestsTotal + |j.requests|
    ensures Shape(rules, Put(e, fd, c, j).(inflight := inflight, metrics := m))
  {
    Unseal(rules, e);
    PutKeepsTimers(e, fd, c, j);
    SameQueue(e.clients, e.ready, fd, c);
    PutKeepsShape(rules, e, fd, c, j, e.ready, e.heap, inflight, m);
  }

  lemma CountersAside(rules: HttpRules, e: Engine, m: Metrics)
    requires Shape(rules, e)
    requires m.acceptTotal == e.metrics.acceptTotal && m.reject429 == e.metrics.reject429
    requires m.connsCurrent == e.metrics.connsCurrent && m.inflightCurrent == e.metrics.inflightCurrent
    requires m.requestsTotal == e.metrics.requestsTotal
    ensures Shape(rules, e.(metrics := m))
  {
    Unseal(rules, e);
    Seal(rules, e.(metrics := m));
  }

  // ---------------------------------------------------------------- the ready queue

  // std::remove: every occurrence goes.
  function Without(ready: seq<Fd>, fd: Fd): seq<Fd> {
    if ready == [] then []
    else if ready[0] == fd then Without(ready[1..], fd)
    else [ready[0]] + Without(ready[1..], fd)
  }

  lemma {:induction false} WithoutCounts(ready: seq<Fd>, fd: Fd)
    ensures multiset(Without(ready, fd)) == multiset(ready)[fd := 0]
  {
    if ready != [] {
      assert ready == [ready[0]] + ready[1..];
      WithoutCounts(ready[1..], fd);
    }
  }

  lemma {:induction false} WithoutAbsent(ready: seq<Fd>, fd: Fd)
    requires fd !in ready
    ensures Without(ready, fd) == ready
  {
    if ready != [] {
      WithoutAbsent(ready[1..], fd);
    }
  }

  lemma {:induction false} WithoutAppended(ready: seq<Fd>, fd: Fd)
    ensures Without(ready + [fd], fd) == Without(ready, fd)
  {
    if ready != [] {
      WithoutAppended(ready[1..], fd);
      assert (ready + [fd])[1..] == ready[1..] + [fd];
    } else {
      assert (ready + [fd])[1..] == [];
    }
  }

  lemma WithoutTwice(ready: seq<Fd>, fd: Fd)
    ensures Without(Without(ready, fd), fd) == Without(ready, fd)
  {
    WithoutCounts(ready, fd);
    assert multiset(Without(ready, fd))[fd] == 0;
    WithoutAbsent(Without(ready, fd), fd);
  }

  lemma SameQueue(clients: map<Fd, ClientConnection>, ready: seq<Fd>, fd: Fd, c: ClientConnection)
    requires QueueOk(clients, ready) && fd in clients && c.inReadyQueue == clients[fd].inReadyQueue
    ensures QueueOk(clients[fd := c], ready)
  {
  }

  lemma SameQueueIn(rules: HttpRules, e: Engine, fd: Fd, c: ClientConnection)
    requires Shape(rules, e) && fd in e.clients && c.inReadyQueue == e.clients[fd].inReadyQueue
    ensures QueueOk(e.clients[fd := c], e.ready)
  {
    Unseal(rules, e);
    SameQueue(e.clients, e.ready, fd, c);
  }

  lemma LongerQueue(clients: map<Fd, ClientConnection>, ready: seq<Fd>, fd: Fd, c: ClientConnection)
    requires QueueOk(clients, ready) && fd in clients && !clients[fd].inReadyQueue && c.inReadyQueue
    ensures fd !in ready && QueueOk(clients[fd := c], ready + [fd])
  {
    assert multiset(ready)[fd] == 0;
    assert multiset(ready + [fd]) == multiset(ready) + multiset{fd};
  }

  lemma ShorterQueue(clients: map<Fd, ClientConnection>, ready: seq<Fd>, c: ClientConnection)
    requires QueueOk(clients, ready) && ready != [] && !c.inReadyQueue
    ensures ready[0] in clients && clients[ready[0]].inReadyQueue && ready[0] !in ready[1..]
    ensures QueueOk(clients[ready[0] := c], ready[1..])
  {
    var fd, rest := ready[0], multiset(ready[1..]);
    assert ready == [fd] + ready[1..];
    assert multiset(ready) == multiset{fd} + rest;
    assert fd in clients && clients[fd].inReadyQueue && multiset(ready)[fd] == 1;
    assert rest[fd] == 0;
    forall f ensures rest[f] == if f in clients[fd := c] && clients[fd := c][f].inReadyQueue then 1 else 0 {
      assert f != fd ==> rest[f] == multiset(ready)[f];
    }
  }

  // Taking the front of a queue that has been extended meanwhile.
  lemma FrontOfQueue(queued: seq<Fd>, again: seq<Fd>, i: nat)
    requires i < |queued|
    ensures (queued[i..] + again)[0] == queued[i] && (queued[i..] + again)[1..] == queued[i + 1..] + again
    ensures queued[i + 1..] + again + [queued[i]] == queued[i + 1..] + (again + [queued[i]])
    ensures queued[..i + 1] == queued[..i] + [queued[i]]
  {
  }

  lemma EnqueueKeepsShape(rules: HttpRules, e: Engine, fd: Fd)
    requires Shape(rules, e) && fd in e.clients && !e.clients[fd].inReadyQueue
    ensures fd !in e.ready
    ensures Shape(rules, Put(e, fd, e.clients[fd].(inReadyQueue := true), e.journal[fd]).(ready := e.ready + [fd]))
  {
    Unseal(rules, e);
    var c := e.clients[fd].(inReadyQueue := true);
    LongerQueue(e.clients, e.ready, fd, c);
    PutKeepsTimers(e, fd, c, e.journal[fd]);
    PutKeepsShape(rules, e, fd, c, e.journal[fd], e.ready + [fd], e.heap, e.inflight, e.metrics);
  }

  lemma DequeueKeepsShape(rules: HttpRules, e: Engine)
    requires Shape(rules, e) && e.ready != []
    ensures var fd := e.ready[0];
            && fd in e.clients && e.clients[fd].inReadyQueue && fd !in e.ready[1..]
            && Shape(rules, Put(e, fd, e.clients[fd].(inReadyQueue := false), e.journal[fd]).(ready := e.ready[1..]))
  {
    Unseal(rules, e);
    var fd := e.ready[0];
    ShorterQueue(e.clients, e.ready, NewConnection(0));
    var c := e.clients[fd].(inReadyQueue := false);
    ShorterQueue(e.clients, e.ready, c);
    PutKeepsTimers(e, fd, c, e.journal[fd]);
    PutKeepsShape(rules, e, fd, c, e.journal[fd], e.ready[1..], e.heap, e.inflight, e.metrics);
  }

  // ---------------------------------------------------------------- timers

  // A fresh generation has no node yet, and pushing one makes it the only current node.
  lemma ArmKeepsNodes(e: Engine, fd: Fd, kind: TimerKind, deadline: int)
    requires fd in e.clients && TimersOk(e.clients, e.journal, e.heap, e.nextId)
    requires e.clients[fd].connectionId < e.nextId
    ensures var c, j := e.clients[fd].Arm(kind), e.journal[fd].Arm(kind, deadline);
            var node := NodeOf(fd, c, kind, deadline);
            && node !in e.heap
            && forall t :: t in e.heap + multiset{node} ==> HeapNodeOk(t, e.clients[fd := c], e.journal[fd := j], e.nextId)
  {
    var c, j := e.clients[fd].Arm(kind), e.journal[fd].Arm(kind, deadline);
    var node := NodeOf(fd, c, kind, deadline);
    forall t | t in e.heap ensures t != node {
      assert HeapNodeOk(t, e.clients, e.journal, e.nextId);
    }
    forall t | t in e.heap + multiset{node} ensures HeapNodeOk(t, e.clients[fd := c], e.journal[fd := j], e.nextId) {
      if t in e.heap {
        NodeAfterArm(t, e, fd, kind, deadline);
      }
    }
  }

  lemma NodeAfterArm(t: TimerEntry, e: Engine, fd: Fd, kind: TimerKind, deadline: int)
    requires fd in e.clients && fd in e.journal && HeapNodeOk(t, e.clients, e.journal, e.nextId)
    ensures HeapNodeOk(t, e.clients[fd := e.clients[fd].Arm(kind)], e.journal[fd := e.journal[fd].Arm(kind, deadline)], e.nextId)
  {
  }

  lemma ArmKeepsArmed(fd: Fd, c: ClientConnection, j: Journal, heap: multiset<TimerEntry>, kind: TimerKind, deadline: int)
    requires ArmedOk(fd, c, j, heap) && NodeOf(fd, c.Arm(kind), kind, deadline) !in heap
    ensures ArmedOk(fd, c.Arm(kind), j.Arm(kind, deadline), heap + multiset{NodeOf(fd, c.Arm(kind), kind, deadline)})
  {
  }

  lemma OthersStayArmed(fd: Fd, c: ClientConnection, j: Journal, heap: multiset<TimerEntry>, node: TimerEntry)
    requires ArmedOk(fd, c, j, heap) && node.fd != fd
    ensures ArmedOk(fd, c, j, heap + multiset{node})
  {
  }

  lemma ArmKeepsTimers(e: Engine, fd: Fd, kind: TimerKind, deadline: int)
    requires fd in e.clients && TimersOk(e.clients, e.journal, e.heap, e.nextId)
    requires e.clients[fd].connectionId < e.nextId
    ensures var c, j := e.clients[fd].Arm(kind), e.journal[fd].Arm(kind, deadline);
            TimersOk(e.clients[fd := c], e.journal[fd := j], e.heap + multiset{NodeOf(fd, c, kind, deadline)}, e.nextId)
  {
    var c, j := e.clients[fd].Arm(kind), e.journal[fd].Arm(kind, deadline);
    var node := NodeOf(fd, c, kind, deadline);
    ArmKeepsNodes(e, fd, kind, deadline);
    forall f | f in e.clients ensures ArmedOk(f, e.clients[fd := c][f], e.journal[fd := j][f], e.heap + multiset{node}) {
      if f == fd {
        ArmKeepsArmed(fd, e.clients[fd], e.journal[fd], e.heap, kind, deadline);
      } else {
        OthersStayArmed(f, e.clients[f], e.journal[f], e.heap, node);
      }
    }
  }

  lemma DisarmKeepsHeap(e: Engine, fd: Fd, kind: TimerKind)
    requires fd in e.clients && TimersOk(e.clients, e.journal, e.heap, e.nextId)
    ensures forall t :: t in e.heap ==>
      HeapNodeOk(t, e.clients[fd := e.clients[fd].Disarm(kind)], e.journal[fd := e.journal[fd].Disarm(kind)], e.nextId)
  {
    var c, j := e.clients[fd].Disarm(kind), e.journal[fd].Disarm(kind);
    assert ArmedOk(fd, e.clients[fd], e.journal[fd], e.heap);
    forall t | t in e.heap ensures HeapNodeOk(t, e.clients[fd := c], e.journal[fd := j], e.nextId) {
      assert HeapNodeOk(t, e.clients, e.journal, e.nextId);
    }
  }

  lemma DisarmKeepsTimers(e: Engine, fd: Fd, kind: TimerKind)
    requires fd in e.clients && TimersOk(e.clients, e.journal, e.heap, e.nextId)
    ensures TimersOk(e.clients[fd := e.clients[fd].Disarm(kind)], e.journal[fd := e.journal[fd].Disarm(kind)], e.heap, e.nextId)
  {
    var c, j := e.clients[fd].Disarm(kind), e.journal[fd].Disarm(kind);
    assert ArmedOk(fd, e.clients[fd], e.journal[fd], e.heap);
    DisarmKeepsHeap(e, fd, kind);
    forall f | f in e.clients ensures ArmedOk(f, e.clients[fd := c][f], e.journal[fd := j][f], e.heap) {
      assert ArmedOk(f, e.clients[f], e.journal[f], e.heap);
    }
  }

  lemma ArmKeepsShape(rules: HttpRules, e: Engine, fd: Fd, kind: TimerKind, deadline: int)
    requires Shape(rules, e) && fd in e.clients
    ensures var c, j := e.clients[fd].Arm(kind), e.journal[fd].Arm(kind, deadline);
            Shape(rules, Put(e, fd, c, j).(heap := e.heap + multiset{NodeOf(fd, c, kind, deadline)}))
  {
    Unseal(rules, e);
    var c, j := e.clients[fd].Arm(kind), e.journal[fd].Arm(kind, deadline);
    assert e.clients[fd].connectionId in e.fate;
    ArmKeepsTimers(e, fd, kind, deadline);
    SameQueue(e.clients, e.ready, fd, c);
    PutKeepsShape(rules, e, fd, c, j, e.ready, e.heap + multiset{NodeOf(fd, c, kind, deadline)}, e.inflight, e.metrics);
  }

  lemma DisarmKeepsShape(rules: HttpRules, e: Engine, fd: Fd, kind: TimerKind)
    requires Shape(rules, e) && fd in e.clients
    ensures Shape(rules, Put(e, fd, e.clients[fd].Disarm(kind), e.journal[fd].Disarm(kind)))
  {
    Unseal(rules, e);
    DisarmKeepsTimers(e, fd, kind);
    SameQueue(e.clients, e.ready, fd, e.clients[fd].Disarm(kind));
    PutKeepsShape(rules, e, fd, e.clients[fd].Disarm(kind), e.journal[fd].Disarm(kind), e.ready, e.heap, e.inflight, e.metrics);
  }

  // Popping a node whose connection or generation has moved on changes nothing.
  lemma PopStaleKeepsTimers(e: Engine, t: TimerEntry)
    requires TimersOk(e.clients, e.journal, e.heap, e.nextId) && t in e.heap
    requires !IsCurrent(t, e.clients)
    ensures TimersOk(e.clients, e.journal, e.heap - multiset{t}, e.nextId)
  {
    forall fd | fd in e.clients ensures ArmedOk(fd, e.clients[fd], e.journal[fd], e.heap - multiset{t}) {
      assert ArmedOk(fd, e.clients[fd], e.journal[fd], e.heap);
    }
  }

  lemma PopStaleKeepsShape(rules: HttpRules, e: Engine, t: TimerEntry)
    requires Shape(rules, e) && t in e.heap && !IsCurrent(t, e.clients)
    ensures Shape(rules, e.(heap := e.heap - multiset{t}))
  {
    Unseal(rules, e);
    PopStaleKeepsTimers(e, t);
    Seal(rules, e.(heap := e.heap - multiset{t}));
  }

  // Popping the node of an armed timer disarms it.
  lemma PopCurrentDisarms(e: Engine, t: TimerEntry)
    requires TimersOk(e.clients, e.journal, e.heap, e.nextId) && t in e.heap
    requires IsCurrent(t, e.clients)
    ensures e.clients[t.fd].TimerOf(t.kind).armed && t.fd in e.journal && e.journal[t.fd].deadlines[t.kind] == t.deadline
    ensures TimersOk(e.clients[t.fd := e.clients[t.fd].Disarm(t.kind)], e.journal[t.fd := e.journal[t.fd].Disarm(t.kind)],
                     e.heap - multiset{t}, e.nextId)
  {
    assert HeapNodeOk(t, e.clients, e.journal, e.nextId);
    assert ArmedOk(t.fd, e.clients[t.fd], e.journal[t.fd], e.heap);
    DisarmKeepsTimers(e, t.fd, t.kind);
    var d := Put(e, t.fd, e.clients[t.fd].Disarm(t.kind), e.journal[t.fd].Disarm(t.kind));
    PopStaleKeepsTimers(d, t);
  }

  // ---------------------------------------------------------------- closing

  function RecordOf(e: Engine, fd: Fd, reason: CloseReason, okBytes: nat, seen: Evidence): CloseRecord
    requires fd in e.clients && fd in e.journal && fd in e.sockets
  {
    CloseRecord(e.clients[fd].connectionId, fd, reason, e.journal[fd], e.sockets[fd].received, e.sockets[fd].sent, okBytes,
                e.clients[fd].outputBuffer, seen)
  }

  function Closed(e: Engine, fd: Fd, record: CloseRecord): Engine
    requires fd in e.clients && e.clients[fd].BufferedBytes() <= e.inflight && e.active > 0
  {
    var inflight := e.inflight - e.clients[fd].BufferedBytes();
    e.(clients := e.clients - {fd}, journal := e.journal - {fd}, sockets := e.sockets - {fd}, interest := e.interest - {fd},
       ready := Without(e.ready, fd), inflight := inflight, active := e.active - 1,
       fate := e.fate[e.clients[fd].connectionId := None], closeLog := e.closeLog + [record],
       metrics := e.metrics.(connsCurrent := e.active - 1, inflightCurrent := inflight))
  }

  lemma CloseKeepsIds(e: Engine, fd: Fd, record: CloseRecord)
    requires IdsOk(e.clients, e.nextId, e.fate, e.closeLog) && fd in e.clients
    requires record.connectionId == e.clients[fd].connectionId
    ensures IdsOk(e.clients - {fd}, e.nextId, e.fate[record.connectionId := None], e.closeLog + [record])
  {
  }

  lemma CloseKeepsTimers(e: Engine, fd: Fd)
    requires TimersOk(e.clients, e.journal, e.heap, e.nextId)
    ensures TimersOk(e.clients - {fd}, e.journal - {fd}, e.heap, e.nextId)
  {
    forall t | t in e.heap ensures HeapNodeOk(t, e.clients - {fd}, e.journal - {fd}, e.nextId) {
      assert HeapNodeOk(t, e.clients, e.journal, e.nextId);
    }
  }

  lemma CloseKeepsQueue(clients: map<Fd, ClientConnection>, ready: seq<Fd>, fd: Fd)
    requires QueueOk(clients, ready)
    ensures QueueOk(clients - {fd}, Without(ready, fd))
  {
    WithoutCounts(ready, fd);
  }

  lemma CloseKeepsKeys(e: Engine, fd: Fd)
    requires KeysOk(e.clients, e.journal, e.sockets, e.interest) && NoStrays(e.clients, e.journal, e.interest) && fd in e.clients
    ensures KeysOk(e.clients - {fd}, e.journal - {fd}, e.sockets - {fd}, e.interest - {fd})
    ensures NoStrays(e.clients - {fd}, e.journal - {fd}, e.interest - {fd})
    ensures |e.clients - {fd}| == |e.clients| - 1
  {
    assert (e.clients - {fd}).Keys == e.clients.Keys - {fd};
  }

  // The bytes still buffered are counted, so giving them back never goes below zero.
  lemma CloseNeverUnderflows(rules: HttpRules, e: Engine, fd: Fd)
    requires Shape(rules, e) && fd in e.clients
    ensures e.clients[fd].BufferedBytes() <= e.inflight && e.active > 0
  {
    Unseal(rules, e);
    TotalSplit(e.clients, BytesOf, fd);
    CloseKeepsKeys(e, fd);
  }

  lemma CloseKeepsLog(rules: HttpRules, log: seq<CloseRecord>, record: CloseRecord)
    requires LogOk(rules, log) && ClosedOk(rules, record)
    ensures LogOk(rules, log + [record])
  {
  }

  lemma CloseKeepsTotal(e: Engine, fd: Fd, record: CloseRecord)
    requires TotalOk(e.journal, e.closeLog, e.metrics.requestsTotal) && fd in e.journal && record.journal == e.journal[fd]
    ensures TotalOk(e.journal - {fd}, e.closeLog + [record], e.metrics.requestsTotal)
  {
    TotalSplit(e.journal, RequestsOf, fd);
    assert (e.closeLog + [record])[..|e.closeLog|] == e.closeLog;
  }

  lemma CloseKeepsShape(rules: HttpRules, e: Engine, fd: Fd, record: CloseRecord)
    requires Shape(rules, e) && fd in e.clients && ClosedOk(rules, record)
    requires e.clients[fd].BufferedBytes() <= e.inflight && e.active > 0
    requires record.connectionId == e.clients[fd].connectionId && record.journal == e.journal[fd]
    ensures Shape(rules, Closed(e, fd, record))
  {
    Unseal(rules, e);
    TotalSplit(e.clients, BytesOf, fd);
    CloseKeepsIds(e, fd, record);
    CloseKeepsTimers(e, fd);
    CloseKeepsQueue(e.clients, e.ready, fd);
    CloseKeepsKeys(e, fd);
    CloseKeepsLog(rules, e.closeLog, record);
    CloseKeepsTotal(e, fd, record);
    Seal(rules, Closed(e, fd, record));
  }

  // ---------------------------------------------------------------- registering

  function Registered(e: Engine, fd: Fd): Engine {
    e.(clients := e.clients[fd := NewConnection(e.nextId)], journal := e.journal[fd := EMPTY_JOURNAL],
       interest := e.interest[fd := PollMask(true, false, true)],
       active := e.active + 1, nextId := e.nextId + 1, fate := e.fate[e.nextId := Some(fd)],
       metrics := e.metrics.(acceptTotal := e.metrics.acceptTotal + 1, connsCurrent := e.active + 1))
  }

  lemma RegisterKeepsTimers(e: Engine, fd: Fd)
    requires TimersOk(e.clients, e.journal, e.heap, e.nextId) && fd !in e.clients
    ensures TimersOk(e.clients[fd := NewConnection(e.nextId)], e.journal[fd := EMPTY_JOURNAL], e.heap, e.nextId + 1)
  {
    forall t | t in e.heap
      ensures HeapNodeOk(t, e.clients[fd := NewConnection(e.nextId)], e.journal[fd := EMPTY_JOURNAL], e.nextId + 1)
    {
      assert HeapNodeOk(t, e.clients, e.journal, e.nextId);
    }
  }

  lemma RegisterKeepsIds(e: Engine, fd: Fd)
    requires IdsOk(e.clients, e.nextId, e.fate, e.closeLog) && fd !in e.clients
    ensures IdsOk(e.clients[fd := NewConnection(e.nextId)], e.nextId + 1, e.fate[e.nextId := Some(fd)], e.closeLog)
  {
  }

  lemma RegisterKeepsQueue(clients: map<Fd, ClientConnection>, ready: seq<Fd>, fd: Fd, c: ClientConnection)
    requires QueueOk(clients, ready) && fd !in clients && !c.inReadyQueue
    ensures QueueOk(clients[fd := c], ready)
  {
  }

  lemma RegisterKeepsKeys(e: Engine, fd: Fd)
    requires KeysOk(e.clients, e.journal, e.sockets, e.interest) && NoStrays(e.clients, e.journal, e.interest)
    requires fd !in e.clients && fd in e.sockets
    ensures var clients, journal, interest :=
              e.clients[fd := NewConnection(e.nextId)], e.journal[fd := EMPTY_JOURNAL], e.interest[fd := PollMask(true, false, true)];
            KeysOk(clients, journal, e.sockets, interest) && NoStrays(clients, journal, interest)
    ensures |e.clients[fd := NewConnection(e.nextId)]| == |e.clients| + 1
  {
    assert e.clients[fd := NewConnection(e.nextId)].Keys == e.clients.Keys + {fd};
  }

  lemma WithoutMissing<T>(m: map<Fd, T>, fd: Fd)
    requires fd !in m
    ensures m - {fd} == m
  {
  }

  // A newcomer has buffered and completed nothing.
  lemma RegisterKeepsTotals(e: Engine, fd: Fd)
    requires fd !in e.clients && fd !in e.journal
    ensures Buffered(e.clients[fd := NewConnection(e.nextId)]) == Buffered(e.clients)
    ensures CompletedLive(e.journal[fd := EMPTY_JOURNAL]) == CompletedLive(e.journal)
  {
    TotalUpdate(e.clients, BytesOf, fd, NewConnection(e.nextId));
    WithoutMissing(e.clients, fd);
    TotalUpdate(e.journal, RequestsOf, fd, EMPTY_JOURNAL);
    WithoutMissing(e.journal, fd);
  }

  // A new connection gets an id no stale heap node carries, so fd reuse cannot confuse timers.
  lemma RegisterKeepsShape(rules: HttpRules, e: Engine, fd: Fd)
    requires Shape(rules, e) && fd !in e.clients && fd in e.sockets
    ensures Shape(rules, Registered(e, fd))
  {
    Unseal(rules, e);
    RegisterKeepsTimers(e, fd);
    RegisterKeepsIds(e, fd);
    RegisterKeepsQueue(e.clients, e.ready, fd, NewConnection(e.nextId));
    RegisterKeepsKeys(e, fd);
    RegisterKeepsTotals(e, fd);
    Seal(rules, Registered(e, fd));
  }
}
