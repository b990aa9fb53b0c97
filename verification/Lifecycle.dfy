// How connections come and go: the counters of closing, registration behind its two gates, and
// expiry by way of the lazy timer heap.
module Lifecycles {
  import opened Text
  import opened DynamicBuffers
  import opened HttpParser
  import opened Framing
  import opened Connections
  import opened Engines
  import opened Upkeep
  import opened Serving
  import opened Exchanges

  // ---------------------------------------------------------------- closing

  // Reasons that no counter looks at.
  predicate IsQuiet(reason: CloseReason) {
    reason == PeerHangup || reason == PeerClosed || reason == ResponsesSent
  }

  lemma QuietClosing(rules: HttpRules, e: Engine, fd: Fd, reason: CloseReason, seen: Evidence)
    requires OnTrack(rules, e, fd) && fd in e.clients && !reason.ErrorPage?
    requires OwesOnlyOutput(reason) ==> Accounted(rules, e, fd)
    requires reason == ResponsesSent ==> e.clients[fd].outputBuffer == ""
    requires reason == ResponsesSent || Justified(rules, RecordOf(e, fd, reason, |e.sockets[fd].sent|, seen))
    requires reason == ResponsesSent ==> e.clients[fd].closeAfterWrite
    ensures ClosedOk(rules, RecordOf(e, fd, reason, |e.sockets[fd].sent|, seen))
    ensures IsQuiet(reason) && Counted(e) ==> CountsOk(e.metrics, Reasons(e.closeLog) + multiset{reason})
  {
    if IsQuiet(reason) && Counted(e) {
      QuietIsCounted(e, reason);
    }
  }

  lemma QuietIsCounted(e: Engine, reason: CloseReason)
    requires Counted(e) && IsQuiet(reason)
    ensures CountsOk(e.metrics, Reasons(e.closeLog) + multiset{reason})
  {
    CountsOf(e);
  }

  lemma LastOnRecord(log: seq<CloseRecord>, record: CloseRecord)
    ensures |log + [record]| == |log| + 1 && (log + [record])[|log|] == record
  {
  }

  lemma OneMoreReason(log: seq<CloseRecord>, record: CloseRecord)
    ensures Reasons(log + [record]) == Reasons(log) + multiset{record.reason}
  {
    assert (log + [record])[..|log|] == log;
  }

  function WithError(m: Metrics): Metrics {
    m.(errorsTotal := m.errorsTotal + 1)
  }

  lemma TimeoutIsCounted(e: Engine, kind: TimerKind)
    requires Counted(e)
    ensures CountsOk(WithError(e.metrics).(timeoutCloseTotal := e.metrics.timeoutCloseTotal + 1),
                     Reasons(e.closeLog) + multiset{TimedOut(kind)})
  {
    CountsOf(e);
  }

  lemma FailureIsCounted(e: Engine, reason: CloseReason)
    requires Counted(e) && (reason == ReadFailed || reason == WriteFailed)
    ensures CountsOk(WithError(e.metrics), Reasons(e.closeLog) + multiset{reason})
  {
    CountsOf(e);
  }

  // The counters touched by a rejection.
  function Rejecting(m: Metrics, status: nat): Metrics {
    var counted := m.(rejectTotal := m.rejectTotal + 1);
    match status
    case 411 => counted.(reject411 := m.reject411 + 1)
    case 413 => counted.(reject413 := m.reject413 + 1)
    case 429 => counted.(reject429 := m.reject429 + 1)
    case 431 => counted.(reject431 := m.reject431 + 1)
    case 501 => counted.(reject501 := m.reject501 + 1)
    case 503 => counted.(reject503 := m.reject503 + 1)
    case _ => counted
  }

  lemma RejectionIsCounted(e: Engine, status: nat)
    requires Counted(e) && status in {400, 411, 413, 431, 501, 503}
    ensures CountsOk(WithError(Rejecting(e.metrics, status)), Reasons(e.closeLog) + multiset{ErrorPage(status)})
  {
    CountsOf(e);
    OneMorePage(e.metrics, Reasons(e.closeLog), status);
  }

  // Nothing else is counted.
  lemma RejectionIsAside(rules: HttpRules, e: Engine, fd: Fd, status: nat)
    requires Shape(rules, e) && status != 429
    ensures var counted := e.(metrics := WithError(Rejecting(e.metrics, status)));
            Shape(rules, counted) && Served(e, counted, fd)
  {
    CountIsServing(rules, e, fd, WithError(Rejecting(e.metrics, status)));
  }

  lemma OneMorePage(m: Metrics, reasons: multiset<CloseReason>, status: nat)
    requires CountsOk(m, reasons) && status in {400, 411, 413, 431, 501, 503}
    ensures CountsOk(WithError(Rejecting(m, status)), reasons + multiset{ErrorPage(status)})
  {
    var more := reasons + multiset{ErrorPage(status)};
    forall reason ensures more[reason] == reasons[reason] + (if reason == ErrorPage(status) then 1 else 0) {
    }
    match status
    case 400 =>
    case 411 =>
    case 413 =>
    case 431 =>
    case 501 =>
    case 503 =>
    case _ =>
  }

  lemma LimitIsCounted(e: Engine)
    requires Counted(e)
    ensures CountsOk(WithError(e.metrics.(connRejectTotal := e.metrics.connRejectTotal + 1, rejectTotal := e.metrics.rejectTotal + 1)),
                     Reasons(e.closeLog) + multiset{ConnectionLimit})
  {
    CountsOf(e);
  }

  // ---------------------------------------------------------------- registering

  lemma NewConnectionIsRested(rules: HttpRules, e: Engine, fd: Fd)
    requires fd in e.sockets && e.sockets[fd] == Stream("", "")
    ensures Rested(rules, Registered(e, fd), fd) && !HasCompleteHeader("")
  {
    PrependNothing(Split(rules.parse, AtHeader, ""));
    assert !OccursAt("", CRLFCRLF, 0);
  }

  // A socket that has been accepted but not registered, and a connection not yet counted.
  function Uncounted(e: Engine, fd: Fd): Engine {
    var accepted := if e.metrics.acceptTotal > 0 then e.metrics.acceptTotal - 1 else 0;
    e.(sockets := e.sockets - {fd}, metrics := e.metrics.(acceptTotal := accepted))
  }

  ghost predicate Accepting(rules: HttpRules, e: Engine, fd: Fd) {
    fd in e.sockets && fd !in e.clients && e.metrics.acceptTotal > 0 &&
    forall key: int {:trigger Unsealed(e, key)} :: Unsealed(e, key) ==> AcceptingParts(rules, e, fd)
  }

  ghost predicate AcceptingParts(rules: HttpRules, e: Engine, fd: Fd)
    requires fd in e.sockets
  {
    Valid(rules, Uncounted(e, fd)) && e.sockets[fd] == Stream("", "")
  }

  lemma WhenAccepting(rules: HttpRules, e: Engine, fd: Fd)
    requires Accepting(rules, e, fd)
    ensures AcceptingParts(rules, e, fd)
  {
    assert Unsealed(e, 0);
  }

  // Accepting a connection opens a socket and is counted at once.
  lemma AcceptedIsAccepting(rules: HttpRules, e: Engine, e': Engine, fd: Fd)
    requires Valid(rules, e) && fd !in e.sockets
    requires e' == e.(sockets := e.sockets[fd := Stream("", "")], metrics := e.metrics.(acceptTotal := e.metrics.acceptTotal + 1))
    ensures Accepting(rules, e', fd) && Ran(e, e') && forall f :: f in e.clients ==> Undisturbed(e, e', f)
  {
    assert e.sockets[fd := Stream("", "")] - {fd} == e.sockets;
    assert Uncounted(e', fd) == e;
    SealRun(e, e');
  }

  lemma NotPolled(rules: HttpRules, e: Engine, fd: Fd)
    requires Accepting(rules, e, fd)
    ensures fd !in e.interest
  {
    WhenAccepting(rules, e, fd);
    Unseal(rules, Uncounted(e, fd));
  }

  // The extra socket does not disturb the invariant.
  lemma WithSocket(rules: HttpRules, e: Engine, fd: Fd)
    requires Accepting(rules, e, fd)
    ensures var with := Uncounted(e, fd).(sockets := e.sockets);
            && Shape(rules, with) && Counted(with)
            && with.sockets.Keys - {fd} == with.clients.Keys && with.active <= MAX_CONNECTIONS
            && OthersGood(rules, with, fd) && with.sockets[fd] == Stream("", "")
  {
    WhenAccepting(rules, e, fd);
    var without, with := Uncounted(e, fd), Uncounted(e, fd).(sockets := e.sockets);
    UnsealValid(rules, without);
    forall f | f in with.clients ensures Good(rules, with, f) {
      assert Good(rules, without, f);
    }
  }

  // Refusing an accepted connection: counted as rejected, nothing else remembered.
  function RefusedAt(e: Engine, fd: Fd): Engine {
    var m := e.metrics;
    e.(sockets := e.sockets - {fd},
       metrics := m.(rejectTotal := m.rejectTotal + 1, reject429 := m.reject429 + 1, errorsTotal := m.errorsTotal + 1))
  }

  // Refused, but its socket is still to be closed.
  ghost predicate RefusedButOpen(e: Engine, e': Engine, fd: Fd) {
    fd in e'.sockets && e'.(sockets := e'.sockets - {fd}) == RefusedAt(e, fd)
  }

  lemma RefusalIsValid(rules: HttpRules, e: Engine, fd: Fd)
    requires Accepting(rules, e, fd)
    ensures Valid(rules, RefusedAt(e, fd))
  {
    WhenAccepting(rules, e, fd);
    var before, after := Uncounted(e, fd), RefusedAt(e, fd);
    UnsealValid(rules, before);
    forall f | f in after.clients ensures Good(rules, after, f) {
      assert Good(rules, before, f);
    }
    Seal(rules, after);
    SealValid(rules, after);
  }

  // An admitted connection is there, under the next id and on the header clock, unless it is one
  // too many: then it has been closed again.
  ghost predicate Connected(a: Engine, b: Engine, fd: Fd, now: int) {
    && b.nextId == a.nextId + 1 && b.metrics.reject429 == a.metrics.reject429
    && if a.active < 200000 then
         && fd in b.clients && b.clients[fd] == NewConnection(a.nextId).Arm(HeaderTimer)
         && Waits(b, fd, HeaderTimer, now + 10_000 * MS)
         && b.journal[fd].requests == [] && fd in b.sockets && b.sockets[fd] == Stream("", "")
       else
         fd !in b.clients && |b.closeLog| == |a.closeLog| + 1 && b.closeLog[|a.closeLog|].reason == ConnectionLimit
  }

  lemma RegisterIsSound(rules: HttpRules, e: Engine, fd: Fd)
    requires Shape(rules, e) && Counted(e) && fd !in e.clients && fd in e.sockets && e.sockets[fd] == Stream("", "")
    requires OthersGood(rules, e, fd)
    requires e.sockets.Keys - {fd} == e.clients.Keys
    ensures var r := Registered(e, fd);
            && Shape(rules, r) && Counted(r) && r.sockets.Keys == r.clients.Keys
            && OthersGood(rules, r, fd) && Rested(rules, r, fd) && !Stalled(r.clients[fd])
  {
    RegisterKeepsShape(rules, e, fd);
    NewConnectionIsRested(rules, e, fd);
    RegisterKeepsOthers(rules, e, fd);
  }

  lemma RegisterKeepsOthers(rules: HttpRules, e: Engine, fd: Fd)
    requires OthersGood(rules, e, fd) && fd in e.sockets
    ensures OthersGood(rules, Registered(e, fd), fd)
  {
    var r := Registered(e, fd);
    assert Unsealed(e, 0);
    forall f | f in r.clients && f != fd ensures Good(rules, r, f) {
      assert Good(rules, e, f);
    }
  }

  // The poller watches exactly the live connections.
  lemma PolledIsLive(rules: HttpRules, e: Engine)
    requires Valid(rules, e)
    ensures forall fd :: fd in e.interest ==> fd in e.clients
  {
    Unseal(rules, e);
  }

  // Accepting, refusing and registering leave the connections that are there alone.
  lemma UndisturbedByAccepting(rules: HttpRules, a: Engine, b: Engine, fd: Fd)
    requires Accepting(rules, a, fd) && b.clients - {fd} == a.clients && b.sockets - {fd} == a.sockets - {fd}
    ensures forall f :: f in a.clients ==> Undisturbed(a, b, f)
  {
    WhenAccepting(rules, a, fd);
    assert a.clients - {fd} == a.clients;
    UndisturbedElsewhere(rules, Uncounted(a, fd), b, fd);
    forall f | f in a.clients ensures Undisturbed(a, b, f) {
      assert Undisturbed(Uncounted(a, fd), b, f);
    }
  }

  lemma RanByRefusal(rules: HttpRules, e: Engine, fd: Fd)
    requires Accepting(rules, e, fd)
    ensures Ran(e, RefusedAt(e, fd))
  {
    WhenAccepting(rules, e, fd);
    SealRun(e, RefusedAt(e, fd));
  }

  lemma RanByRegistering(rules: HttpRules, e: Engine, fd: Fd)
    requires Accepting(rules, e, fd)
    ensures Ran(e, Registered(Uncounted(e, fd).(sockets := e.sockets), fd))
  {
    WhenAccepting(rules, e, fd);
    SealRun(e, Registered(Uncounted(e, fd).(sockets := e.sockets), fd));
  }

  // What there is to know once an admitted connection has been entered into the tables.
  lemma ConnectIsSound(rules: HttpRules, e: Engine, fd: Fd)
    requires Accepting(rules, e, fd)
    ensures var r := Registered(Uncounted(e, fd).(sockets := e.sockets), fd);
            && Shape(rules, r) && Counted(r) && r.sockets.Keys == r.clients.Keys && r.active <= MAX_CONNECTIONS + 1
            && OthersGood(rules, r, fd) && Rested(rules, r, fd) && !Stalled(r.clients[fd])
            && Ran(e, r) && r.clients - {fd} == e.clients
            && r.clients[fd].Disarm(IdleTimer).Arm(HeaderTimer) == NewConnection(e.nextId).Arm(HeaderTimer)
            && r.journal[fd] == EMPTY_JOURNAL && r.sockets[fd] == Stream("", "")
  {
    WithSocket(rules, e, fd);
    RegisterIsSound(rules, Uncounted(e, fd).(sockets := e.sockets), fd);
    WithoutMissing(e.clients, fd);
    UpdateElsewhere(e.clients, fd, NewConnection(e.nextId));
    RanByRegistering(rules, e, fd);
  }

  // ---------------------------------------------------------------- expiry

  ghost predicate IsTop(t: TimerEntry, heap: multiset<TimerEntry>) {
    t in heap && forall u :: u in heap ==> t.deadline <= u.deadline
  }

  lemma {:induction false} TopExists(heap: multiset<TimerEntry>) returns (top: TimerEntry)
    requires heap != multiset{}
    ensures IsTop(top, heap)
    decreases |heap|
  {
    var t :| t in heap;
    var rest := heap - multiset{t};
    if rest == multiset{} {
      top := t;
      assert heap == multiset{t};
    } else {
      var u := TopExists(rest);
      top := if t.deadline <= u.deadline then t else u;
      forall v | v in heap ensures top.deadline <= v.deadline {
        assert v == t || v in rest;
      }
    }
  }

  // Some deadline of this connection has come.
  predicate Due(j: Journal, now: int) {
    || (HeaderTimer in j.deadlines && j.deadlines[HeaderTimer] <= now)
    || (BodyTimer in j.deadlines && j.deadlines[BodyTimer] <= now)
    || (IdleTimer in j.deadlines && j.deadlines[IdleTimer] <= now)
  }

  // An entry of the plain map that is due has its node at or before now in the heap, so once the
  // top is later than now nothing is due.
  lemma NothingDue(e: Engine, now: int)
    requires TimersOk(e.clients, e.journal, e.heap, e.nextId)
    requires forall t :: t in e.heap ==> now < t.deadline
    ensures forall fd :: fd in e.clients ==> fd in e.journal && !Due(e.journal[fd], now)
  {
    forall fd | fd in e.clients ensures fd in e.journal && !Due(e.journal[fd], now) {
      var c, j := e.clients[fd], e.journal[fd];
      assert ArmedOk(fd, c, j, e.heap);
      forall kind | kind in j.deadlines ensures now < j.deadlines[kind] {
        assert NodeOf(fd, c, kind, j.deadlines[kind]) in e.heap;
      }
    }
  }

  // The engine once the node of an armed timer has been popped.
  function Expired(e: Engine, t: TimerEntry): Engine
    requires t.fd in e.clients && t.fd in e.journal && t.kind in e.journal[t.fd].deadlines
  {
    Disarmed(e, t.fd, t.kind).(heap := e.heap - multiset{t}, journal := e.journal[t.fd := e.journal[t.fd].Expire(t.kind)])
  }

  lemma PopCurrentKeepsTimers(rules: HttpRules, e: Engine, t: TimerEntry)
    requires Shape(rules, e) && t in e.heap && IsCurrent(t, e.clients)
    ensures t.kind in e.journal[t.fd].deadlines && e.journal[t.fd].deadlines[t.kind] == t.deadline
    ensures TimersOk(Expired(e, t).clients, Expired(e, t).journal, e.heap - multiset{t}, e.nextId)
  {
    Unseal(rules, e);
    PopCurrentDisarms(e, t);
    assert ArmedOk(t.fd, e.clients[t.fd], e.journal[t.fd], e.heap);
  }

  lemma ExpireKeepsShape(rules: HttpRules, e: Engine, t: TimerEntry)
    requires Shape(rules, e) && t in e.heap && IsCurrent(t, e.clients) && t.kind in e.journal[t.fd].deadlines
    ensures Shape(rules, Expired(e, t))
  {
    var c, j := e.clients[t.fd].Disarm(t.kind), e.journal[t.fd].Expire(t.kind);
    PopCurrentKeepsTimers(rules, e, t);
    SameQueueIn(rules, e, t.fd, c);
    PutKeepsShape(rules, e, t.fd, c, j, e.ready, e.heap - multiset{t}, e.inflight, e.metrics);
  }

  lemma ExpireIsServing(rules: HttpRules, e: Engine, t: TimerEntry)
    requires Shape(rules, e) && t.fd in e.clients && t.kind in e.journal[t.fd].deadlines
    ensures Served(e, Expired(e, t), t.fd)
  {
    ServedByUpdate(e, Expired(e, t), t.fd, e.clients[t.fd].Disarm(t.kind), e.journal[t.fd].Expire(t.kind));
  }

  lemma ExpiredMeans(rules: HttpRules, e: Engine, t: TimerEntry)
    requires Accounted(rules, e, t.fd) && t.kind in e.journal[t.fd].deadlines
    ensures var e' := Expired(e, t);
            && Accounted(rules, e', t.fd) && t.fd in e'.journal
            && e'.journal[t.fd].lapsed == Some(Lapse(t.kind, e.journal[t.fd].deadlines[t.kind]))
            && e'.clients - {t.fd} == e.clients - {t.fd} && e'.journal - {t.fd} == e.journal - {t.fd}
  {
    AccountedAfterDisarm(rules, e, Expired(e, t), t.fd, t.kind);
    UpdateElsewhere(e.clients, t.fd, e.clients[t.fd].Disarm(t.kind));
    UpdateElsewhere(e.journal, t.fd, e.journal[t.fd].Expire(t.kind));
  }

  lemma PopStaleIsValid(rules: HttpRules, e: Engine, t: TimerEntry)
    requires Valid(rules, e) && t in e.heap && !IsCurrent(t, e.clients)
    ensures Valid(rules, e.(heap := e.heap - multiset{t}))
  {
    PopStaleKeepsShape(rules, e, t);
    UnsealValid(rules, e);
    var popped := e.(heap := e.heap - multiset{t});
    forall f | f in popped.clients ensures Good(rules, popped, f) {
      assert Good(rules, e, f);
    }
    SealValid(rules, popped);
  }

  // One expiry step: either the popped node was a leftover, or its connection was due and is
  // closed, recorded and counted.
  ghost predicate Popped(a: Engine, b: Engine, t: TimerEntry, now: int) {
    || (b.clients == a.clients && b.journal == a.journal && b.sockets == a.sockets && b.closeLog == a.closeLog && b.active == a.active
        && b.metrics.timeoutCloseTotal == a.metrics.timeoutCloseTotal)
    || (t.fd in a.clients && t.fd in a.journal && Due(a.journal[t.fd], now)
        && b.clients == a.clients - {t.fd} && b.journal == a.journal - {t.fd} && b.sockets == a.sockets - {t.fd}
        && |b.closeLog| == |a.closeLog| + 1 && a.closeLog <= b.closeLog && b.closeLog[|a.closeLog|].reason.TimedOut?
        && b.active == a.active - 1 && b.metrics.timeoutCloseTotal == a.metrics.timeoutCloseTotal + 1)
  }

  // An armed timer popped, and its connection closed.
  lemma ClosedIsPopped(a: Engine, popped: Engine, b: Engine, t: TimerEntry)
    requires t.fd in a.clients && t.fd in a.journal && Due(a.journal[t.fd], t.deadline)
    requires popped.clients - {t.fd} == a.clients - {t.fd} && popped.journal - {t.fd} == a.journal - {t.fd}
    requires popped.sockets - {t.fd} == a.sockets - {t.fd} && b.sockets == popped.sockets - {t.fd}
    requires popped.closeLog == a.closeLog && popped.active == a.active && popped.metrics == a.metrics
    requires b.clients == popped.clients - {t.fd} && b.journal == popped.journal - {t.fd}
    requires |b.closeLog| == |popped.closeLog| + 1 && popped.closeLog <= b.closeLog && b.closeLog[|popped.closeLog|].reason.TimedOut?
    requires b.active == popped.active - 1 && b.metrics.timeoutCloseTotal == popped.metrics.timeoutCloseTotal + 1
    ensures Popped(a, b, t, t.deadline)
  {
  }

  lemma DueLater(a: Engine, b: Engine, t: TimerEntry, now: int)
    requires Popped(a, b, t, t.deadline) && t.deadline <= now
    ensures Popped(a, b, t, now)
  {
  }

  // Any number of such steps: only connections that were due are gone.
  ghost predicate Expiring(a: Engine, b: Engine, now: int) {
    && (forall fd :: fd in b.clients ==>
          fd in b.journal && fd in a.journal && b.journal[fd] == a.journal[fd] && Undisturbed(a, b, fd))
    && (forall fd :: fd in a.clients && fd !in b.clients ==> fd in a.journal && Due(a.journal[fd], now))
    && a.closeLog <= b.closeLog && (forall i :: |a.closeLog| <= i < |b.closeLog| ==> b.closeLog[i].reason.TimedOut?)
    && |b.closeLog| - |a.closeLog| == a.active - b.active == b.metrics.timeoutCloseTotal - a.metrics.timeoutCloseTotal
  }

  lemma ExpiringStep(a: Engine, b: Engine, c: Engine, t: TimerEntry, now: int)
    requires Expiring(a, b, now) && Popped(b, c, t, now)
    ensures Expiring(a, c, now)
  {
  }

  // Nothing that is still there is due, so exactly the due connections are gone.
  lemma OnlyDueAreGone(a: Engine, b: Engine, now: int)
    requires Expiring(a, b, now)
    requires forall fd :: fd in a.clients ==> fd in a.journal
    requires forall fd :: fd in b.clients ==> fd in b.journal && !Due(b.journal[fd], now)
    ensures b.clients == map fd | fd in a.clients && !Due(a.journal[fd], now) :: a.clients[fd]
  {
    var kept := map fd | fd in a.clients && !Due(a.journal[fd], now) :: a.clients[fd];
    forall fd ensures fd in b.clients <==> fd in kept {
    }
    assert forall fd :: fd in kept ==> b.clients[fd] == kept[fd];
  }

  // Once the top of the heap lies in the future, expiry has done its work.
  lemma ExpiryIsExact(rules: HttpRules, a: Engine, b: Engine, now: int)
    requires Valid(rules, a) && Valid(rules, b) && Expiring(a, b, now)
    requires forall t :: t in b.heap ==> now < t.deadline
    ensures b.clients == map fd | fd in a.clients && !Due(a.journal[fd], now) :: a.clients[fd]
    ensures forall fd :: fd in b.clients ==> Undisturbed(a, b, fd)
    ensures b.metrics.timeoutCloseTotal - a.metrics.timeoutCloseTotal == |a.clients| - |b.clients|
    ensures |b.closeLog| - |a.closeLog| == |a.clients| - |b.clients|
  {
    PopulationOf(rules, a);
    PopulationOf(rules, b);
    TimersOf(rules, b);
    NothingDue(b, now);
    OnlyDueAreGone(a, b, now);
  }

  lemma PopulationOf(rules: HttpRules, e: Engine)
    requires Shape(rules, e)
    ensures PopulationOk(e)
  {
    Unseal(rules, e);
  }

  lemma TimersOf(rules: HttpRules, e: Engine)
    requires Shape(rules, e)
    ensures TimersOk(e.clients, e.journal, e.heap, e.nextId)
  {
    Unseal(rules, e);
  }

  // An armed timer is always current.
  lemma CurrentMeansArmed(rules: HttpRules, e: Engine, t: TimerEntry)
    requires Shape(rules, e) && t in e.heap
    ensures IsCurrent(t, e.clients) ==> e.clients[t.fd].TimerOf(t.kind).armed
  {
    Unseal(rules, e);
    if IsCurrent(t, e.clients) {
      assert HeapNodeOk(t, e.clients, e.journal, e.nextId);
      assert ArmedOk(t.fd, e.clients[t.fd], e.journal[t.fd], e.heap);
    }
  }

  // No armed timer is due before the top of the heap.
  lemma TopBoundsDeadlines(rules: HttpRules, e: Engine, top: TimerEntry)
    requires Shape(rules, e) && IsTop(top, e.heap)
    ensures forall fd, kind :: fd in e.clients && kind in e.journal[fd].deadlines ==> top.deadline <= e.journal[fd].deadlines[kind]
  {
    Unseal(rules, e);
    forall fd, kind | fd in e.clients && kind in e.journal[fd].deadlines
      ensures top.deadline <= e.journal[fd].deadlines[kind]
    {
      assert ArmedOk(fd, e.clients[fd], e.journal[fd], e.heap);
      assert NodeOf(fd, e.clients[fd], kind, e.journal[fd].deadlines[kind]) in e.heap;
    }
  }

  lemma NoNodesNoDeadlines(rules: HttpRules, e: Engine)
    requires Shape(rules, e) && e.heap == multiset{}
    ensures forall fd, kind :: fd in e.clients ==> kind !in e.journal[fd].deadlines
  {
    Unseal(rules, e);
    forall fd, kind | fd in e.clients ensures kind !in e.journal[fd].deadlines {
      assert ArmedOk(fd, e.clients[fd], e.journal[fd], e.heap);
    }
  }
}
