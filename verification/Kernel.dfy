// The operating system as the engine sees it. Every outcome the contracts allow is possible:
// the bodies choose arbitrarily.
module Kernels {
  import opened Text
  import opened Connections

  // Interrupted reads and writes are retried by the caller; the retries are part of the call.
  datatype ReadResult = Data(bytes: string) | EndOfStream | WouldBlock | ReadError

  datatype WriteResult = Wrote(count: nat) | WriteError

  // An accepted socket and the "address:port" it comes from.
  datatype AcceptedSocket = AcceptedSocket(fd: Fd, endpoint: string)

  datatype PollEvent = PollEvent(fd: Fd, readable: bool, writable: bool, hangup: bool)

  // What has been seen of the sockets' input. dry: those whose last read would have blocked; ended
  // and broken: those whose last read found the end of the stream, or an error.
  class Inputs {
    ghost var dry: set<Fd>
    ghost var ended: set<Fd>
    ghost var broken: set<Fd>

    constructor ()
    {
      dry, ended, broken := {}, {}, {};
    }
  }

  // Whether the last accept found nothing, and the endpoints of all that has been accepted.
  class Listener {
    ghost var dry: bool
    ghost var accepted: seq<string>

    constructor ()
      ensures accepted == []
    {
      dry, accepted := false, [];
    }
  }

  // One call of the poller: how long it was allowed to sleep, and what it reported.
  datatype Batch = Batch(timeoutMs: int, events: seq<PollEvent>)

  // Every such call there has been.
  class Poller {
    ghost var batches: seq<Batch>

    constructor ()
      ensures batches == []
    {
      batches := [];
    }

    ghost function Latest(): seq<PollEvent>
      reads this
    {
      if batches == [] then [] else batches[|batches| - 1].events
    }

    ghost predicate HungUp(fd: Fd)
      reads this
    {
      exists event :: event in Latest() && event.fd == fd && event.hangup
    }
  }

  class Kernel {
    const listenFd: Fd
    const inputs: Inputs
    const listener: Listener
    const poller: Poller
    var clock: int
    var sockets: map<Fd, Stream>
    var interest: map<Fd, PollMask>
    var backlog: nat
    ghost var broken: set<Fd>

    constructor (listenFd: Fd)
      ensures this.listenFd == listenFd && sockets == map[] && interest == map[] && clock == 0
      ensures fresh(inputs) && fresh(listener) && fresh(poller) && poller.batches == [] && listener.accepted == []
    {
      this.listenFd := listenFd;
      inputs := new Inputs();
      listener := new Listener();
      poller := new Poller();
      clock, sockets, interest, backlog := 0, map[], map[], 0;
      broken := {};
    }

    // A monotone clock.
    method Now() returns (now: int)
      modifies `clock
      ensures now == clock >= old(clock)
    {
      var elapsed: int := *;
      clock := if elapsed > 0 then clock + elapsed else clock;
      now := clock;
    }

    method Read(fd: Fd, limit: nat) returns (r: ReadResult)
      requires fd in sockets && limit > 0
      modifies `sockets, inputs
      ensures inputs.dry == if r.WouldBlock? then old(inputs.dry) + {fd} else old(inputs.dry) - {fd}
      ensures inputs.ended == if r.EndOfStream? then old(inputs.ended) + {fd} else old(inputs.ended) - {fd}
      ensures inputs.broken == if r.ReadError? then old(inputs.broken) + {fd} else old(inputs.broken) - {fd}
      ensures r.Data? ==> 0 < |r.bytes| <= limit
      ensures sockets == if r.Data? then old(sockets)[fd := old(sockets)[fd].(received := old(sockets)[fd].received + r.bytes)]
                         else old(sockets)
    {
      var outcome: ReadResult := *;
      r := if outcome.Data? && !(0 < |outcome.bytes| <= limit) then WouldBlock else outcome;
      inputs.dry := if r.WouldBlock? then inputs.dry + {fd} else inputs.dry - {fd};
      inputs.ended := if r.EndOfStream? then inputs.ended + {fd} else inputs.ended - {fd};
      inputs.broken := if r.ReadError? then inputs.broken + {fd} else inputs.broken - {fd};
      if r.Data? {
        sockets := sockets[fd := sockets[fd].(received := sockets[fd].received + r.bytes)];
      }
    }

    // Accepts a prefix of the data, possibly empty. A socket is full when its last write took
    // nothing, broken when it failed.
    method Write(fd: Fd, data: string) returns (r: WriteResult)
      requires fd in sockets
      modifies `sockets, `broken
      ensures broken == if r.WriteError? then old(broken) + {fd} else old(broken) - {fd}
      ensures r.Wrote? ==> r.count <= |data|
      ensures sockets == if r.Wrote? then old(sockets)[fd := old(sockets)[fd].(sent := old(sockets)[fd].sent + data[..r.count], full := r.count == 0)]
                         else old(sockets)
    {
      var failed: bool := *;
      var count: int := *;
      r := if failed then WriteError else if 0 <= count <= |data| then Wrote(count) else Wrote(0);
      broken := if r.WriteError? then broken + {fd} else broken - {fd};
      if r.Wrote? {
        sockets := sockets[fd := sockets[fd].(sent := sockets[fd].sent + data[..r.count], full := r.count == 0)];
      }
    }

    // Writes until the data is out, the socket is full or an error occurs.
    method WriteBestEffort(fd: Fd, data: string) returns (complete: bool, ghost count: nat)
      requires fd in sockets
      modifies `sockets, `broken
      ensures count <= |data| && (complete <==> count == |data|) && fd in sockets
      ensures !complete ==> sockets[fd].full || fd in broken
      ensures sockets == old(sockets)[fd := old(sockets)[fd].(sent := old(sockets)[fd].sent + data[..count], full := sockets[fd].full)]
    {
      var offset := 0;
      assert data[..0] == "" && sockets[fd].sent + "" == sockets[fd].sent;
      assert data[..|data|] == data;
      while offset < |data|
        invariant offset <= |data| && fd in sockets
        invariant sockets == old(sockets)[fd := old(sockets)[fd].(sent := old(sockets)[fd].sent + data[..offset], full := sockets[fd].full)]
        decreases |data| - offset
      {
        var w := Write(fd, data[offset..]);
        ghost var sent := old(sockets)[fd].sent;
        assert w.Wrote? ==> sent + data[..offset] + data[offset..][..w.count] == sent + data[..offset + w.count];
        if w.WriteError? || w.count == 0 {
          return false, offset;
        }
        offset := offset + w.count;
      }
      return true, offset;
    }

    method EpollAdd(fd: Fd, mask: PollMask)
      requires fd in sockets && fd !in interest
      modifies `interest
      ensures interest == old(interest)[fd := mask]
    {
      interest := interest[fd := mask];
    }

    method EpollModify(fd: Fd, mask: PollMask)
      requires fd in interest
      modifies `interest
      ensures interest == old(interest)[fd := mask]
    {
      interest := interest[fd := mask];
    }

    method EpollRemove(fd: Fd)
      requires fd in interest
      modifies `interest
      ensures interest == old(interest) - {fd}
    {
      interest := interest - {fd};
    }

    method Close(fd: Fd)
      requires fd in sockets && fd !in interest
      modifies `sockets
      ensures sockets == old(sockets) - {fd}
    {
      sockets := sockets - {fd};
    }

    // A new socket has a number that is not in use, and nothing has happened to it yet; the backlog
    // is finite.
    method Accept() returns (r: Option<AcceptedSocket>)
      modifies `sockets, `backlog, `broken, inputs`ended, inputs`broken, listener
      ensures listener.dry == r.None?
      ensures listener.accepted == old(listener.accepted) + (if r.Some? then [r.value.endpoint] else [])
      ensures r.Some? ==> r.value.fd !in broken && r.value.fd !in inputs.ended && r.value.fd !in inputs.broken
      ensures r.None? ==> sockets == old(sockets) && backlog == old(backlog)
      ensures r.Some? ==>
        && r.value.fd !in old(sockets) && r.value.fd != listenFd
        && sockets == old(sockets)[r.value.fd := Stream("", "")]
        && backlog < old(backlog)
    {
      var socket: AcceptedSocket := *;
      if backlog == 0 || socket.fd in sockets || socket.fd == listenFd {
        listener.dry := true;
        return None;
      }
      listener.dry, listener.accepted := false, listener.accepted + [socket.endpoint];
      broken, inputs.ended, inputs.broken := broken - {socket.fd}, inputs.ended - {socket.fd}, inputs.broken - {socket.fd};
      backlog := backlog - 1;
      sockets := sockets[socket.fd := Stream("", "")];
      r := Some(socket);
    }

    // At most one event per registered descriptor, and write readiness only where asked for.
    predicate EventsOk(events: seq<PollEvent>)
      reads this
    {
      && (forall i :: 0 <= i < |events| ==>
            events[i].fd == listenFd || (events[i].fd in interest && (events[i].writable ==> interest[events[i].fd].writable)))
      && (forall i, j :: 0 <= i < j < |events| ==> events[i].fd != events[j].fd)
    }

    method Wait(timeoutMs: int) returns (events: seq<PollEvent>)
      modifies `clock, `backlog, poller
      ensures clock >= old(clock) && EventsOk(events) && poller.batches == old(poller.batches) + [Batch(timeoutMs, events)]
    {
      var elapsed: int := *;
      var queued: int := *;
      clock := if elapsed > 0 then clock + elapsed else clock;
      backlog := if queued > 0 then queued else 0;
      events := *;
      if !EventsOk(events) {
        events := [];
      }
      poller.batches := poller.batches + [Batch(timeoutMs, events)];
    }
  }
}
