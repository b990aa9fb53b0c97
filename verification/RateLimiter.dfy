// Admission control on accept: one token bucket per source address, kept in a bounded table
// with idle expiry and least-recently-seen eviction.
module RateLimiter {
  import opened Text

  const NS_PER_SECOND: int := 1_000_000_000
  const BURST: real := 200.0
  const REFILL_PER_SECOND: real := 50.0
  const MAX_ENTRIES: nat := 100000
  const TTL: int := 600 * NS_PER_SECOND

  function Seconds(ns: int): real {
    ns as real / 1000000000.0
  }

  // Everything before the last colon of "address:port".
  function ExtractIpFromPeerEndpoint(endpoint: string): string {
    match FindLast(endpoint, ':')
    case None => endpoint
    case Some(colon) => endpoint[..colon]
  }

  ghost predicate IsPeerAt(endpoint: string, address: string) {
    exists port :: ':' !in port && endpoint == address + ":" + port
  }

  // The port does not matter, and an endpoint without one is an address.
  lemma PeerAddress(endpoint: string)
    ensures forall address :: IsPeerAt(endpoint, address) ==> ExtractIpFromPeerEndpoint(endpoint) == address
    ensures ':' !in endpoint ==> ExtractIpFromPeerEndpoint(endpoint) == endpoint
  {
    forall address | IsPeerAt(endpoint, address) ensures ExtractIpFromPeerEndpoint(endpoint) == address {
      var port :| ':' !in port && endpoint == address + ":" + port;
      AddressBeforePort(address, port);
    }
  }

  lemma LastIsLast(text: string, c: char, i: nat, j: nat)
    requires i < |text| && j < |text| && text[i] == c == text[j] && c !in text[i + 1..] && c !in text[j + 1..]
    ensures i == j
  {
    assert forall k :: i < k < |text| ==> text[k] == text[i + 1..][k - i - 1];
    assert forall k :: j < k < |text| ==> text[k] == text[j + 1..][k - j - 1];
  }

  lemma AddressBeforePort(address: string, port: string)
    requires ':' !in port
    ensures ExtractIpFromPeerEndpoint(address + ":" + port) == address
  {
    var endpoint := address + ":" + port;
    assert endpoint[|address|] == ':' && endpoint[..|address|] == address && endpoint[|address| + 1..] == port;
    LastIsLast(endpoint, ':', FindLast(endpoint, ':').value, |address|);
  }

  function Refill(tokens: real, elapsed: int): real {
    if elapsed <= 0 then tokens
    else
      var more := tokens + Seconds(elapsed) * REFILL_PER_SECOND;
      if more < BURST then more else BURST
  }

  // ---------------------------------------------------------------- reference

  // The reference keeps one level per address for ever; only an explicit eviction forgets one.
  datatype Event = Arrival(ip: string, now: int) | Evict(ip: string)

  datatype Level = Level(tokens: real, at: int)

  type Table = map<string, Level>

  function TokensAt(table: Table, ip: string, now: int): real {
    if ip in table then Refill(table[ip].tokens, now - table[ip].at) else BURST
  }

  predicate Admits(table: Table, ip: string, now: int) {
    TokensAt(table, ip, now) >= 1.0
  }

  function Step(table: Table, event: Event): Table {
    match event
    case Evict(ip) => table - {ip}
    case Arrival(ip, now) =>
      var tokens := TokensAt(table, ip, now);
      table[ip := Level(if tokens >= 1.0 then tokens - 1.0 else tokens, now)]
  }

  function Replay(events: seq<Event>): Table {
    if events == [] then map[] else Step(Replay(events[..|events| - 1]), events[|events| - 1])
  }

  // Arrivals never go back in time, and none is later than the horizon.
  ghost predicate Chronological(events: seq<Event>, horizon: int) {
    events != [] ==>
      var last := events[|events| - 1];
      && (last.Arrival? ==> last.now <= horizon)
      && Chronological(events[..|events| - 1], if last.Arrival? then last.now else horizon)
  }

  // How many arrivals from ip with index in [from, until) were admitted.
  function Admitted(events: seq<Event>, ip: string, from: nat, until: nat): nat
    requires from <= until <= |events|
  {
    if from == until then 0
    else
      var e := events[until - 1];
      Admitted(events, ip, from, until - 1) +
      (if e.Arrival? && e.ip == ip && Admits(Replay(events[..until - 1]), ip, e.now) then 1 else 0)
  }

  lemma {:induction false} LevelsAreBounded(events: seq<Event>, horizon: int, ip: string)
    requires Chronological(events, horizon) && ip in Replay(events)
    ensures 0.0 <= Replay(events)[ip].tokens <= BURST && Replay(events)[ip].at <= horizon
  {
    var front, last := events[..|events| - 1], events[|events| - 1];
    if last.Arrival? {
      if ip in Replay(front) {
        LevelsAreBounded(front, last.now, ip);
      }
    } else {
      LevelsAreBounded(front, horizon, ip);
    }
  }

  // Whenever a window of events contains no eviction of ip, the admissions it contains plus the
  // tokens left are paid for by one burst and the refill since the start.
  lemma {:induction false} TokensPayForAdmissions(
    events: seq<Event>, horizon: int, ip: string, from: nat, until: nat, start: int, end: int)
    requires from <= until <= |events| && Chronological(events[..until], horizon)
    requires forall k :: from <= k < until ==> InWindow(events[k], ip, start, end)
    ensures Admitted(events, ip, from, until) > 0 ==>
      && ip in Replay(events[..until])
      && start <= Replay(events[..until])[ip].at <= end
      && Admitted(events, ip, from, until) as real + Replay(events[..until])[ip].tokens
         <= BURST + REFILL_PER_SECOND * Seconds(Replay(events[..until])[ip].at - start)
    decreases until
  {
    if from < until {
      var e := events[until - 1];
      assert events[..until][..until - 1] == events[..until - 1];
      var before := Replay(events[..until - 1]);
      assert Replay(events[..until]) == Step(before, e);
      TokensPayForAdmissions(events, if e.Arrival? then e.now else horizon, ip, from, until - 1, start, end);
      assert InWindow(events[until - 1], ip, start, end);
      if e.Arrival? && e.ip == ip && ip in before {
        LevelsAreBounded(events[..until - 1], e.now, ip);
        RefillIsPaid(before[ip].tokens, before[ip].at, e.now, start);
      }
    }
  }

  lemma RefillIsPaid(tokens: real, at: int, now: int, start: int)
    requires at <= now && 0.0 <= tokens <= BURST
    ensures 0.0 <= Refill(tokens, now - at) <= BURST
    ensures Refill(tokens, now - at) <= tokens + REFILL_PER_SECOND * (Seconds(now - start) - Seconds(at - start))
  {
  }

  // Tokens come back at fifty a second, up to a full burst: an address is refused only if it was
  // there within the last 20 ms, and has its whole burst back after four seconds.
  lemma TokensComeBack(events: seq<Event>, horizon: int, ip: string, now: int)
    requires Chronological(events, horizon) && horizon <= now
    ensures ip !in Replay(events) ==> TokensAt(Replay(events), ip, now) == 200.0 && Admits(Replay(events), ip, now)
    ensures ip in Replay(events) ==>
              var level, idle := Replay(events)[ip], Seconds(now - Replay(events)[ip].at);
              && TokensAt(Replay(events), ip, now) == (if level.tokens + 50.0 * idle < 200.0 then level.tokens + 50.0 * idle else 200.0)
              && (idle >= 0.02 ==> Admits(Replay(events), ip, now))
              && (idle >= 4.0 ==> TokensAt(Replay(events), ip, now) == 200.0)
  {
    if ip in Replay(events) {
      LevelsAreBounded(events, horizon, ip);
    }
  }

  ghost predicate InWindow(e: Event, ip: string, start: int, end: int) {
    e.ip == ip ==> e.Arrival? && start <= e.now <= end
  }

  lemma {:induction false} ChronologicalPrefix(events: seq<Event>, horizon: int, until: nat)
    requires Chronological(events, horizon) && until <= |events|
    ensures Chronological(events[..until], horizon)
  {
    if until == |events| {
      assert events[..until] == events;
    } else {
      var front, last := events[..|events| - 1], events[|events| - 1];
      if last.Arrival? {
        ChronologicalLater(front, last.now, horizon);
      }
      ChronologicalPrefix(front, horizon, until);
      assert front[..until] == events[..until];
    }
  }

  // The rate bound: between two evictions of its bucket, an address is admitted at most one burst
  // plus fifty times a second.
  lemma RateBound(events: seq<Event>, horizon: int, ip: string, from: nat, until: nat, start: int, end: int)
    requires from <= until <= |events| && Chronological(events, horizon) && start <= end
    requires forall k :: from <= k < until ==> InWindow(events[k], ip, start, end)
    ensures Admitted(events, ip, from, until) as real <= 200.0 + 50.0 * Seconds(end - start)
  {
    ChronologicalPrefix(events, horizon, until);
    TokensPayForAdmissions(events, horizon, ip, from, until, start, end);
    if Admitted(events, ip, from, until) > 0 {
      LevelsAreBounded(events[..until], horizon, ip);
    }
  }

  function ArrivalsFrom(events: seq<Event>, ip: string, from: nat, until: nat): nat
    requires from <= until <= |events|
  {
    if from == until then 0
    else ArrivalsFrom(events, ip, from, until - 1) + (if events[until - 1].Arrival? && events[until - 1].ip == ip then 1 else 0)
  }

  // And no stricter than that: the first 200 arrivals of an address are all admitted, however fast
  // they follow each other.
  lemma {:induction false} BurstIsAdmitted(events: seq<Event>, horizon: int, ip: string, from: nat, until: nat)
    requires from <= until <= |events| && Chronological(events[..until], horizon) && ip !in Replay(events[..from])
    requires forall k :: from <= k < until && events[k].ip == ip ==> events[k].Arrival?
    requires ArrivalsFrom(events, ip, from, until) <= 200
    ensures Admitted(events, ip, from, until) == ArrivalsFrom(events, ip, from, until)
    ensures var n, table := ArrivalsFrom(events, ip, from, until), Replay(events[..until]);
            if n == 0 then ip !in table else ip in table && table[ip].tokens >= 200.0 - n as real
    decreases until
  {
    if from < until {
      var e := events[until - 1];
      assert events[..until][..until - 1] == events[..until - 1];
      var before := Replay(events[..until - 1]);
      assert Replay(events[..until]) == Step(before, e);
      BurstIsAdmitted(events, if e.Arrival? then e.now else horizon, ip, from, until - 1);
      if e.Arrival? && e.ip == ip && ip in before {
        LevelsAreBounded(events[..until - 1], e.now, ip);
      }
    }
  }

  // ---------------------------------------------------------------- admissions

  datatype Admission = Admission(ip: string, now: int)

  // The admissions on record, in order.
  function AdmittedLog(events: seq<Event>): seq<Admission> {
    if events == [] then []
    else AdmittedLog(events[..|events| - 1]) + AdmittedBy(events[..|events| - 1], events[|events| - 1])
  }

  function AdmittedBy(before: seq<Event>, e: Event): seq<Admission> {
    if e.Arrival? && Admits(Replay(before), e.ip, e.now) then [Admission(e.ip, e.now)] else []
  }

  // How many arrivals on record were refused.
  function Refusals(events: seq<Event>): nat {
    if events == [] then 0
    else
      var front, e := events[..|events| - 1], events[|events| - 1];
      Refusals(front) + (if e.Arrival? && !Admits(Replay(front), e.ip, e.now) then 1 else 0)
  }

  // The addresses of all arrivals on record, in order.
  function Arrivals(events: seq<Event>): seq<string> {
    if events == [] then []
    else
      var front, e := events[..|events| - 1], events[|events| - 1];
      Arrivals(front) + (if e.Arrival? then [e.ip] else [])
  }

  // How many of these admissions went to ip.
  function CountFrom(log: seq<Admission>, ip: string): nat {
    if log == [] then 0 else CountFrom(log[..|log| - 1], ip) + (if log[|log| - 1].ip == ip then 1 else 0)
  }

  lemma OneMoreFrom(log: seq<Admission>, more: Admission, ip: string)
    ensures CountFrom(log + [more], ip) == CountFrom(log, ip) + (if more.ip == ip then 1 else 0)
  {
    assert (log + [more])[..|log|] == log;
  }

  lemma SuffixGrows(before: seq<Admission>, log: seq<Admission>, added: seq<Admission>)
    requires before <= log
    ensures before <= log + added && (log + added)[|before|..] == log[|before|..] + added
  {
  }

  lemma AdmittedOnce(events: seq<Event>, until: nat)
    requires 0 < until <= |events|
    ensures AdmittedLog(events[..until]) == AdmittedLog(events[..until - 1]) + AdmittedBy(events[..until - 1], events[until - 1])
  {
    assert events[..until][..until - 1] == events[..until - 1];
  }

  lemma CountAdded(log: seq<Admission>, before: seq<Event>, e: Event, ip: string)
    ensures CountFrom(log + AdmittedBy(before, e), ip) ==
            CountFrom(log, ip) + (if e.Arrival? && e.ip == ip && Admits(Replay(before), ip, e.now) then 1 else 0)
  {
    var added := AdmittedBy(before, e);
    if added == [] {
      assert log + added == log;
    } else {
      OneMoreFrom(log, added[0], ip);
    }
  }

  lemma CountOfNothing(log: seq<Admission>, ip: string)
    ensures CountFrom(log[|log|..], ip) == 0
  {
  }

  // One more event on record adds to the log what it adds to the count.
  lemma LogOneMore(events: seq<Event>, ip: string, from: nat, until: nat, before: seq<Admission>) returns (log: seq<Admission>)
    requires from < until <= |events| && before <= AdmittedLog(events[..until - 1])
    requires CountFrom(AdmittedLog(events[..until - 1])[|before|..], ip) == Admitted(events, ip, from, until - 1)
    ensures log == AdmittedLog(events[..until]) && before <= log && CountFrom(log[|before|..], ip) == Admitted(events, ip, from, until)
  {
    var front, last := events[..until - 1], events[until - 1];
    var earlier := AdmittedLog(front);
    AdmittedOnce(events, until);
    SuffixGrows(before, earlier, AdmittedBy(front, last));
    CountAdded(earlier[|before|..], front, last, ip);
    log := earlier + AdmittedBy(front, last);
  }

  // A stretch of the record adds exactly its own admissions to the log.
  lemma {:induction false} AdmittedBetween(events: seq<Event>, ip: string, from: nat, until: nat)
    requires from <= until <= |events|
    ensures AdmittedLog(events[..from]) <= AdmittedLog(events[..until])
    ensures CountFrom(AdmittedLog(events[..until])[|AdmittedLog(events[..from])|..], ip) == Admitted(events, ip, from, until)
    decreases until
  {
    if from == until {
      CountOfNothing(AdmittedLog(events[..from]), ip);
    } else {
      AdmittedBetween(events, ip, from, until - 1);
      var log := LogOneMore(events, ip, from, until, AdmittedLog(events[..from]));
    }
  }

  // The rate bound, said of the admissions themselves.
  lemma AdmissionBound(events: seq<Event>, horizon: int, ip: string, from: nat, until: nat, start: int, end: int)
    requires from <= until <= |events| && Chronological(events, horizon) && start <= end
    requires forall k :: from <= k < until ==> InWindow(events[k], ip, start, end)
    ensures AdmittedLog(events[..from]) <= AdmittedLog(events[..until])
    ensures CountFrom(AdmittedLog(events[..until])[|AdmittedLog(events[..from])|..], ip) as real <= 200.0 + 50.0 * Seconds(end - start)
  {
    AdmittedBetween(events, ip, from, until);
    RateBound(events, horizon, ip, from, until, start, end);
  }

  // The arrivals on record are those of the peers at these endpoints.
  ghost predicate CameFrom(ips: seq<string>, endpoints: seq<string>) {
    |ips| == |endpoints| && forall k :: 0 <= k < |ips| ==> ips[k] == ExtractIpFromPeerEndpoint(endpoints[k])
  }

  lemma OneMorePeer(ips: seq<string>, endpoints: seq<string>, endpoint: string)
    requires CameFrom(ips, endpoints)
    ensures CameFrom(ips + [ExtractIpFromPeerEndpoint(endpoint)], endpoints + [endpoint])
  {
  }

  // How many peers at an address, whatever their ports, were admitted by a stretch of the record.
  ghost function PeersAdmitted(events: seq<Event>, endpoints: seq<string>, address: string, from: nat, until: nat): nat
    requires from <= until <= |events|
  {
    if from == until then 0
    else
      var front, e := events[..until - 1], events[until - 1];
      var k := |Arrivals(front)|;
      PeersAdmitted(events, endpoints, address, from, until - 1) +
      (if e.Arrival? && k < |endpoints| && IsPeerAt(endpoints[k], address) && Admits(Replay(front), e.ip, e.now) then 1 else 0)
  }

  lemma {:induction false} ArrivalAt(events: seq<Event>, i: nat)
    requires i < |events| && events[i].Arrival?
    ensures var k := |Arrivals(events[..i])|; k < |Arrivals(events)| && Arrivals(events)[k] == events[i].ip
  {
    var front := events[..|events| - 1];
    if i < |events| - 1 {
      ArrivalAt(front, i);
      assert front[..i] == events[..i];
    }
  }

  // They share the bucket of their address.
  lemma {:induction false} PeersShareABucket(events: seq<Event>, endpoints: seq<string>, address: string, from: nat, until: nat)
    requires from <= until <= |events| && CameFrom(Arrivals(events), endpoints)
    ensures PeersAdmitted(events, endpoints, address, from, until) <= Admitted(events, address, from, until)
    decreases until
  {
    if from < until {
      PeersShareABucket(events, endpoints, address, from, until - 1);
      if events[until - 1].Arrival? {
        ArrivalAt(events, until - 1);
        PeerAddress(endpoints[|Arrivals(events[..until - 1])|]);
      }
    }
  }

  // ---------------------------------------------------------------- the table

  datatype Bucket = Bucket(tokens: real, lastRefill: int, lastSeen: int)

  // The order list holds every key of the table once, least recently seen first.
  ghost predicate OrderOk(lru: seq<string>, buckets: map<string, Bucket>) {
    if lru == [] then buckets == map[]
    else
      && lru[0] in buckets
      && (forall ip :: ip in buckets ==> buckets[lru[0]].lastSeen <= buckets[ip].lastSeen)
      && OrderOk(lru[1..], buckets - {lru[0]})
  }

  lemma {:induction false} OrderMeans(lru: seq<string>, buckets: map<string, Bucket>, i: nat, j: nat)
    requires OrderOk(lru, buckets) && i < j < |lru|
    ensures lru[i] != lru[j] && lru[i] in buckets && lru[j] in buckets
    ensures buckets[lru[i]].lastSeen <= buckets[lru[j]].lastSeen
  {
    if i > 0 {
      OrderMeans(lru[1..], buckets - {lru[0]}, i - 1, j - 1);
    } else {
      OrderHolds(lru[1..], buckets - {lru[0]}, j - 1);
    }
  }

  lemma {:induction false} OrderHolds(lru: seq<string>, buckets: map<string, Bucket>, i: nat)
    requires OrderOk(lru, buckets) && i < |lru|
    ensures lru[i] in buckets
  {
    if i > 0 {
      OrderHolds(lru[1..], buckets - {lru[0]}, i - 1);
    }
  }

  lemma {:induction false} OrderCovers(lru: seq<string>, buckets: map<string, Bucket>)
    requires OrderOk(lru, buckets)
    ensures |lru| == |buckets| && forall ip :: ip in buckets <==> ip in lru
  {
    if lru != [] {
      OrderCovers(lru[1..], buckets - {lru[0]});
      assert (buckets - {lru[0]}).Keys == buckets.Keys - {lru[0]};
      assert lru == [lru[0]] + lru[1..];
    }
  }

  // std::list::erase of the one node holding ip.
  function Erase(lru: seq<string>, ip: string): seq<string> {
    if lru == [] then [] else if lru[0] == ip then lru[1..] else [lru[0]] + Erase(lru[1..], ip)
  }

  lemma {:induction false} EraseKeepsOrder(lru: seq<string>, buckets: map<string, Bucket>, ip: string)
    requires OrderOk(lru, buckets) && ip in buckets
    ensures OrderOk(Erase(lru, ip), buckets - {ip})
  {
    if lru[0] != ip {
      EraseKeepsOrder(lru[1..], buckets - {lru[0]}, ip);
      assert buckets - {ip} - {lru[0]} == buckets - {lru[0]} - {ip};
    }
  }

  lemma {:induction false} AppendKeepsOrder(lru: seq<string>, buckets: map<string, Bucket>, ip: string, bucket: Bucket)
    requires OrderOk(lru, buckets) && ip !in buckets
    requires forall other :: other in buckets ==> buckets[other].lastSeen <= bucket.lastSeen
    ensures OrderOk(lru + [ip], buckets[ip := bucket])
  {
    var more := buckets[ip := bucket];
    if lru == [] {
      assert more - {ip} == map[] && (lru + [ip])[1..] == [];
    } else {
      AppendKeepsOrder(lru[1..], buckets - {lru[0]}, ip, bucket);
      assert more - {lru[0]} == (buckets - {lru[0]})[ip := bucket];
      assert (lru + [ip])[1..] == lru[1..] + [ip];
    }
  }

  lemma {:induction false} SameOrder(lru: seq<string>, buckets: map<string, Bucket>, ip: string, bucket: Bucket)
    requires OrderOk(lru, buckets) && ip in buckets && bucket.lastSeen == buckets[ip].lastSeen
    ensures OrderOk(lru, buckets[ip := bucket])
  {
    var changed := buckets[ip := bucket];
    if lru[0] == ip {
      assert changed - {ip} == buckets - {ip};
    } else {
      SameOrder(lru[1..], buckets - {lru[0]}, ip, bucket);
      assert changed - {lru[0]} == (buckets - {lru[0]})[ip := bucket];
    }
  }

  lemma TouchKeepsOrder(lru: seq<string>, buckets: map<string, Bucket>, ip: string, bucket: Bucket)
    requires OrderOk(lru, buckets) && ip in buckets
    requires forall other :: other in buckets ==> buckets[other].lastSeen <= bucket.lastSeen
    ensures OrderOk(Erase(lru, ip) + [ip], buckets[ip := bucket])
  {
    EraseKeepsOrder(lru, buckets, ip);
    AppendKeepsOrder(Erase(lru, ip), buckets - {ip}, ip, bucket);
    assert (buckets - {ip})[ip := bucket] == buckets[ip := bucket];
  }

  // Present entries are exactly the reference levels; absent ones have been idle too long to
  // matter.
  ghost predicate Matches(buckets: map<string, Bucket>, table: Table, horizon: int) {
    && (forall ip :: ip in buckets ==>
          && ip in table && table[ip] == Level(buckets[ip].tokens, buckets[ip].lastRefill)
          && buckets[ip].lastSeen == buckets[ip].lastRefill <= horizon)
    && (forall ip :: ip in table && ip !in buckets ==> horizon - table[ip].at > TTL)
    && (forall ip :: ip in table ==> 0.0 <= table[ip].tokens <= BURST)
  }

  ghost predicate Consistent(lru: seq<string>, buckets: map<string, Bucket>, events: seq<Event>, horizon: int) {
    && OrderOk(lru, buckets)
    && |buckets| <= MAX_ENTRIES
    && Chronological(events, horizon)
    && Matches(buckets, Replay(events), horizon)
  }

  // What is left after ten minutes without an arrival have been waited for.
  function Unexpired(buckets: map<string, Bucket>, now: int): map<string, Bucket> {
    map ip | ip in buckets && now - buckets[ip].lastSeen <= 600 * NS_PER_SECOND :: buckets[ip]
  }

  ghost predicate IsOldest(buckets: map<string, Bucket>, ip: string) {
    ip in buckets && forall other :: other in buckets ==> buckets[ip].lastSeen <= buckets[other].lastSeen
  }

  // Letting ip in evicts nobody as long as there is room, and else the one address that has not
  // been seen for longest.
  ghost predicate LetIn(buckets: map<string, Bucket>, buckets': map<string, Bucket>, events: seq<Event>, run: seq<Event>, ip: string) {
    if ip in buckets || |buckets| < 100000 then run == events && buckets'.Keys == buckets.Keys + {ip}
    else exists oldest :: IsOldest(buckets, oldest) && run == events + [Evict(oldest)] && buckets'.Keys == buckets.Keys - {oldest} + {ip}
  }

  lemma FrontIsOldest(lru: seq<string>, buckets: map<string, Bucket>)
    requires OrderOk(lru, buckets) && lru != []
    ensures IsOldest(buckets, lru[0])
  {
    OrderCovers(lru, buckets);
    forall other | other in buckets ensures buckets[lru[0]].lastSeen <= buckets[other].lastSeen {
      var j :| 0 <= j < |lru| && lru[j] == other;
      if j > 0 {
        OrderMeans(lru, buckets, 0, j);
      }
    }
  }

  class IpRateLimiter {
    var lru: seq<string>
    var buckets: map<string, Bucket>
    ghost var events: seq<Event>
    ghost var horizon: int

    ghost predicate Valid()
      reads this
    {
      Consistent(lru, buckets, events, horizon)
    }

    constructor ()
      ensures Valid() && events == [] && horizon == 0
    {
      lru, buckets, events, horizon := [], map[], [], 0;
    }

    method CleanupExpiredIpBuckets(now: int)
      requires OrderOk(lru, buckets)
      modifies `lru, `buckets
      ensures OrderOk(lru, buckets) && |buckets| <= |old(buckets)|
      ensures buckets == Unexpired(old(buckets), now)
    {
      while lru != []
        invariant OrderOk(lru, buckets) && |buckets| <= |old(buckets)|
        invariant forall ip :: ip in buckets ==> ip in old(buckets) && buckets[ip] == old(buckets)[ip]
        invariant forall ip :: ip in old(buckets) && ip !in buckets ==> now - old(buckets)[ip].lastSeen > TTL
        decreases |lru|
      {
        var oldest := lru[0];
        if oldest !in buckets {
          assert false; // a listed address is never missing from the table
        }
        if now - buckets[oldest].lastSeen <= TTL {
          return;
        }
        Shrinks(buckets, oldest);
        lru := lru[1..];
        buckets := buckets - {oldest};
      }
    }

    method EvictOldestIpBucket()
      requires Valid()
      modifies `lru, `buckets, `events
      ensures Valid()
      ensures if old(lru) == [] then buckets == old(buckets) && lru == old(lru) && events == old(events)
              else lru == old(lru)[1..] && buckets == old(buckets) - {old(lru)[0]} && events == old(events) + [Evict(old(lru)[0])]
    {
      if lru == [] {
        return;
      }
      var oldest := lru[0];
      ConsistentAfterEviction(lru, buckets, events, horizon);
      lru := lru[1..];
      buckets := buckets - {oldest};
      events := events + [Evict(oldest)];
    }

    // Evicts from the front until there is room for one more entry.
    method MakeRoom(ghost ip: string)
      requires Valid() && ip !in buckets
      modifies `lru, `buckets, `events
      ensures Valid() && ip !in buckets && |buckets| < MAX_ENTRIES
      ensures if |old(buckets)| < MAX_ENTRIES then lru == old(lru) && buckets == old(buckets) && events == old(events)
              else old(lru) != [] && buckets == old(buckets) - {old(lru)[0]} && events == old(events) + [Evict(old(lru)[0])]
    {
      while |buckets| >= MAX_ENTRIES && lru != []
        invariant Valid() && ip !in buckets
        invariant (lru == old(lru) && buckets == old(buckets) && events == old(events))
                  || (old(lru) != [] && old(lru)[0] in old(buckets) && |old(buckets)| == MAX_ENTRIES
                      && buckets == old(buckets) - {old(lru)[0]} && events == old(events) + [Evict(old(lru)[0])])
        decreases |lru|
      {
        if |buckets| == |old(buckets)| {
          OrderHolds(lru, buckets, 0);
          Shrinks(buckets, lru[0]);
        }
        EvictOldestIpBucket();
      }
      assert lru == [] ==> buckets == map[];
    }

    method RefillIpBucket(ip: string, now: int)
      requires OrderOk(lru, buckets) && ip in buckets
      modifies `buckets
      ensures OrderOk(lru, buckets)
      ensures var b := old(buckets)[ip];
              buckets == old(buckets)[ip := if now - b.lastRefill <= 0 then b
                                            else b.(tokens := Refill(b.tokens, now - b.lastRefill), lastRefill := now)]
    {
      var elapsed := now - buckets[ip].lastRefill;
      if elapsed <= 0 {
        return;
      }
      var refilled := buckets[ip].(tokens := Refill(buckets[ip].tokens, elapsed), lastRefill := now);
      SameOrder(lru, buckets, ip, refilled);
      buckets := buckets[ip := refilled];
    }

    method TouchIpBucket(ip: string, now: int)
      requires OrderOk(lru, buckets) && ip in buckets
      requires forall other :: other in buckets ==> buckets[other].lastSeen <= now
      modifies `lru, `buckets
      ensures OrderOk(lru, buckets)
      ensures buckets == old(buckets)[ip := old(buckets)[ip].(lastSeen := now)]
    {
      TouchKeepsOrder(lru, buckets, ip, buckets[ip].(lastSeen := now));
      lru := Erase(lru, ip) + [ip];
      buckets := buckets[ip := buckets[ip].(lastSeen := now)];
    }

    method CreateBucket(ip: string, now: int)
      requires Valid() && horizon == now && ip !in buckets
      modifies `lru, `buckets, `events
      ensures Seen(lru, buckets, events, now, ip)
      ensures LetIn(old(buckets), buckets, old(events), events, ip)
    {
      if lru != [] {
        FrontIsOldest(lru, buckets);
      }
      MakeRoom(ip);
      var entry := Bucket(BURST, now, now);
      NewcomerHasFullBurst(buckets, Replay(events), now, ip);
      SetAside(buckets, Replay(events), now, ip, entry);
      AppendKeepsOrder(lru, buckets, ip, entry);
      lru := lru + [ip];
      buckets := buckets[ip := entry];
    }

    method RefreshBucket(ip: string, now: int)
      requires Valid() && horizon == now && ip in buckets
      modifies `lru, `buckets
      ensures buckets.Keys == old(buckets).Keys
      ensures Seen(lru, buckets, events, now, ip)
    {
      KnownTokens(buckets, Replay(events), now, ip);
      SetAside(buckets, Replay(events), now, ip, Bucket(TokensAt(Replay(events), ip, now), now, now));
      RefillIpBucket(ip, now);
      TouchIpBucket(ip, now);
    }

    // Drops what has expired, then finds or creates the bucket of ip and brings it up to date.
    method SeeIp(ip: string, now: int)
      requires Valid() && horizon <= now
      modifies this
      ensures Seen(lru, buckets, events, now, ip) && horizon == now
      ensures LetIn(Unexpired(old(buckets), now), buckets, old(events), events, ip)
    {
      ConsistentAfterCleanup(buckets, events, horizon, now);
      CleanupExpiredIpBuckets(now);
      horizon := now;
      if ip !in buckets {
        CreateBucket(ip, now);
      } else {
        RefreshBucket(ip, now);
      }
    }

    // Spends a token of the bucket just seen, if it holds one.
    method TakeToken(ip: string, now: int) returns (ok: bool)
      requires Seen(lru, buckets, events, now, ip) && horizon == now
      modifies `buckets, `events
      ensures Valid() && events == old(events) + [Arrival(ip, now)]
      ensures buckets.Keys == old(buckets).Keys
      ensures ok == Admits(Replay(old(events)), ip, now)
    {
      ConsistentAfterArrival(lru, buckets, events, now, ip);
      ok := buckets[ip].tokens >= 1.0;
      if ok {
        buckets := buckets[ip := buckets[ip].(tokens := buckets[ip].tokens - 1.0)];
      }
      events := events + [Arrival(ip, now)];
    }

    // The token bucket part of the check made between accept and registration. The recorded run
    // grows by the evictions that a full table forces, giving run, and then by this arrival.
    method Admit(ip: string, now: int) returns (ok: bool, ghost run: seq<Event>)
      requires Valid() && horizon <= now
      modifies this
      ensures Valid() && horizon == now
      ensures LetIn(Unexpired(old(buckets), now), buckets, old(events), run, ip) && events == run + [Arrival(ip, now)]
      ensures Extends(old(events), run, ip)
      // the answer is the one of the table that never expires anything
      ensures ok == Admits(Replay(run), ip, now)
    {
      SeeIp(ip, now);
      run := events;
      LettingInExtends(Unexpired(old(buckets), now), buckets, old(events), run, ip);
      ok := TakeToken(ip, now);
    }
  }

  // A recorded run is only ever extended, here by evictions of other addresses.
  ghost predicate Extends(before: seq<Event>, after: seq<Event>, newcomer: string) {
    && |before| <= |after| && after[..|before|] == before
    && forall k :: |before| <= k < |after| ==> after[k].Evict? && after[k].ip != newcomer
  }

  // An arrival is put on record and decided as the reference table would.
  ghost predicate Decision(before: seq<Event>, run: seq<Event>, after: seq<Event>, ip: string, now: int, ok: bool) {
    Extends(before, run, ip) && after == run + [Arrival(ip, now)] && ok == Admits(Replay(run), ip, now)
  }

  // Evictions admit and refuse nobody.
  lemma {:induction false} ExtendsKeepsLog(before: seq<Event>, after: seq<Event>, newcomer: string)
    requires Extends(before, after, newcomer)
    ensures AdmittedLog(after) == AdmittedLog(before) && Refusals(after) == Refusals(before) && Arrivals(after) == Arrivals(before)
    decreases |after|
  {
    if |after| == |before| {
      assert after == before;
    } else {
      var front := after[..|after| - 1];
      assert front[..|before|] == before;
      ExtendsKeepsLog(before, front, newcomer);
    }
  }

  // A decision adds one admission or one refusal to the record.
  lemma DecisionIsLogged(before: seq<Event>, run: seq<Event>, after: seq<Event>, ip: string, now: int, ok: bool)
    requires Decision(before, run, after, ip, now, ok)
    ensures before <= after
    ensures AdmittedLog(after) == AdmittedLog(before) + (if ok then [Admission(ip, now)] else [])
    ensures Arrivals(after) == Arrivals(before) + [ip]
    ensures Refusals(after) == Refusals(before) + (if ok then 0 else 1)
  {
    ExtendsKeepsLog(before, run, ip);
    assert after[..|run|] == run;
    assert before == run[..|before|];
  }

  ghost predicate MatchesExcept(buckets: map<string, Bucket>, table: Table, horizon: int, ip: string) {
    Matches(buckets - {ip}, table - {ip}, horizon) && (ip in table ==> 0.0 <= table[ip].tokens <= BURST)
  }

  lemma LettingInExtends(buckets: map<string, Bucket>, buckets': map<string, Bucket>, events: seq<Event>, run: seq<Event>, ip: string)
    requires LetIn(buckets, buckets', events, run, ip)
    ensures Extends(events, run, ip)
  {
  }

  lemma ConsistentAfterCleanup(buckets: map<string, Bucket>, events: seq<Event>, horizon: int, now: int)
    requires Chronological(events, horizon) && Matches(buckets, Replay(events), horizon) && horizon <= now
    ensures Chronological(events, now)
    ensures Matches(Unexpired(buckets, now), Replay(events), now)
  {
    ChronologicalLater(events, horizon, now);
  }

  lemma MatchesAfterEviction(buckets: map<string, Bucket>, table: Table, horizon: int, ip: string)
    requires Matches(buckets, table, horizon)
    ensures Matches(buckets - {ip}, table - {ip}, horizon)
  {
  }

  // The bucket of ip is up to date and everything else matches the reference.
  ghost predicate Seen(lru: seq<string>, buckets: map<string, Bucket>, events: seq<Event>, now: int, ip: string) {
    && OrderOk(lru, buckets) && |buckets| <= MAX_ENTRIES && Chronological(events, now)
    && MatchesExcept(buckets, Replay(events), now, ip)
    && ip in buckets && buckets[ip] == Bucket(TokensAt(Replay(events), ip, now), now, now)
  }

  // An address the table has forgotten has been idle for longer than a full refill takes.
  lemma NewcomerHasFullBurst(buckets: map<string, Bucket>, table: Table, now: int, ip: string)
    requires Matches(buckets, table, now) && ip !in buckets
    ensures TokensAt(table, ip, now) == BURST
  {
    if ip in table {
      assert Seconds(now - table[ip].at) >= 600.0;
    }
  }

  lemma KnownTokens(buckets: map<string, Bucket>, table: Table, now: int, ip: string)
    requires Matches(buckets, table, now) && ip in buckets
    ensures buckets[ip].lastRefill <= now
    ensures TokensAt(table, ip, now) == Refill(buckets[ip].tokens, now - buckets[ip].lastRefill)
  {
  }

  lemma SetAside(buckets: map<string, Bucket>, table: Table, now: int, ip: string, bucket: Bucket)
    requires Matches(buckets, table, now)
    ensures MatchesExcept(buckets[ip := bucket], table, now, ip)
  {
    assert buckets[ip := bucket] - {ip} == buckets - {ip};
  }

  lemma MatchesAfterArrival(buckets: map<string, Bucket>, table: Table, now: int, ip: string)
    requires MatchesExcept(buckets, table, now, ip) && ip in buckets
    requires var tokens := TokensAt(table, ip, now);
             buckets[ip] == Bucket(if tokens >= 1.0 then tokens - 1.0 else tokens, now, now)
    ensures Matches(buckets, Step(table, Arrival(ip, now)), now)
  {
    var after := Step(table, Arrival(ip, now));
    forall other | other in buckets && other != ip
      ensures other in after && after[other] == Level(buckets[other].tokens, buckets[other].lastRefill)
      ensures buckets[other].lastSeen == buckets[other].lastRefill <= now
    {
      assert other in buckets - {ip};
    }
    forall other | other in after && other !in buckets ensures now - after[other].at > TTL {
      assert other in table - {ip};
    }
    forall other | other in after ensures 0.0 <= after[other].tokens <= BURST {
      assert other != ip ==> other in table - {ip};
    }
  }

  // What the server does to the bucket of ip is what the reference does.
  lemma ConsistentAfterArrival(lru: seq<string>, buckets: map<string, Bucket>, events: seq<Event>, now: int, ip: string)
    requires Seen(lru, buckets, events, now, ip)
    ensures (buckets[ip].tokens >= 1.0) == Admits(Replay(events), ip, now)
    ensures var charged := buckets[ip].(tokens := buckets[ip].tokens - 1.0);
            Consistent(lru, if buckets[ip].tokens >= 1.0 then buckets[ip := charged] else buckets, events + [Arrival(ip, now)], now)
  {
    RecordArrival(events, now, ip);
    if buckets[ip].tokens >= 1.0 {
      var charged := buckets[ip].(tokens := buckets[ip].tokens - 1.0);
      SameOrder(lru, buckets, ip, charged);
      assert buckets[ip := charged] - {ip} == buckets - {ip};
      MatchesAfterArrival(buckets[ip := charged], Replay(events), now, ip);
    } else {
      MatchesAfterArrival(buckets, Replay(events), now, ip);
    }
  }

  lemma RecordArrival(events: seq<Event>, now: int, ip: string)
    requires Chronological(events, now)
    ensures var longer := events + [Arrival(ip, now)];
            && longer[..|events|] == events
            && Chronological(longer, now)
            && Replay(longer) == Step(Replay(events), Arrival(ip, now))
  {
    assert (events + [Arrival(ip, now)])[..|events|] == events;
  }

  lemma ConsistentAfterEviction(lru: seq<string>, buckets: map<string, Bucket>, events: seq<Event>, horizon: int)
    requires Consistent(lru, buckets, events, horizon) && lru != []
    ensures Consistent(lru[1..], buckets - {lru[0]}, events + [Evict(lru[0])], horizon)
  {
    Shrinks(buckets, lru[0]);
    MatchesAfterEviction(buckets, Replay(events), horizon, lru[0]);
    assert (events + [Evict(lru[0])])[..|events|] == events;
  }

  lemma {:induction false} ChronologicalLater(events: seq<Event>, horizon: int, later: int)
    requires Chronological(events, horizon) && horizon <= later
    ensures Chronological(events, later)
  {
    if events != [] && events[|events| - 1].Evict? {
      ChronologicalLater(events[..|events| - 1], horizon, later);
    }
  }

  lemma Shrinks(buckets: map<string, Bucket>, ip: string)
    requires ip in buckets
    ensures |buckets - {ip}| == |buckets| - 1
  {
    assert (buckets - {ip}).Keys == buckets.Keys - {ip};
  }
}
