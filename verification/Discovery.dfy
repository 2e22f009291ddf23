/** The round-robin cache of discovered candidates, and the browser events that edit it. */
module Discovery {
  import opened Basics

  const DISCOVERY_CANDIDATE_LIFETIME: nat := 30_000
  const MAX_TRACKED_SERVICES: nat := 64
  const RESOLVE_REFRESH: nat := 10_000
  const DNS_SD_SERVICE_TYPE := "_phoneboost._tcp"

  datatype ServiceKey = ServiceKey(interface: int, protocol: int, name: string, kind: string, domain: string)

  datatype TransportCandidate = TransportCandidate(endpoint: string, detail: string)

  datatype Resolved = Resolved(service: ServiceKey, candidate: TransportCandidate, refreshedAt: nat)

  datatype BrowserEvent =
    | Added(path: string, service: ServiceKey)
    | Removed(path: string, service: ServiceKey)
    | Failed(path: string)

  predicate Alive(c: Resolved, now: nat) { Age(c.refreshedAt, now) < DISCOVERY_CANDIDATE_LIFETIME }

  function AliveAt(now: nat): Resolved -> bool { (c: Resolved) => Alive(c, now) }

  function NotOf(service: ServiceKey): Resolved -> bool { (c: Resolved) => c.service != service }

  predicate SameKey(a: Resolved, b: Resolved) { a.service == b.service && a.candidate.endpoint == b.candidate.endpoint }

  /** One entry per service and endpoint. */
  predicate OnePerKey(l: seq<Resolved>) { forall i, j | 0 <= i < j < |l| :: !SameKey(l[i], l[j]) }

  lemma {:induction false} RetainOnePerKey(l: seq<Resolved>, keep: Resolved -> bool)
    requires OnePerKey(l)
    ensures OnePerKey(Retain(l, keep))
  {
    if l != [] {
      var rest := Retain(l[1..], keep);
      RetainOnePerKey(l[1..], keep);
      RetainMembers(l[1..], keep);
      forall j | 0 <= j < |rest| ensures !SameKey(l[0], rest[j]) { assert rest[j] in l[1..]; }
      assert Retain(l, keep) == (if keep(l[0]) then [l[0]] + rest else rest);
    }
  }

  /** The index brought into range. */
  function Wrapped(i: nat, n: nat): (r: nat)
    ensures n > 0 ==> r < n
    ensures i < n ==> r == i
  {
    if n == 0 then 0 else i % n
  }

  function After(i: nat, n: nat): nat { if i + 1 == n then 0 else i + 1 }

  lemma AfterIsModulo(i: nat, n: nat)
    requires i < n
    ensures (i + 1) % n == After(i, n)
  {
  }

  /** Only live candidates are ever returned, and none is overlooked. */
  lemma LiveOnly(l: seq<Resolved>, now: nat)
    ensures forall c :: c in Retain(l, AliveAt(now)) <==> c in l && Alive(c, now)
  {
    RetainMembers(l, AliveAt(now));
    assert forall c :: AliveAt(now)(c) == Alive(c, now);
  }

  class CandidateCache {
    var candidates: seq<Resolved>
    var nextCandidate: nat

    ghost predicate Valid()
      reads this
    {
      OnePerKey(candidates)
    }

    constructor ()
      ensures Valid() && candidates == []
    {
      candidates, nextCandidate := [], 0;
    }

    /** Renews the entry of the same service and endpoint in its place, or adds one. */
    method Refresh(service: ServiceKey, candidate: TransportCandidate, now: nat)
      requires Valid()
      modifies this
      ensures Valid() && Resolved(service, candidate, now) in candidates
      ensures forall c | c in old(candidates) && !SameKey(c, Resolved(service, candidate, now)) :: c in candidates
      ensures forall c | c in candidates :: c in old(candidates) || c == Resolved(service, candidate, now)
    {
      var entry := Resolved(service, candidate, now);
      ghost var was := candidates;
      for i := 0 to |candidates|
        invariant candidates == was
        invariant forall j | 0 <= j < i :: !SameKey(candidates[j], entry)
      {
        if SameKey(candidates[i], entry) {
          candidates := candidates[i := entry];
          forall c | c in was && !SameKey(c, entry) ensures c in candidates {
            var j :| 0 <= j < |was| && was[j] == c;
            assert candidates[j] == c;
          }
          assert candidates[i] == entry;
          return;
        }
      }
      candidates := candidates + [entry];
    }

    /** Drops what is thirty seconds old and brings the index back into range. */
    method Expire(now: nat)
      requires Valid()
      modifies this
      ensures Valid() && candidates == Retain(old(candidates), AliveAt(now))
      ensures nextCandidate == Wrapped(old(nextCandidate), |candidates|)
    {
      RetainOnePerKey(candidates, AliveAt(now));
      candidates := Retain(candidates, AliveAt(now));
      if candidates == [] { nextCandidate := 0; } else { nextCandidate := nextCandidate % |candidates|; }
    }

    /** The candidate at the index, which moves on by one. */
    method Pick() returns (r: TransportCandidate)
      requires Valid() && nextCandidate < |candidates|
      modifies this`nextCandidate
      ensures r == candidates[old(nextCandidate)].candidate
      ensures nextCandidate == After(old(nextCandidate), |candidates|)
    {
      r := candidates[nextCandidate].candidate;
      AfterIsModulo(nextCandidate, |candidates|);
      nextCandidate := (nextCandidate + 1) % |candidates|;
    }

    /** The next live candidate in turn, whatever was removed since. */
    method Next(now: nat) returns (r: Option<TransportCandidate>)
      requires Valid()
      modifies this
      ensures Valid() && candidates == Retain(old(candidates), AliveAt(now))
      ensures r.None? <==> candidates == []
      ensures r.Some? ==>
                (var i := Wrapped(old(nextCandidate), |candidates|);
                 && r.value == candidates[i].candidate && nextCandidate == After(i, |candidates|)
                 && Alive(candidates[i], now))
    {
      Expire(now);
      LiveOnly(old(candidates), now);
      if candidates == [] { return None; }
      assert candidates[nextCandidate] in candidates;
      var c := Pick();
      r := Some(c);
    }

    /** With n live candidates and no change, n calls return each exactly once, in turn. */
    method Cycle(clock: nat -> nat) returns (picked: seq<TransportCandidate>)
      requires Valid() && candidates != []
      requires forall k, c | 0 <= k < |candidates| && c in candidates :: Alive(c, clock(k))
      modifies this
      ensures candidates == old(candidates)
      ensures var p := Wrapped(old(nextCandidate), |candidates|);
              picked == Picks(candidates[p..] + candidates[..p])
    {
      var n, p := |candidates|, Wrapped(nextCandidate, |candidates|);
      ghost var turn := candidates[p..] + candidates[..p];
      picked := [];
      for k := 0 to n
        invariant candidates == old(candidates) && Valid()
        invariant Wrapped(nextCandidate, n) == if p + k < n then p + k else p + k - n
        invariant picked == Picks(turn[..k])
      {
        AllAlive(candidates, clock(k));
        ghost var i := Wrapped(nextCandidate, n);
        var r := Next(clock(k));
        TurnAt(candidates, p, k);
        picked := picked + [r.value];
      }
      assert turn[..n] == turn;
    }
  }

  function Picks(l: seq<Resolved>): seq<TransportCandidate> { seq(|l|, i requires 0 <= i < |l| => l[i].candidate) }

  lemma TurnAt(l: seq<Resolved>, p: nat, k: nat)
    requires p < |l| && k < |l|
    ensures var turn := l[p..] + l[..p];
            Picks(turn[..k + 1]) == Picks(turn[..k]) + [l[if p + k < |l| then p + k else p + k - |l|].candidate]
  {
    var turn := l[p..] + l[..p];
    assert turn[k] == l[if p + k < |l| then p + k else p + k - |l|];
  }

  lemma AllAlive(l: seq<Resolved>, now: nat)
    requires forall c | c in l :: Alive(c, now)
    ensures Retain(l, AliveAt(now)) == l
  {
    RetainAll(l, AliveAt(now));
  }

  /** A full turn is a rearrangement: each entry once. */
  lemma TurnIsPermutation(l: seq<Resolved>, p: nat)
    requires p <= |l|
    ensures multiset(l[p..] + l[..p]) == multiset(l)
  {
    assert l == l[..p] + l[p..];
  }

  // ----- Browser events ----------------------------------------------------------------------

  type Services = map<ServiceKey, Option<nat>>

  /** Events of other browsers are ignored; a failure of this one stops. */
  function Handled(path: string, services: Services, l: seq<Resolved>, event: BrowserEvent): (Services, seq<Resolved>) {
    if event.path != path then (services, l)
    else
      match event
      case Added(_, service) =>
        if service.kind == DNS_SD_SERVICE_TYPE && service !in services && |services| < MAX_TRACKED_SERVICES
        then (services[service := None], l) else (services, l)
      case Removed(_, service) => (services - {service}, Retain(l, NotOf(service)))
      case Failed(_) => (services, l)
  }

  predicate IsDue(lastResolve: Option<nat>, now: nat) {
    lastResolve.None? || Age(lastResolve.value, now) >= RESOLVE_REFRESH
  }

  predicate Stops(path: string, event: BrowserEvent) { event == Failed(path) }

  function AllHandled(path: string, services: Services, l: seq<Resolved>, events: seq<BrowserEvent>)
      : (Services, seq<Resolved>)
    decreases |events|
  {
    if events == [] || Stops(path, events[0]) then (services, l)
    else
      var (services1, l1) := Handled(path, services, l, events[0]);
      AllHandled(path, services1, l1, events[1..])
  }

  /** A bounded number of services, and candidates of these only. */
  ghost predicate Consistent(services: Services, l: seq<Resolved>) {
    && |services| <= MAX_TRACKED_SERVICES && OnePerKey(l)
    && forall c | c in l :: c.service in services
  }

  lemma HandledKeeps(path: string, services: Services, l: seq<Resolved>, event: BrowserEvent)
    requires Consistent(services, l)
    ensures var (services', l') := Handled(path, services, l, event); Consistent(services', l')
  {
    if event.Removed? {
      RetainOnePerKey(l, NotOf(event.service));
      RetainMembers(l, NotOf(event.service));
      assert services.Keys == (services - {event.service}).Keys + (services.Keys * {event.service});
    }
  }

  /** A browser's own event: a service of our kind is tracked from when it is added, while there
      is room; one that is removed goes with its candidates; nothing else changes. */
  lemma HandledExactly(path: string, services: Services, l: seq<Resolved>, event: BrowserEvent)
    ensures var (services', l') := Handled(path, services, l, event);
            && (event.Added? && event.path == path && event.service.kind == "_phoneboost._tcp" ==>
                  && l' == l
                  && (event.service in services' <==> event.service in services || |services| < 64)
                  && (forall s | s != event.service :: s in services' <==> s in services)
                  && (forall s | s in services :: s in services' && services'[s] == services[s]))
            && (event.Removed? && event.path == path ==>
                  && (forall s :: s in services' <==> s in services && s != event.service)
                  && (forall s | s in services' :: services'[s] == services[s])
                  && (forall c :: c in l' <==> c in l && c.service != event.service))
            && (event.path != path || event.Failed? || (event.Added? && event.service.kind != "_phoneboost._tcp") ==>
                  services' == services && l' == l)
  {
    if event.Removed? {
      RetainMembers(l, NotOf(event.service));
      assert forall c :: NotOf(event.service)(c) <==> c.service != event.service;
    }
  }

  /** A candidate lives for exactly thirty seconds; a service is asked again after ten. */
  lemma Lifetimes(c: Resolved, lastResolve: Option<nat>, now: nat)
    ensures Alive(c, now) <==> now < c.refreshedAt + 30_000
    ensures IsDue(lastResolve, now) <==> lastResolve.None? || lastResolve.value + 10_000 <= now
  {
  }

  class AvahiBackend {
    const path: string
    const cache: CandidateCache
    var services: Services

    ghost predicate Valid()
      reads this, cache
    {
      Consistent(services, cache.candidates)
    }

    constructor (path: string)
      ensures Valid() && this.path == path && services == map[] && fresh(cache)
    {
      this.path, this.services := path, map[];
      cache := new CandidateCache();
    }

    /** Applies the events in order, up to a failure of this browser. */
    method ApplyEvents(events: seq<BrowserEvent>) returns (ok: bool)
      requires Valid()
      modifies this, cache
      ensures Valid()
      ensures (services, cache.candidates) == AllHandled(path, old(services), old(cache.candidates), events)
      ensures ok <==> forall i | 0 <= i < |events| :: !Stops(path, events[i])
    {
      assert events[0..] == events;
      for i := 0 to |events|
        invariant Valid()
        invariant AllHandled(path, services, cache.candidates, events[i..])
              == AllHandled(path, old(services), old(cache.candidates), events)
        invariant forall j | 0 <= j < i :: !Stops(path, events[j])
      {
        assert events[i..][1..] == events[i + 1..];
        if Stops(path, events[i]) { return false; }
        HandledKeeps(path, services, cache.candidates, events[i]);
        var (known, left) := Handled(path, services, cache.candidates, events[i]);
        services := known;
        cache.candidates := left;
      }
      ok := true;
    }

    /** One poll: of the services that are due one is resolved, if it answers, and what is old
        goes. `answers` is what each service would answer. */
    method Poll(events: seq<BrowserEvent>, answers: map<ServiceKey, TransportCandidate>, now: nat)
      returns (ok: bool, asked: Option<ServiceKey>)
      requires Valid()
      modifies this, cache
      ensures Valid()
      ensures ok ==> forall c | c in cache.candidates :: Alive(c, now)
      ensures ok ==> var known := AllHandled(path, old(services), old(cache.candidates), events).0;
                     && (asked.None? <==> forall s | s in known :: !IsDue(known[s], now))
                     && (asked.None? ==> services == known)
                     && (asked.Some? ==> asked.value in known && IsDue(known[asked.value], now)
                                         && services == known[asked.value := Some(now)])
      ensures ok && asked.Some? && asked.value in answers ==>
                Resolved(asked.value, answers[asked.value], now) in cache.candidates
    {
      asked := None;
      ok := ApplyEvents(events);
      if !ok { return; }
      var due := set s | s in services && IsDue(services[s], now);
      assert forall s | s in services && IsDue(services[s], now) :: s in due;
      if due != {} {
        var s :| s in due;
        asked := Some(s);
        services := services[s := Some(now)];
        if s in answers { cache.Refresh(s, answers[s], now); }
      }
      LiveOnly(cache.candidates, now);
      cache.Expire(now);
    }
  }
}
