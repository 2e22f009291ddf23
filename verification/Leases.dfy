/** The controller lease: the worker's authority over it, the host's view of it, and one
    clock for both. There is one peer, and commands run under the worker's lock, so none is
    ever pending between two of them. `executed` and `expiry` record history: when each
    sequence number ran, and the latest deadline each lease was given. */
module Leases {
  import opened Basics

  const LEASE_TTL_MS: nat := 60_000
  const TERMINAL_CACHE_CAPACITY: nat := 256

  /** What an acknowledgement says of a lease. */
  datatype Ref = Ref(id: nat, incarnation: nat, ttl: nat, next: nat)

  datatype Terminal = Terminal(sequence: nat, ref: Option<Ref>)

  datatype ActiveLease =
    ActiveLease(id: nat, expires: nat, next: nat, terminal: seq<Terminal>,
                evicted: Option<nat>, executed: map<nat, nat>)

  datatype Worker =
    Worker(incarnation: nat, active: Option<ActiveLease>, released: Option<ActiveLease>,
           nextId: nat, expiry: map<nat, nat>)

  datatype Command = Acquire | Renew(id: nat, sequence: nat) | Release(id: nat, sequence: nat)

  datatype Ack = Completed(sequence: nat, ref: Option<Ref>) | Failed(sequence: nat)

  // ----- The worker ---------------------------------------------------------------------------

  function SaturatingAdd(a: nat, b: nat): nat { if a + b > U64_MAX then U64_MAX else a + b }

  function LeaseRef(w: Worker, a: ActiveLease, now: nat): Ref {
    Ref(a.id, w.incarnation, if a.expires < now then 0 else a.expires - now, a.next)
  }

  function Lapse(w: Worker, now: nat): Worker {
    if w.active.Some? && now >= w.active.value.expires then w.(active := None) else w
  }

  function Granted(w: Worker, now: nat): Worker {
    var expires := SaturatingAdd(now, LEASE_TTL_MS);
    w.(active := Some(ActiveLease(w.nextId, expires, 0, [], None, map[])), released := None,
       nextId := w.nextId + 1, expiry := w.expiry[w.nextId := expires])
  }

  function ApplyAcquire(w: Worker, now: nat): (Worker, Ack) {
    var w1 := Lapse(w, now);
    var w2 := if w1.active.Some? then w1 else Granted(w1, now);
    (w2, Completed(0, Some(LeaseRef(w2, w2.active.value, now))))
  }

  function FindTerminal(l: seq<Terminal>, sequence: nat): (t: Option<Terminal>)
    ensures t.Some? ==> t.value in l && t.value.sequence == sequence
    ensures t.None? ==> forall e | e in l :: e.sequence != sequence
  {
    if l == [] then None
    else if l[0].sequence == sequence then Some(l[0])
    else FindTerminal(l[1..], sequence)
  }

  /** A retained result is given again; an older one, or a sequence out of turn, fails. */
  function Replayed(a: ActiveLease, sequence: nat): Ack {
    var t := FindTerminal(a.terminal, sequence);
    if t.Some? then Completed(sequence, t.value.ref) else Failed(sequence)
  }

  /** The next sequence number, neither answered before nor evicted. */
  predicate Fresh(a: ActiveLease, sequence: nat) {
    && FindTerminal(a.terminal, sequence).None?
    && (a.evicted.None? || sequence > a.evicted.value)
    && sequence == a.next && a.next < U64_MAX
  }

  /** Remembers a result, dropping the oldest beyond the capacity. */
  function Completing(a: ActiveLease, sequence: nat, ref: Option<Ref>, now: nat): ActiveLease {
    var terminal := a.terminal + [Terminal(sequence, ref)];
    var a1 := a.(executed := a.executed[sequence := now]);
    if |terminal| > TERMINAL_CACHE_CAPACITY then
      a1.(terminal := terminal[1..], evicted := Some(terminal[0].sequence))
    else a1.(terminal := terminal)
  }

  function ApplyRenew(w: Worker, id: nat, sequence: nat, now: nat): (Worker, Ack) {
    var w := Lapse(w, now);
    if w.active.None? || w.active.value.id != id then
      (w, if w.released.Some? && w.released.value.id == id
          then Replayed(w.released.value, sequence)
          else Failed(sequence))
    else
      var a := w.active.value;
      if !Fresh(a, sequence) then (w, Replayed(a, sequence))
      else
        var a1 := a.(next := a.next + 1, expires := SaturatingAdd(now, LEASE_TTL_MS));
        var ref := LeaseRef(w, a1, now);
        (w.(active := Some(Completing(a1, sequence, Some(ref), now)), expiry := w.expiry[id := a1.expires]),
         Completed(sequence, Some(ref)))
  }

  function ApplyRelease(w: Worker, id: nat, sequence: nat, now: nat): (Worker, Ack) {
    var w := Lapse(w, now);
    if w.active.None? || w.active.value.id != id then
      (w, if w.released.Some? && w.released.value.id == id
          then Replayed(w.released.value, sequence)
          else Failed(sequence))
    else
      var a := w.active.value;
      if !Fresh(a, sequence) then (w, Replayed(a, sequence))
      else
        (w.(active := None, released := Some(Completing(a.(next := a.next + 1), sequence, None, now))),
         Completed(sequence, None))
  }

  function Apply(w: Worker, c: Command, now: nat): (Worker, Ack) {
    match c
    case Acquire => ApplyAcquire(w, now)
    case Renew(id, sequence) => ApplyRenew(w, id, sequence, now)
    case Release(id, sequence) => ApplyRelease(w, id, sequence, now)
  }

  // ----- The host ------------------------------------------------------------------------------

  /** The host's view. `first` and `renewals` record how it came about. */
  datatype View = View(id: nat, incarnation: nat, next: nat, notAfter: nat, first: nat, renewals: nat)

  /** Whether an acknowledgement is accepted, and as what. Ids and incarnations are never 0. */
  function LeaseFromAck(ack: Ack, previous: Option<View>, sentAt: nat): Option<View> {
    var expected := if previous.Some? then previous.value.next else 0;
    if ack.Failed? || ack.sequence != expected || ack.ref.None? then None
    else
      var ref := ack.ref.value;
      if ref.id == 0 || ref.incarnation == 0 || ref.ttl == 0 then None
      else if previous.Some? && (previous.value.id != ref.id || previous.value.incarnation != ref.incarnation) then None
      else if previous.Some? && ref.next != SaturatingAdd(expected, 1) then None
      else
        Some(View(ref.id, ref.incarnation, ref.next, sentAt + ref.ttl,
                  if previous.Some? then previous.value.first else ref.next,
                  if previous.Some? then previous.value.renewals + 1 else 0))
  }

  // ----- Invariant of the worker -------------------------------------------------------------------

  /** A remembered renewal: its deadline was its own time plus what it was told. */
  ghost predicate EntryOk(w: Worker, a: ActiveLease, e: Terminal) {
    && e.sequence < a.next
    && (e.ref.Some? ==>
          && e.sequence in a.executed
          && e.ref.value.id == a.id && e.ref.value.incarnation == w.incarnation
          && e.ref.value.next == e.sequence + 1
          && a.executed[e.sequence] + e.ref.value.ttl <= a.expires
          && (e.sequence + 1 == a.next ==> a.executed[e.sequence] + e.ref.value.ttl == a.expires))
  }

  ghost predicate WorkerOk(w: Worker, now: nat) {
    && now < U64_MAX
    && w.nextId > 0 && w.incarnation > 0
    && (forall id | id in w.expiry :: id < w.nextId)
    && (w.active.Some? ==>
          var a := w.active.value;
          && 0 < a.id < w.nextId && a.id in w.expiry && w.expiry[a.id] == a.expires
          && a.expires <= SaturatingAdd(now, LEASE_TTL_MS) && a.next <= U64_MAX
          && |a.terminal| <= TERMINAL_CACHE_CAPACITY
          && (forall e | e in a.terminal :: EntryOk(w, a, e))
          && (a.evicted.Some? ==> a.evicted.value < a.next))
    && (w.active.Some? ==> w.released.None?)
    && (w.released.Some? ==> w.released.value.id < w.nextId)
  }

  lemma AcquireKeeps(w: Worker, now: nat)
    requires WorkerOk(w, now)
    ensures WorkerOk(ApplyAcquire(w, now).0, now)
  {
  }

  lemma RenewKeeps(w: Worker, id: nat, sequence: nat, now: nat)
    requires WorkerOk(w, now)
    ensures WorkerOk(ApplyRenew(w, id, sequence, now).0, now)
  {
    var w0 := Lapse(w, now);
    if w0.active.Some? && w0.active.value.id == id && Fresh(w0.active.value, sequence) {
      var a := w0.active.value;
      var w1 := ApplyRenew(w, id, sequence, now).0;
      var last :=
        Terminal(sequence, Some(LeaseRef(w, a.(next := a.next + 1, expires := SaturatingAdd(now, LEASE_TTL_MS)), now)));
      forall e | e in w1.active.value.terminal ensures EntryOk(w1, w1.active.value, e) {
        assert e in a.terminal || e == last;
      }
      if |a.terminal| == TERMINAL_CACHE_CAPACITY { assert (a.terminal + [last])[0] in a.terminal; }
    }
  }

  lemma ReleaseKeeps(w: Worker, id: nat, sequence: nat, now: nat)
    requires WorkerOk(w, now)
    ensures WorkerOk(ApplyRelease(w, id, sequence, now).0, now)
  {
  }

  lemma ApplyKeeps(w: Worker, c: Command, now: nat)
    requires WorkerOk(w, now)
    ensures WorkerOk(Apply(w, c, now).0, now)
  {
    match c {
      case Acquire => AcquireKeeps(w, now);
      case Renew(id, sequence) => RenewKeeps(w, id, sequence, now);
      case Release(id, sequence) => ReleaseKeeps(w, id, sequence, now);
    }
  }

  // ----- What commands achieve ------------------------------------------------------------------------

  /** A lease in force is given again with what is left of it; once its deadline is reached, or
      with none in force, a new one is given for sixty seconds. */
  lemma AcquireTells(w: Worker, now: nat)
    requires now + 60_000 <= U64_MAX
    ensures var (w', ack) := ApplyAcquire(w, now);
            && w'.active.Some?
            && (if w.active.Some? && now < w.active.value.expires
                then && w' == w
                     && ack == Completed(0, Some(Ref(w.active.value.id, w.incarnation,
                                                     w.active.value.expires - now, w.active.value.next)))
                else && w'.active.value.id == w.nextId && w'.nextId == w.nextId + 1
                     && w'.active.value.expires == now + 60_000
                     && ack == Completed(0, Some(Ref(w.nextId, w.incarnation, 60_000, 0))))
  {
  }

  /** The lease is in force and the sequence number is its next. */
  predicate Renewable(w: Worker, id: nat, sequence: nat, now: nat) {
    && w.active.Some? && w.active.value.id == id && now < w.active.value.expires
    && sequence == w.active.value.next && sequence < U64_MAX
  }

  lemma NextIsFresh(w: Worker, now: nat)
    requires WorkerOk(w, now) && w.active.Some? && w.active.value.next < U64_MAX
    ensures Fresh(w.active.value, w.active.value.next)
  {
    var a := w.active.value;
    var t := FindTerminal(a.terminal, a.next);
    assert t.Some? ==> EntryOk(w, a, t.value);
  }

  /** A renewal renews: the lease is in force for sixty seconds from now, its next number is one
      higher, and the answer says so. */
  lemma RenewExtends(w: Worker, id: nat, sequence: nat, now: nat)
    requires WorkerOk(w, now) && Renewable(w, id, sequence, now) && now + 60_000 <= U64_MAX
    ensures var (w', ack) := ApplyRenew(w, id, sequence, now);
            && w'.active.Some? && w'.active.value.id == id
            && w'.active.value.expires == now + 60_000 && w'.active.value.next == sequence + 1
            && ack == Completed(sequence, Some(Ref(id, w.incarnation, 60_000, sequence + 1)))
  {
    NextIsFresh(w, now);
  }

  /** The same renewal again is answered from memory and changes nothing. */
  lemma RenewReplays(w: Worker, id: nat, sequence: nat, now: nat, later: nat)
    requires WorkerOk(w, now) && Renewable(w, id, sequence, now) && now + 60_000 <= U64_MAX
    requires now <= later < now + 60_000
    ensures var (w', ack) := ApplyRenew(w, id, sequence, now);
            ApplyRenew(w', id, sequence, later) == (w', ack)
  {
    RenewExtends(w, id, sequence, now);
    NextIsFresh(w, now);
    var (w', ack) := ApplyRenew(w, id, sequence, now);
    var a := w'.active.value;
    var last := Terminal(sequence, ack.ref);
    assert a.terminal[|a.terminal| - 1] == last;
    forall e | e in a.terminal && e != last ensures e.sequence < sequence {
      assert e in w.active.value.terminal && EntryOk(w, w.active.value, e);
    }
    assert FindTerminal(a.terminal, sequence) == Some(last);
  }

  /** A release ends the lease, and the next acquisition gets a new one. */
  lemma ReleaseEnds(w: Worker, id: nat, sequence: nat, now: nat, later: nat)
    requires WorkerOk(w, now) && Renewable(w, id, sequence, now) && later + 60_000 <= U64_MAX
    ensures var (w', ack) := ApplyRelease(w, id, sequence, now);
            && w'.active.None? && ack == Completed(sequence, None)
            && ApplyAcquire(w', later).0.active.Some? && ApplyAcquire(w', later).0.active.value.id == w.nextId
  {
    NextIsFresh(w, now);
    AcquireTells(ApplyRelease(w, id, sequence, now).0, later);
  }

  // ----- When the host's deadline is safe -----------------------------------------------------------

  /** The host does not believe in the lease for longer than the worker does. */
  predicate Conservative(v: View, w: Worker) { v.id in w.expiry && v.notAfter <= w.expiry[v.id] }

  lemma AcquireIsConservative(w: Worker, sentAt: nat, now: nat)
    requires WorkerOk(w, now) && sentAt <= now
    ensures var (w', ack) := ApplyAcquire(w, now);
            var v := LeaseFromAck(ack, None, sentAt);
            v.Some? && Conservative(v.value, w') && v.value.next == w'.active.value.next
  {
  }

  /** A renewal with the newest sequence number gives a safe deadline exactly if it is new to
      the worker or ran after it was sent. One session at a time means that it always is: no
      earlier copy of it can have run. */
  lemma RenewIsConservativeExactly(w: Worker, v: View, sentAt: nat, now: nat)
    requires WorkerOk(w, now) && sentAt <= now
    requires w.active.Some? && w.active.value.id == v.id && now < w.active.value.expires
    requires w.active.value.next == v.next || w.active.value.next == v.next + 1
    requires LeaseFromAck(ApplyRenew(w, v.id, v.next, now).1, Some(v), sentAt).Some?
    ensures var (w', ack) := ApplyRenew(w, v.id, v.next, now);
            var a := w.active.value;
            (Conservative(LeaseFromAck(ack, Some(v), sentAt).value, w') <==>
               a.next == v.next || (v.next in a.executed && sentAt <= a.executed[v.next]))
  {
    var a := w.active.value;
    if a.next == v.next + 1 {
      var t := FindTerminal(a.terminal, v.next);
      assert EntryOk(w, a, t.value);
    }
  }

  // ----- Runs -------------------------------------------------------------------------------------

  datatype Call = Call(command: Command, sentAt: nat)

  /** A session: at most one call at a time, whose request may reach the worker any number of
      times while the session lasts. The worker begins a session only after the last one has
      ended, so hanging up ends every request in flight. */
  datatype Sys = Sys(now: nat, w: Worker, call: Option<Call>, replies: set<Ack>, host: Option<View>)

  datatype Step =
    | Tick(now: nat)
    | SendAcquire
    | SendRenew
    | SendRelease
    | Serve
    | Receive(ack: Ack)
    | HangUp
    | Restart

  predicate Enabled(s: Sys, step: Step) {
    match step
    case Tick(now) => s.now <= now < U64_MAX
    case SendAcquire => s.call.None? && s.host.None?
    case SendRenew => s.call.None? && s.host.Some?
    case SendRelease => s.call.None? && s.host.Some?
    case Serve => s.call.Some?
    case Receive(ack) => s.call.Some? && ack in s.replies
    case HangUp => true
    case Restart => true
  }

  function Received(s: Sys, ack: Ack): Sys
    requires s.call.Some?
  {
    var c := s.call.value;
    s.(call := None, replies := {},
       host := match c.command
               case Acquire => LeaseFromAck(ack, None, c.sentAt)
               case Renew(_, _) => if s.host.Some? then LeaseFromAck(ack, s.host, c.sentAt) else None
               case Release(_, _) => None)
  }

  function Next(s: Sys, step: Step): Sys
    requires Enabled(s, step)
  {
    match step
    case Tick(now) => s.(now := now)
    case SendAcquire => s.(call := Some(Call(Acquire, s.now)))
    case SendRenew => s.(call := Some(Call(Renew(s.host.value.id, s.host.value.next), s.now)))
    case SendRelease => s.(call := Some(Call(Release(s.host.value.id, s.host.value.next), s.now)), host := None)
    case Serve =>
      var (w, ack) := Apply(s.w, s.call.value.command, s.now);
      s.(w := w, replies := s.replies + {ack})
    case Receive(ack) => Received(s, ack)
    case HangUp => s.(call := None, replies := {}, host := None)
    case Restart => s.(w := s.w.(incarnation := s.w.incarnation + 1, active := None, released := None))
  }

  /** The worker still holds the lease for its incarnation, or its deadline has passed. */
  ghost predicate Held(w: Worker, id: nat, incarnation: nat, now: nat) {
    incarnation == w.incarnation ==>
      || (w.active.Some? && w.active.value.id == id)
      || (id in w.expiry && now >= w.expiry[id])
  }

  ghost predicate HostOk(s: Sys, v: View) {
    && Conservative(v, s.w) && Held(s.w, v.id, v.incarnation, s.now)
    && NotReleased(s.w, v.id)
    && v.next == v.first + v.renewals && v.incarnation <= s.w.incarnation
  }

  /** The worker's next sequence number is the one the host will use. */
  ghost predicate InStep(w: Worker, id: nat, next: nat) {
    w.active.Some? && w.active.value.id == id ==> w.active.value.next == next
  }

  /** An acknowledgement a host may yet accept promises no more than the worker does. */
  ghost predicate PromiseOk(s: Sys, ref: Ref, sentAt: nat) {
    && ref.id in s.w.expiry && sentAt + ref.ttl <= s.w.expiry[ref.id]
    && Held(s.w, ref.id, ref.incarnation, s.now) && ref.incarnation <= s.w.incarnation
    && InStep(s.w, ref.id, ref.next) && NotReleased(s.w, ref.id)
  }

  ghost predicate NotReleased(w: Worker, id: nat) { w.released.Some? ==> w.released.value.id != id }

  ghost predicate CallOk(s: Sys, c: Call) {
    && c.sentAt <= s.now
    && (forall ack | ack in s.replies && ack.Completed? && ack.ref.Some? && !c.command.Release? ::
          && PromiseOk(s, ack.ref.value, c.sentAt)
          && (c.command.Renew? ==> ack.ref.value.id == c.command.id && ack.ref.value.next == c.command.sequence + 1))
    && (c.command.Acquire? ==> s.host.None?)
    && (c.command.Release? ==> s.host.None?)
    && (c.command.Renew? ==>
          && s.host.Some? && c.command.id == s.host.value.id && c.command.sequence == s.host.value.next
          && (s.w.active.Some? && s.w.active.value.id == c.command.id ==>
                || s.w.active.value.next == c.command.sequence
                || (&& s.w.active.value.next == c.command.sequence + 1
                    && c.command.sequence in s.w.active.value.executed
                    && c.sentAt <= s.w.active.value.executed[c.command.sequence])))
  }

  ghost predicate Inv(s: Sys) {
    && WorkerOk(s.w, s.now)
    && (s.host.Some? ==> HostOk(s, s.host.value))
    && (s.host.Some? && s.call.None? ==> InStep(s.w, s.host.value.id, s.host.value.next))
    && (s.call.Some? ==> CallOk(s, s.call.value))
    && (s.call.None? ==> s.replies == {})
  }

  lemma ServeAcquireKeeps(s: Sys)
    requires Inv(s) && s.call.Some? && s.call.value.command.Acquire?
    ensures Inv(Next(s, Serve))
  {
    AcquireKeeps(s.w, s.now);
  }

  lemma ServeRenewKeeps(s: Sys)
    requires Inv(s) && s.call.Some? && s.call.value.command.Renew?
    ensures Inv(Next(s, Serve))
  {
    RenewKeeps(s.w, s.call.value.command.id, s.call.value.command.sequence, s.now);
  }

  lemma ServeReleaseKeeps(s: Sys)
    requires Inv(s) && s.call.Some? && s.call.value.command.Release?
    ensures Inv(Next(s, Serve))
  {
    ReleaseKeeps(s.w, s.call.value.command.id, s.call.value.command.sequence, s.now);
  }

  lemma ReceiveKeeps(s: Sys, ack: Ack)
    requires Inv(s) && Enabled(s, Receive(ack))
    ensures Inv(Next(s, Receive(ack)))
  {
  }

  lemma StepKeeps(s: Sys, step: Step)
    requires Inv(s) && Enabled(s, step)
    ensures Inv(Next(s, step))
  {
    match step {
      case Serve =>
        match s.call.value.command {
          case Acquire => ServeAcquireKeeps(s);
          case Renew(_, _) => ServeRenewKeeps(s);
          case Release(_, _) => ServeReleaseKeeps(s);
        }
      case Receive(ack) => ReceiveKeeps(s, ack);
      case _ =>
    }
  }

  predicate Run(s: Sys, steps: seq<Step>)
    decreases |steps|
  {
    steps == [] || (Enabled(s, steps[0]) && Run(Next(s, steps[0]), steps[1..]))
  }

  function After(s: Sys, steps: seq<Step>): Sys
    requires Run(s, steps)
    decreases |steps|
  {
    if steps == [] then s else After(Next(s, steps[0]), steps[1..])
  }

  lemma {:induction false} RunKeeps(s: Sys, steps: seq<Step>)
    requires Inv(s) && Run(s, steps)
    ensures Inv(After(s, steps))
    decreases |steps|
  {
    if steps != [] {
      StepKeeps(s, steps[0]);
      RunKeeps(Next(s, steps[0]), steps[1..]);
    }
  }

  function Initial(): Sys { Sys(0, Worker(1, None, None, 1, map[]), None, {}, None) }

  /** In every run, while the host believes in its lease and the worker has not restarted, the
      worker holds it, for at least as long; and the next sequence number counts the renewals. */
  lemma HostViewIsConservative(steps: seq<Step>)
    requires Run(Initial(), steps)
    ensures var s := After(Initial(), steps);
            s.host.Some? ==>
              && Conservative(s.host.value, s.w)
              && s.host.value.next == s.host.value.first + s.host.value.renewals
              && (s.now < s.host.value.notAfter && s.host.value.incarnation == s.w.incarnation ==>
                    && s.w.active.Some? && s.w.active.value.id == s.host.value.id
                    && s.host.value.notAfter <= s.w.active.value.expires)
  {
    RunKeeps(Initial(), steps);
  }

  /** Without a new acquisition the host's lease keeps its id, incarnation and first number. */
  lemma {:induction false} RenewalsKeepIdentity(s: Sys, steps: seq<Step>)
    requires Inv(s) && Run(s, steps) && SendAcquire !in steps && s.host.Some?
    requires After(s, steps).host.Some?
    ensures var v, v' := s.host.value, After(s, steps).host.value;
            v'.id == v.id && v'.incarnation == v.incarnation && v'.first == v.first && v'.renewals >= v.renewals
    decreases |steps|
  {
    if steps != [] {
      var s1 := Next(s, steps[0]);
      assert steps[0] != SendAcquire;
      StepKeeps(s, steps[0]);
      if s1.host.None? {
        NoHostWithoutAcquire(s1, steps[1..]);
      } else {
        RenewalsKeepIdentity(s1, steps[1..]);
      }
    }
  }

  lemma {:induction false} NoHostWithoutAcquire(s: Sys, steps: seq<Step>)
    requires Run(s, steps) && SendAcquire !in steps && s.host.None?
    requires s.call.Some? ==> !s.call.value.command.Acquire?
    ensures After(s, steps).host.None?
    decreases |steps|
  {
    if steps != [] {
      assert steps[0] != SendAcquire;
      NoHostWithoutAcquire(Next(s, steps[0]), steps[1..]);
    }
  }

  // ----- How long the host may believe ---------------------------------------------------------------

  /** While the clock is not about to end, every renewal answered or remembered gave sixty seconds. */
  ghost predicate FullTtl(s: Sys) {
    s.now + 60_000 <= U64_MAX ==>
      && (s.call.Some? && s.call.value.command.Renew? ==>
            forall ack | ack in s.replies && ack.Completed? && ack.ref.Some? :: ack.ref.value.ttl == 60_000)
      && (s.w.active.Some? ==> forall e | e in s.w.active.value.terminal && e.ref.Some? :: e.ref.value.ttl == 60_000)
  }

  lemma RenewTtl(w: Worker, id: nat, sequence: nat, now: nat)
    requires WorkerOk(w, now) && now + 60_000 <= U64_MAX && NotReleased(w, id)
    requires w.active.Some? ==> forall e | e in w.active.value.terminal && e.ref.Some? :: e.ref.value.ttl == 60_000
    ensures var (w', ack) := ApplyRenew(w, id, sequence, now);
            && (ack.Completed? && ack.ref.Some? ==> ack.ref.value.ttl == 60_000)
            && (w'.active.Some? ==>
                  forall e | e in w'.active.value.terminal && e.ref.Some? :: e.ref.value.ttl == 60_000)
  {
  }

  lemma FullTtlStep(s: Sys, step: Step)
    requires Inv(s) && FullTtl(s) && Enabled(s, step)
    ensures FullTtl(Next(s, step))
  {
    if step.Serve? && s.call.value.command.Renew? && s.now + 60_000 <= U64_MAX {
      RenewTtl(s.w, s.call.value.command.id, s.call.value.command.sequence, s.now);
    }
  }

  lemma {:induction false} FullTtlRun(s: Sys, steps: seq<Step>)
    requires Inv(s) && FullTtl(s) && Run(s, steps)
    ensures FullTtl(After(s, steps))
    decreases |steps|
  {
    if steps != [] {
      FullTtlStep(s, steps[0]);
      StepKeeps(s, steps[0]);
      FullTtlRun(Next(s, steps[0]), steps[1..]);
    }
  }

  /** In every run a host that takes the answer to a renewal believes in its lease until exactly
      sixty seconds after it asked. */
  lemma RenewalIsBelieved(steps: seq<Step>, ack: Ack)
    requires Run(Initial(), steps) && Enabled(After(Initial(), steps), Receive(ack))
    requires var s := After(Initial(), steps); s.call.value.command.Renew? && s.now + 60_000 <= U64_MAX
    ensures var s := After(Initial(), steps);
            var v := Next(s, Receive(ack)).host;
            v.Some? ==> v.value.notAfter == s.call.value.sentAt + 60_000
  {
    FullTtlRun(Initial(), steps);
  }

  /** And a renewal that reaches the worker while the lease is in force is taken: the host then
      has the same lease, one number and one renewal further. */
  lemma RenewalIsTaken(s: Sys)
    requires Inv(s) && s.call.Some? && s.call.value.command.Renew? && s.now + 60_000 <= U64_MAX
    requires Renewable(s.w, s.host.value.id, s.host.value.next, s.now) && s.host.value.incarnation == s.w.incarnation
    ensures var ack := ApplyRenew(s.w, s.host.value.id, s.host.value.next, s.now).1;
            && Enabled(s, Serve) && Enabled(Next(s, Serve), Receive(ack))
            && (var v := s.host.value;
                Next(Next(s, Serve), Receive(ack)).host
                == Some(View(v.id, v.incarnation, v.next + 1, s.call.value.sentAt + 60_000, v.first, v.renewals + 1)))
  {
    RenewExtends(s.w, s.host.value.id, s.host.value.next, s.now);
  }
}
