/** Host, network and worker as one transition system.

    Any number of host threads act; the only things they share are the ledger and what
    crossed the wire. The network is the set of requests that may still reach the worker
    and of replies a thread may still act on: either may be delayed over a reconnect,
    delivered twice or lost. So one `Step` is one locked section of the host, one request
    served by the worker, or one event of the environment, and a run is any sequence of
    enabled steps. */
module Protocol {
  import opened Basics
  import opened Wire
  import opened Worker
  import opened HostView
  import opened WorkerFacts
  import opened WorkerBudget
  import opened Ledger

  datatype Reply =
    | Answer(q: ResourceRequest, result: ResourceResult)
    | Taken(lease: Lease, reservation: ReservationId, buffer: Option<BufferId>)

  datatype World =
    World(worker: Worker,
          issued: map<LeaseId, Incarnation>,
          requests: set<ResourceRequest>,
          replies: set<Reply>,
          manager: Option<Lease>,
          proofs: set<LeaseId>,
          drawn: set<RequestId>)

  datatype System = System(ledger: Entries, world: World)

  datatype Step =
    // host: the manager's lease, and calls
    | Adopt(lease: Lease)
    | StartReserve(lease: Lease, id: RequestId, class_: ResourceClass, bytes: nat, origin: nat)
    | StartCall(call: ResourceRequest)
    | RecordUnsent(lease: Lease, id: RequestId, class_: ResourceClass, bytes: nat, origin: nat)
    // host: ledger edits
    | BeginReconcile
    | HandleReserve(rq: ResourceRequest, rres: ResourceResult, origin: nat)
    | HandleRelease(lq: ResourceRequest, lres: ResourceResult)
    | HandleTaken(taken: Reply, origin: nat)
    | DropBuffer(lease: Lease, freed: BufferId)
    | NoteAmbiguous(target: Target, lease: Lease)
    | ResolvePurged
    // network
    | LoseRequest(lost: ResourceRequest)
    | LoseReply(reply: Reply)
    // worker
    | Serve(request: ResourceRequest, health: Health)
    | ServeTake(lease: Lease, reservation: ReservationId, class_: ResourceClass,
                exact: Option<nat>, buffer: Option<BufferId>)
    | EndOwned(owned: ReservationId)
    | ExpireOne(expired: ReservationId)
    | DropEnded(ended: ReservationId)
    | ForgetAnswer(key: Key)
    | ForgetDecided(key: Key)
    | Grant
    | End
    | Reboot

  const INIT: System :=
    System([], World(COLD_START, map[], {}, {}, None, {}, {}))

  predicate Genuine(world: World, lease: Lease) {
    lease.id in world.issued && world.issued[lease.id] == lease.incarnation
  }

  predicate KnownToHost(world: World, lease: Lease) {
    Genuine(world, lease) && world.manager.Some? && lease.id <= world.manager.value.id
  }

  /** A message about the reserve `k` may still have an effect. */
  predicate InFlight(world: World, k: Key) {
    || (exists q :: q in world.requests && q.Reserve? && (q.lease.id, q.id) == k)
    || (exists r :: r in world.replies && r.Answer? && r.q.Reserve? && (r.q.lease.id, r.q.id) == k)
  }

  /** Requests a reconciliation sends: replays of the unresolved reserves that are due. */
  function Replays(l: Entries, lease: Lease): set<ResourceRequest> {
    set e | e in l && Due(e, lease) && e.target.UnresolvedReserve?
      :: Reserve(lease, e.target.request, e.target.class_, e.target.bytes)
  }

  predicate Enabled(s: System, step: Step) {
    var world := s.world;
    match step
    case Adopt(lease) =>
      Genuine(world, lease) && (world.manager.Some? ==> world.manager.value.id <= lease.id)
    case StartReserve(lease, id, _, _, _) => KnownToHost(world, lease) && id !in world.drawn
    case RecordUnsent(lease, id, _, _, _) => KnownToHost(world, lease) && id !in world.drawn
    case StartCall(q) => !q.Reserve? && Aimed(world.worker, q)
    case BeginReconcile => world.manager.Some?
    case HandleReserve(q, res, _) => q.Reserve? && Answer(q, res) in world.replies
    case HandleRelease(q, res) => q.Release? && Answer(q, res) in world.replies
    case HandleTaken(reply, _) => reply.Taken? && reply in world.replies
    case ResolvePurged => world.manager.Some? && world.manager.value.id in world.proofs
    case Serve(q, _) => q in world.requests
    // Retention outlives every message about the request.
    case ForgetAnswer(k) => k in world.worker.decisions || !InFlight(world, k)
    case ForgetDecided(k) => k in world.worker.responses || !InFlight(world, k)
    case _ => true
  }

  /** What the host does with the answer to a reserve. */
  function AfterReserve(l: Entries, q: ResourceRequest, res: ResourceResult, origin: nat): Entries
    requires q.Reserve?
  {
    var unresolved := UnresolvedReserve(q.id, q.class_, q.bytes);
    match SuccessfulReservation(res, q.lease, q.class_, q.bytes)
    case Some(id) => Replaced(l, unresolved, ReservationTarget(id), q.lease, origin)
    case None =>
      if RefusalProvesAbsence(res, q.lease) then Removed(l, unresolved, q.lease) else l
  }

  function AfterRelease(l: Entries, q: ResourceRequest, res: ResourceResult): Entries
    requires q.Release?
  {
    var target := ReservationTarget(q.reservation);
    if ReleaseTerminal(res, q.lease, q.reservation) then Removed(l, target, q.lease) else l
  }

  function AfterTaken(l: Entries, reply: Reply, origin: nat): Entries
    requires reply.Taken?
  {
    var target := ReservationTarget(reply.reservation);
    if reply.buffer.Some?
    then Replaced(l, target, BufferTarget(reply.buffer.value), reply.lease, origin)
    else Removed(l, target, reply.lease)
  }

  function NewLedger(s: System, step: Step): Entries
    requires step.HandleReserve? ==> step.rq.Reserve?
    requires step.HandleRelease? ==> step.lq.Release?
    requires step.HandleTaken? ==> step.taken.Taken?
    requires step.BeginReconcile? || step.ResolvePurged? ==> s.world.manager.Some?
  {
    match step
    case StartReserve(lease, id, class_, bytes, origin) =>
      Tracked(s.ledger, Obligation(lease, origin, UnresolvedReserve(id, class_, bytes), Ambiguous))
    // The session ended between the recording and the sending.
    case RecordUnsent(lease, id, class_, bytes, origin) =>
      Tracked(s.ledger, Obligation(lease, origin, UnresolvedReserve(id, class_, bytes), Ambiguous))
    case BeginReconcile => Reconnected(s.ledger, s.world.manager.value)
    case HandleReserve(q, res, origin) => AfterReserve(s.ledger, q, res, origin)
    case HandleRelease(q, res) => AfterRelease(s.ledger, q, res)
    case HandleTaken(reply, origin) => AfterTaken(s.ledger, reply, origin)
    case DropBuffer(lease, buffer) => Removed(s.ledger, BufferTarget(buffer), lease)
    case NoteAmbiguous(target, lease) => MarkedAmbiguous(s.ledger, target, lease)
    case ResolvePurged => Purged(s.ledger, s.world.manager.value)
    case _ => s.ledger
  }

  function NewWorker(w: Worker, step: Step): Worker {
    match step
    case Serve(q, health) => ApplyResource(w, q, health).0
    case ServeTake(lease, id, class_, exact, _) => Consume(w, lease, id, class_, exact).0
    case EndOwned(id) => ReleaseConsumed(w, id)
    case ExpireOne(id) => Expire(w, id)
    case DropEnded(id) => ForgetReservation(w, id)
    case ForgetAnswer(k) => ForgetResponse(w, k)
    case ForgetDecided(k) => ForgetDecision(w, k)
    case Grant => GrantLease(w)
    case End => EndLease(w)
    case Reboot => Restart(w)
    case _ => w
  }

  function NewWorld(s: System, step: Step): World {
    var world := s.world.(worker := NewWorker(s.world.worker, step));
    match step
    case Adopt(lease) => world.(manager := Some(lease))
    case StartReserve(lease, id, class_, bytes, origin) =>
      // Without a slot in the ledger nothing is sent.
      if |s.ledger| < MAX_CLEANUP_OBLIGATIONS
      then world.(requests := world.requests + {Reserve(lease, id, class_, bytes)},
                  drawn := world.drawn + {id})
      else world.(drawn := world.drawn + {id})
    case RecordUnsent(_, id, _, _, _) => world.(drawn := world.drawn + {id})
    case StartCall(q) => world.(requests := world.requests + {q})
    case BeginReconcile =>
      if world.manager.Some?
      then world.(requests := world.requests + Replays(Reconnected(s.ledger, world.manager.value), world.manager.value))
      else world
    case HandleRelease(q, res) =>
      if q.Release? && ProvesPurge(res, q.lease, q.reservation)
      then world.(proofs := world.proofs + {q.lease.id}) else world
    case LoseRequest(q) => world.(requests := world.requests - {q})
    case LoseReply(reply) => world.(replies := world.replies - {reply})
    case Serve(q, health) =>
      world.(replies := world.replies + {Answer(q, ApplyResource(s.world.worker, q, health).1)})
    case ServeTake(lease, id, class_, exact, buffer) =>
      if Consume(s.world.worker, lease, id, class_, exact).1
      then world.(replies := world.replies + {Taken(lease, id, buffer)}) else world
    case Grant =>
      if s.world.worker.active.None?
      then world.(issued := world.issued[s.world.worker.lastLease + 1 := s.world.worker.incarnation])
      else world
    case _ => world
  }

  function Next(s: System, step: Step): System
    requires Enabled(s, step)
  {
    System(NewLedger(s, step), NewWorld(s, step))
  }

  // ----- Coverage ---------------------------------------------------------------------

  predicate Covers(e: Obligation, k: Key, id: ReservationId) {
    && e.lease.id == k.0
    && (|| e.target == ReservationTarget(id)
        || (e.target.UnresolvedReserve? && e.target.request == k.1))
  }

  ghost predicate Owes(l: Entries, k: Key, id: ReservationId) {
    exists e :: e in l && Covers(e, k, id)
  }

  predicate AwaitsOutcome(e: Obligation, k: Key) {
    e.lease.id == k.0 && e.target.UnresolvedReserve? && e.target.request == k.1
  }

  ghost predicate Awaits(l: Entries, k: Key) {
    exists e :: e in l && AwaitsOutcome(e, k)
  }

  /** No orphan: whatever the worker holds unconsumed, the ledger still names. */
  ghost predicate Covered(l: Entries, w: Worker) {
    forall id | IsLive(w, id) :: Owes(l, KeyOf(w.reservations[id]), id)
  }

  // ----- Invariant ---------------------------------------------------------------------

  ghost predicate IssuedOk(w: Worker, issued: map<LeaseId, Incarnation>) {
    && (forall l | l in issued :: l <= w.lastLease && issued[l] <= w.incarnation)
    && (forall l, m | l in issued && m in issued && l <= m :: issued[l] <= issued[m])
    && (w.active.Some? ==> w.active.value in issued && issued[w.active.value] == w.incarnation)
    && (forall id | id in w.reservations ::
          w.reservations[id].lease in issued && issued[w.reservations[id].lease] == w.incarnation)
  }

  ghost predicate EntryOk(e: Obligation, world: World) {
    && KnownToHost(world, e.lease)
    && (e.knowledge == AwaitingPurgeProof ==> e.lease.id < world.manager.value.id)
    && (e.target.ReservationTarget? ==> e.target.reservation < world.worker.nextReservation)
  }

  ghost predicate LedgerOk(l: Entries, world: World) {
    && |l| <= MAX_CLEANUP_OBLIGATIONS
    && (forall e | e in l :: EntryOk(e, world))
  }

  /** Serving a reserve again creates nothing the ledger does not name. */
  ghost predicate Harmless(l: Entries, w: Worker, k: Key) {
    k.0 <= w.lastLease && (Awaits(l, k) || Inert(w, k))
  }

  ghost predicate RequestsOk(l: Entries, world: World) {
    forall q | q in world.requests ::
      && Aimed(world.worker, q)
      && (q.Reserve? ==> Harmless(l, world.worker, (q.lease.id, q.id)))
  }

  ghost predicate ReplyOk(w: Worker, reply: Reply) {
    match reply
    case Answer(q, res) =>
      AnswerSound(w, q, res) && (Decisive(q, res) ==> Inert(w, (q.lease.id, q.id)))
    case Taken(_, id, _) => id < w.nextReservation && !IsLive(w, id)
  }

  ghost predicate RepliesOk(world: World) {
    forall r | r in world.replies :: ReplyOk(world.worker, r)
  }

  ghost predicate ProofsOk(world: World) {
    forall l | l in world.proofs :: l <= world.worker.lastLease && PurgedBefore(world.worker, l)
  }

  ghost predicate ManagerOk(world: World) {
    world.manager.Some? ==> Genuine(world, world.manager.value)
  }

  ghost predicate WorldOk(world: World) {
    && WorkerOk(world.worker) && HeldOk(world.worker)
    && IssuedOk(world.worker, world.issued) && ManagerOk(world)
    && RepliesOk(world) && ProofsOk(world)
  }

  ghost predicate Inv(s: System) {
    WorldOk(s.world) && LedgerOk(s.ledger, s.world) && RequestsOk(s.ledger, s.world)
    && Covered(s.ledger, s.world.worker)
  }
}
