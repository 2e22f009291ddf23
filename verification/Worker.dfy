/** The worker's C08 authority: controller lease, reservations, held bytes and the two
    layers of request-id memory (the response cache of the worker core and the decision
    table of the resource guard).

    Clocks are abstracted to any timing: expiry and the end of the retention time are
    transitions of their own (`Expire`, `Forget...`). Health samples are parameters. */
module Worker {
  import opened Basics
  import opened Wire

  const POC_CAP_BYTES: nat := 128 * 1024 * 1024
  const MEMORY_MARGIN_BYTES: nat := 512 * 1024 * 1024
  const NATIVE_OP_SCRATCH_MAX_BYTES: nat := 8 * 1024 * 1024
  const IDEMPOTENCE_CAPACITY: nat := 1024

  type Key = (LeaseId, RequestId)

  datatype Reservation =
    Reservation(lease: LeaseId, request: RequestId, class_: ResourceClass, bytes: nat,
                state: ReservationState)
  {
    /** Held for the host and not yet owned by a buffer or job. */
    predicate Live() { state == Reserved || state == Committed }

    /** Counted in the held bytes. */
    predicate Holding() { Live() || state == Consumed }
  }

  datatype Decision =
    | Granted(id: ReservationId)
    | DeniedSafety
    | DeniedBudget
    | NoEntropy

  datatype Remembered =
    Remembered(class_: ResourceClass, bytes: nat, decision: Decision, terminal: bool)

  datatype Cached = Cached(request: ResourceRequest, result: ResourceResult)

  datatype Worker =
    Worker(incarnation: Incarnation,
           active: Option<LeaseId>,
           lastLease: LeaseId,
           reservations: map<ReservationId, Reservation>,
           nextReservation: ReservationId,
           decisions: map<Key, Remembered>,
           responses: map<Key, Cached>,
           held: nat)
  {
    predicate Knows(k: Key) { k in decisions || k in responses }
  }

  /** What a health sample and the entropy source say at the moment of a request. */
  datatype Health = Health(refused: bool, stale: bool, available: nat, entropy: bool)

  const COLD_START: Worker := Worker(1, None, 0, map[], 1, map[], map[], 0)

  function SatSub(a: nat, b: nat): nat { if b <= a then a - b else 0 }

  function PocBudget(available: nat): nat {
    var quarter := SatSub(available, MEMORY_MARGIN_BYTES) / 4;
    if quarter < POC_CAP_BYTES then quarter else POC_CAP_BYTES
  }

  function MaxRequestBytes(c: ResourceClass): nat {
    if c == RemoteBufferBytes then POC_CAP_BYTES else NATIVE_OP_SCRATCH_MAX_BYTES
  }

  // ----- Held bytes --------------------------------------------------------------

  function Weight(v: Reservation): nat { if v.Holding() then v.bytes else 0 }

  /** The bytes held by the reservations with ids below `n`. */
  function HeldBelow(m: map<ReservationId, Reservation>, n: ReservationId): nat {
    if n == 0 then 0
    else HeldBelow(m, n - 1) + (if n - 1 in m then Weight(m[n - 1]) else 0)
  }

  // ----- Guard operations, as state transformers ----------------------------------

  /** Replaces the state of one reservation; `terminal` also closes its decision. */
  function WithState(w: Worker, id: ReservationId, st: ReservationState, terminal: bool): Worker
    requires id in w.reservations
  {
    var v := w.reservations[id];
    var k := (v.lease, v.request);
    w.(reservations := w.reservations[id := v.(state := st)],
       decisions := if terminal && k in w.decisions
                    then w.decisions[k := w.decisions[k].(terminal := true)]
                    else w.decisions)
  }

  function FreeBytes(w: Worker, bytes: nat): Worker { w.(held := SatSub(w.held, bytes)) }

  /** Reservations of another lease, unless a buffer or job already owns them. */
  function Superseded(w: Worker, lease: LeaseId): set<ReservationId> {
    set id | id in w.reservations
          && w.reservations[id].state != Consumed
          && w.reservations[id].state != ConsumedReleased
          && w.reservations[id].lease != lease
  }

  /** Every valid C08 operation first drops what belongs to another lease. */
  function Purge(w: Worker, lease: LeaseId): Worker {
    var gone := Superseded(w, lease);
    w.(held := SatSub(w.held, HeldBelow(map id | id in gone :: w.reservations[id], w.nextReservation)),
       reservations := w.reservations - gone,
       decisions := map k | k in w.decisions && k.0 == lease :: w.decisions[k])
  }

  function Decide(w: Worker, class_: ResourceClass, bytes: nat, health: Health): Decision {
    if bytes == 0 || bytes > MaxRequestBytes(class_) then DeniedBudget
    else if health.refused then DeniedSafety
    else if bytes > SatSub(PocBudget(health.available), w.held) then DeniedBudget
    else if !health.entropy then NoEntropy
    else Granted(w.nextReservation)
  }

  /** A fresh decision: recorded, and with a new reservation when granted. */
  function Admit(w: Worker, lease: LeaseId, id: RequestId, class_: ResourceClass, bytes: nat,
                 d: Decision): Worker
  {
    var w1 := w.(decisions := w.decisions[(lease, id) := Remembered(class_, bytes, d, !d.Granted?)]);
    if d.Granted? then
      w1.(reservations := w.reservations[d.id := Reservation(lease, id, class_, bytes, Reserved)],
          nextReservation := d.id + 1,
          held := w.held + bytes)
    else w1
  }

  function Snapshot(w: Worker, lease: LeaseId, id: ReservationId): Option<ReservationRef> {
    if id in w.reservations && w.reservations[id].lease == lease then
      var v := w.reservations[id];
      Some(ReservationRef(id, v.class_, v.bytes, v.state))
    else None
  }

  function Success(w: Worker, lease: LeaseId, ref: ReservationRef): ResourceResult {
    ResourceResult(true, NoReason, lease, w.incarnation, Some(ref))
  }

  function Failure(w: Worker, lease: LeaseId, reason: ResourceReason): ResourceResult {
    ResourceResult(false, reason, lease, w.incarnation, None)
  }

  function FailureWith(w: Worker, lease: LeaseId, reason: ResourceReason,
                       ref: Option<ReservationRef>): ResourceResult
  {
    ResourceResult(false, reason, lease, w.incarnation, ref)
  }

  /** Outcome of one request: the new state, the answer, and whether it is cached. */
  datatype Outcome = Outcome(worker: Worker, result: ResourceResult, cached: bool)

  function Answered(w: Worker, result: ResourceResult): Outcome { Outcome(w, result, true) }

  /** The remembered decision for the request, or a fresh one. */
  function Decided(w: Worker, q: ResourceRequest, health: Health): (Worker, Decision)
    requires q.Reserve?
  {
    var k := (q.lease.id, q.id);
    if k in w.decisions then (w, w.decisions[k].decision)
    else
      var d := Decide(w, q.class_, q.bytes, health);
      (Admit(w, q.lease.id, q.id, q.class_, q.bytes, d), d)
  }

  function ReserveAnswer(w: Worker, lease: LeaseId, d: Decision, health: Health): Outcome {
    match d
    case Granted(id) =>
      (match Snapshot(w, lease, id)
       case Some(ref) => Answered(w, Success(w, lease, ref))
       case None => Outcome(w, Failure(w, lease, InternalError), false))
    case DeniedSafety =>
      Answered(w, Failure(w, lease, if health.stale then RefusedStaleState else ResourceExhausted))
    case DeniedBudget => Answered(w, Failure(w, lease, ResourceExhausted))
    case NoEntropy => Answered(w, Failure(w, lease, InternalError))
  }

  function DoReserve(w: Worker, q: ResourceRequest, health: Health): Outcome
    requires q.Reserve?
  {
    var k := (q.lease.id, q.id);
    if k in w.decisions && (w.decisions[k].class_ != q.class_ || w.decisions[k].bytes != q.bytes) then
      Answered(w, Failure(w, q.lease.id, RequestIdConflict))
    else if k !in w.decisions && |w.decisions| >= IDEMPOTENCE_CAPACITY then
      Answered(w, Failure(w, q.lease.id, IdempotenceTableFull))
    else
      var (w1, d) := Decided(w, q, health);
      ReserveAnswer(w1, q.lease.id, d, health)
  }

  function EndedReason(st: ReservationState): ResourceReason {
    match st
    case Expired => ReservationExpired
    case Consumed => ReservationAlreadyConsumed
    case ConsumedReleased => ReservationAlreadyConsumed
    case _ => ReservationNotCommitted
  }

  function DoCommit(w: Worker, q: ResourceRequest, health: Health): Outcome
    requires q.Commit?
  {
    if q.reservation !in w.reservations then
      Answered(w, Failure(w, q.lease.id, ReservationNotFound))
    else
      var v := w.reservations[q.reservation];
      if v.lease != q.lease.id then Answered(w, Failure(w, q.lease.id, StaleControllerLease))
      else if v.state == Committed then
        Answered(w, Success(w, q.lease.id, Snapshot(w, q.lease.id, q.reservation).value))
      else if v.state != Reserved then
        Answered(w, FailureWith(w, q.lease.id, EndedReason(v.state), Snapshot(w, q.lease.id, q.reservation)))
      else if health.refused then
        var w1 := FreeBytes(WithState(w, q.reservation, RefusedSafety, true), v.bytes);
        Answered(w1, FailureWith(w1, q.lease.id, CommitRefusedSafety, Snapshot(w1, q.lease.id, q.reservation)))
      else
        var w1 := WithState(w, q.reservation, Committed, false);
        Answered(w1, Success(w1, q.lease.id, Snapshot(w1, q.lease.id, q.reservation).value))
  }

  function DoRelease(w: Worker, q: ResourceRequest): Outcome
    requires q.Release?
  {
    if q.reservation !in w.reservations then
      Answered(w, Failure(w, q.lease.id, ReservationNotFound))
    else
      var v := w.reservations[q.reservation];
      if v.lease != q.lease.id then Answered(w, Failure(w, q.lease.id, StaleControllerLease))
      else if v.Live() then
        var w1 := FreeBytes(WithState(w, q.reservation, Released, true), v.bytes);
        Answered(w1, Success(w1, q.lease.id, Snapshot(w1, q.lease.id, q.reservation).value))
      else if v.state == Released then
        Answered(w, Success(w, q.lease.id, Snapshot(w, q.lease.id, q.reservation).value))
      else
        Answered(w, FailureWith(w, q.lease.id, EndedReason(v.state), Snapshot(w, q.lease.id, q.reservation)))
  }

  /** The active lease authorizes the request. */
  predicate Valid(w: Worker, lease: Lease) {
    lease.incarnation == w.incarnation && w.active == Some(lease.id)
  }

  /** The guard operation, on a state already purged for the lease of the request. */
  function Dispatch(w: Worker, q: ResourceRequest, health: Health): Outcome {
    match q
    case Reserve(_, _, _, _) => DoReserve(w, q, health)
    case Commit(_, _, _) => DoCommit(w, q, health)
    case Release(_, _, _) => DoRelease(w, q)
  }

  /** Entries of the response cache that belong to `lease`. */
  function OwnResponses(w: Worker, lease: LeaseId): Worker {
    w.(responses := map k | k in w.responses && k.0 == lease :: w.responses[k])
  }

  function Record(out: Outcome, q: ResourceRequest): Worker {
    if out.cached
    then out.worker.(responses := out.worker.responses[(q.lease.id, q.id) := Cached(q, out.result)])
    else out.worker
  }

  /** One C08 request, with the response cache around the guard. */
  function ApplyResource(w0: Worker, q: ResourceRequest, health: Health): (Worker, ResourceResult) {
    if q.id == 0 || !Valid(w0, q.lease) then
      (w0, Failure(w0, q.lease.id, StaleControllerLease))
    else
      var w := OwnResponses(w0, q.lease.id);
      var k := (q.lease.id, q.id);
      if k in w.responses then
        (w, if w.responses[k].request == q then w.responses[k].result
            else Failure(w, q.lease.id, RequestIdConflict))
      else if |w.responses| >= IDEMPOTENCE_CAPACITY then
        (w, Failure(w, q.lease.id, IdempotenceTableFull))
      else
        var out := Dispatch(Purge(w, q.lease.id), q, health);
        (Record(out, q), out.result)
  }

  /** A buffer allocation or a job admission takes over a committed reservation. */
  function Consume(w0: Worker, lease: Lease, id: ReservationId, class_: ResourceClass,
                         exact: Option<nat>): (Worker, bool)
  {
    if !Valid(w0, lease) then (w0, false) else
    var w := Purge(w0, lease.id);
    if id in w.reservations && w.reservations[id].lease == lease.id
       && w.reservations[id].class_ == class_
       && (exact.Some? ==> w.reservations[id].bytes == exact.value)
       && w.reservations[id].state == Committed
    then (WithState(w, id, Consumed, false), true)
    else (w, false)
  }

  /** The end of a buffer, job, lease or session gives the bytes back, once. */
  function ReleaseConsumed(w: Worker, id: ReservationId): Worker {
    if id in w.reservations && w.reservations[id].state == Consumed then
      FreeBytes(WithState(w, id, ConsumedReleased, false), w.reservations[id].bytes)
    else w
  }

  /** The 30 s reservation time ran out. */
  function Expire(w: Worker, id: ReservationId): Worker {
    if id in w.reservations && w.reservations[id].state == Reserved then
      FreeBytes(WithState(w, id, Expired, true), w.reservations[id].bytes)
    else w
  }

  /** Retention of an ended reservation ran out. */
  function ForgetReservation(w: Worker, id: ReservationId): Worker {
    if id in w.reservations && !w.reservations[id].Holding()
    then w.(reservations := w.reservations - {id}) else w
  }

  /** Retention of a cached response, and of a closed decision, ran out. */
  function ForgetResponse(w: Worker, k: Key): Worker { w.(responses := w.responses - {k}) }

  function ForgetDecision(w: Worker, k: Key): Worker {
    if k in w.decisions && w.decisions[k].terminal
    then w.(decisions := w.decisions - {k}) else w
  }

  function GrantLease(w: Worker): Worker {
    if w.active.None? then w.(active := Some(w.lastLease + 1), lastLease := w.lastLease + 1) else w
  }

  function EndLease(w: Worker): Worker { w.(active := None) }

  /** A new process: everything but the never-repeating numbers starts over. */
  function Restart(w: Worker): Worker {
    Worker(w.incarnation + 1, None, w.lastLease, map[], w.nextReservation, map[], map[], 0)
  }
}
