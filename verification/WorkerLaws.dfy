/** What the worker does grant, give back and answer: the laws that standing still would break. */
module WorkerLaws {
  import opened Basics
  import opened Wire
  import opened Worker
  import opened HostView
  import opened WorkerFacts
  import opened WorkerBudget

  // ----- What a reserve is measured against ---------------------------------------------------

  const MIB: nat := 1024 * 1024

  /** A size the class allows: up to 128 MiB for a remote buffer, up to 8 MiB for scratch. */
  predicate Sized(class_: ResourceClass, bytes: nat) {
    0 < bytes && (if class_ == RemoteBufferBytes then bytes <= 128 * MIB else bytes <= 8 * MIB)
  }

  /** With it the worker would hold at most 128 MiB, and at most a quarter of what is available
      beyond 512 MiB. */
  predicate Affordable(held: nat, bytes: nat, available: nat) {
    held + bytes <= 128 * MIB && 4 * (held + bytes) + 512 * MIB <= available
  }

  predicate Fundable(held: nat, class_: ResourceClass, bytes: nat, health: Health) {
    Sized(class_, bytes) && !health.refused && Affordable(held, bytes, health.available) && health.entropy
  }

  lemma DecideExactly(w: Worker, class_: ResourceClass, bytes: nat, health: Health)
    ensures var d := Decide(w, class_, bytes, health);
            && (d == Granted(w.nextReservation) <==> Fundable(w.held, class_, bytes, health))
            && (d.Granted? ==> d == Granted(w.nextReservation))
            && (d == DeniedSafety <==> Sized(class_, bytes) && health.refused)
            && (d == NoEntropy <==> Sized(class_, bytes) && !health.refused
                                    && Affordable(w.held, bytes, health.available) && !health.entropy)
            && (d == DeniedBudget <==>
                  !Sized(class_, bytes) || (!health.refused && !Affordable(w.held, bytes, health.available)))
  {
  }

  /** The reserve is new to the worker, and both its tables have room. */
  predicate NewReserve(w: Worker, q: ResourceRequest) {
    && q.Reserve? && FirstServed(w, q) && (q.lease.id, q.id) !in w.decisions
    && |Purge(w, q.lease.id).decisions| < IDEMPOTENCE_CAPACITY
  }

  /** The reason the worker gives for a new reserve. */
  predicate Explains(reason: ResourceReason, held: nat, q: ResourceRequest, health: Health)
    requires q.Reserve?
  {
    if Fundable(held, q.class_, q.bytes, health) then reason == NoReason
    else if !Sized(q.class_, q.bytes) then reason == ResourceExhausted
    else if health.refused then reason == if health.stale then RefusedStaleState else ResourceExhausted
    else if !Affordable(held, q.bytes, health.available) then reason == ResourceExhausted
    else reason == InternalError
  }

  lemma NewReserveIsDecided(w: Worker, q: ResourceRequest, health: Health)
    requires NewReserve(w, q)
    ensures var w1 := Purge(OwnResponses(w, q.lease.id), q.lease.id);
            var (w2, d) := Decided(w1, q, health);
            var out := ReserveAnswer(w2, q.lease.id, d, health);
            && d == Decide(w1, q.class_, q.bytes, health)
            && ApplyResource(w, q, health) == (Record(out, q), out.result)
            && w1.held == Purge(w, q.lease.id).held && w1.nextReservation == w.nextReservation
            && w1.incarnation == q.lease.incarnation
  {
    var w1 := Purge(OwnResponses(w, q.lease.id), q.lease.id);
    assert w1.decisions == Purge(w, q.lease.id).decisions;
    ReserveIsDecided(w1, q, health);
  }

  /** A new reserve is granted exactly if it can be funded from what the purge leaves; then the
      host reads the next reservation in the answer and its bytes are held. Else the answer says
      why, and the host takes it as proof of absence unless only entropy was missing. */
  lemma ReserveTells(w: Worker, q: ResourceRequest, health: Health)
    requires NewReserve(w, q)
    ensures var (w', res) := ApplyResource(w, q, health);
            var held := Purge(w, q.lease.id).held;
            var funded := Fundable(held, q.class_, q.bytes, health);
            && SuccessfulReservation(res, q.lease, q.class_, q.bytes)
               == (if funded then Some(w.nextReservation) else None)
            && (funded ==> InState(w', q.lease.id, w.nextReservation, Reserved))
            && w'.held == held + (if funded then q.bytes else 0)
            && Explains(res.reason, held, q, health)
            && (RefusalProvesAbsence(res, q.lease) <==> !funded && res.reason != InternalError)
  {
    NewReserveIsDecided(w, q, health);
    DecideExactly(Purge(OwnResponses(w, q.lease.id), q.lease.id), q.class_, q.bytes, health);
  }

  // ----- Answers are remembered ---------------------------------------------------------------

  /** The request is valid and its id is not remembered. */
  predicate Anew(w: Worker, q: ResourceRequest) {
    && q.id != 0 && Valid(w, q.lease)
    && (q.lease.id, q.id) !in OwnResponses(w, q.lease.id).responses
    && |OwnResponses(w, q.lease.id).responses| < IDEMPOTENCE_CAPACITY
  }

  lemma AnewIsRecorded(w: Worker, q: ResourceRequest, health: Health)
    requires Anew(w, q) && (q.lease.id, q.id) in ApplyResource(w, q, health).0.responses
    ensures var (w', res) := ApplyResource(w, q, health);
            && Valid(w', q.lease) && OwnResponses(w', q.lease.id) == w'
            && w'.responses[(q.lease.id, q.id)] == Cached(q, res)
  {
    RepliedOwn(OwnResponses(w, q.lease.id), q, health);
    var w' := ApplyResource(w, q, health).0;
    assert OwnResponses(w', q.lease.id) == w';
  }

  /** What is remembered is answered without asking the guard. */
  lemma Remembered(w: Worker, q: ResourceRequest, health: Health)
    requires q.id != 0 && Valid(w, q.lease) && (q.lease.id, q.id) in OwnResponses(w, q.lease.id).responses
    ensures var w1 := OwnResponses(w, q.lease.id);
            var c := w1.responses[(q.lease.id, q.id)];
            ApplyResource(w, q, health)
            == (w1, if c.request == q then c.result else Failure(w1, q.lease.id, RequestIdConflict))
  {
  }

  /** The same request again gets the same answer and changes nothing, whatever the health. */
  lemma ReplayIsSame(w: Worker, q: ResourceRequest, health: Health, later: Health)
    requires (q.lease.id, q.id) in ApplyResource(w, q, health).0.responses
    ensures var (w', res) := ApplyResource(w, q, health); ApplyResource(w', q, later) == (w', res)
  {
    if Anew(w, q) {
      AnewIsRecorded(w, q, health);
      Remembered(ApplyResource(w, q, health).0, q, later);
    } else if q.id != 0 && Valid(w, q.lease) {
      var w1 := OwnResponses(w, q.lease.id);
      assert OwnResponses(w1, q.lease.id) == w1;
      Remembered(w, q, health);
      Remembered(w1, q, later);
    }
  }

  /** Serving leaves lease and incarnation, and answers of other leases only where they were. */
  lemma RepliedOwn(w: Worker, q: ResourceRequest, health: Health)
    ensures var out := Dispatch(Purge(w, q.lease.id), q, health);
            var w' := Record(out, q);
            && w'.active == w.active && w'.incarnation == w.incarnation
            && (forall k | k in w'.responses :: k in w.responses || k == (q.lease.id, q.id))
            && ((q.lease.id, q.id) !in w.responses ==>
                  (out.cached <==> (q.lease.id, q.id) in w'.responses)
                  && (out.cached ==> w'.responses[(q.lease.id, q.id)] == Cached(q, out.result)))
  {
    DispatchFrame(Purge(w, q.lease.id), q, health);
  }

  lemma DispatchFrame(w: Worker, q: ResourceRequest, health: Health)
    ensures var w' := Dispatch(w, q, health).worker;
            w'.active == w.active && w'.incarnation == w.incarnation && w'.responses == w.responses
  {
  }

  // ----- What ends, and what that gives back -----------------------------------------------------

  /** The purge keeps exactly the lease's own reservations and those a buffer or job owned, and
      exactly the lease's own decisions. */
  lemma PurgeExactly(w: Worker, lease: LeaseId)
    ensures var w' := Purge(w, lease);
            && (forall id :: id in w'.reservations <==>
                  id in w.reservations && (var v := w.reservations[id];
                    v.lease == lease || v.state == Consumed || v.state == ConsumedReleased))
            && (forall id | id in w'.reservations :: w'.reservations[id] == w.reservations[id])
            && (forall k :: k in w'.decisions <==> k in w.decisions && k.0 == lease)
            && (forall k | k in w'.decisions :: w'.decisions[k] == w.decisions[k])
  {
    var w', gone := Purge(w, lease), Superseded(w, lease);
    forall id ensures id in w'.reservations <==> id in w.reservations && id !in gone {}
  }

  /** One reservation's state changes from one that holds bytes to one that does not. */
  lemma Frees(w: Worker, id: ReservationId, st: ReservationState, terminal: bool)
    requires HeldOk(w) && LeasesOk(w) && id in w.reservations
    requires w.reservations[id].Holding() && !w.reservations[id].(state := st).Holding()
    ensures var w' := FreeBytes(WithState(w, id, st, terminal), w.reservations[id].bytes);
            w'.held + w.reservations[id].bytes == w.held
  {
    HeldUpdate(w.reservations, w.reservations[id := w.reservations[id].(state := st)], id, w.nextReservation);
  }

  /** The end of an owner ends exactly a consumed reservation, frees exactly its bytes, and does
      so once. */
  lemma OwnerEnds(w: Worker, id: ReservationId)
    requires HeldOk(w) && LeasesOk(w)
    ensures var w' := ReleaseConsumed(w, id);
            && (if id in w.reservations && w.reservations[id].state == Consumed
                then && w'.reservations == w.reservations[id := w.reservations[id].(state := ConsumedReleased)]
                     && w'.held + w.reservations[id].bytes == w.held
                else w' == w)
            && ReleaseConsumed(w', id) == w'
  {
    if id in w.reservations && w.reservations[id].state == Consumed { Frees(w, id, ConsumedReleased, false); }
  }

  /** Expiry ends exactly a reserved reservation, frees exactly its bytes, closes its decision,
      and does so once. */
  lemma ReservedExpires(w: Worker, id: ReservationId)
    requires HeldOk(w) && LeasesOk(w) && DecisionsOk(w)
    ensures var w' := Expire(w, id);
            && (if id in w.reservations && w.reservations[id].state == Reserved
                then && w'.reservations == w.reservations[id := w.reservations[id].(state := Expired)]
                     && w'.held + w.reservations[id].bytes == w.held
                     && KeyOf(w.reservations[id]) in w'.decisions && w'.decisions[KeyOf(w.reservations[id])].terminal
                else w' == w)
            && Expire(w', id) == w'
  {
    if id in w.reservations && w.reservations[id].state == Reserved {
      assert IsLive(w, id);
      Frees(w, id, Expired, true);
    }
  }

  /** Only what holds no bytes any more is forgotten, and then it is gone. */
  lemma EndedForgotten(w: Worker, id: ReservationId)
    ensures var w' := ForgetReservation(w, id);
            && w'.held == w.held && w'.decisions == w.decisions && w'.responses == w.responses
            && (if id in w.reservations && w.reservations[id].state !in {Reserved, Committed, Consumed}
                then w'.reservations == w.reservations - {id}
                else w' == w)
  {
  }

  /** Another lease's reservation that a buffer or job owned. */
  predicate OwnedElsewhere(w: Worker, lease: LeaseId, id: ReservationId) {
    && id in w.reservations && w.reservations[id].lease != lease
    && (w.reservations[id].state == Consumed || w.reservations[id].state == ConsumedReleased)
  }

  /** The guard's part of it. */
  lemma GuardReleases(w: Worker, q: ResourceRequest)
    requires q.Release? && q.lease.incarnation == w.incarnation
    ensures var out := DoRelease(w, q);
            var elsewhere := q.reservation in w.reservations && w.reservations[q.reservation].lease != q.lease.id;
            && (ReleaseTerminal(out.result, q.lease, q.reservation) <==> !elsewhere)
            && (!elsewhere ==> !IsLive(out.worker, q.reservation))
            && (ProvesPurge(out.result, q.lease, q.reservation) <==>
                  InState(out.worker, q.lease.id, q.reservation, Released) || q.reservation !in w.reservations)
  {
  }

  lemma FirstReleaseIs(w: Worker, q: ResourceRequest, health: Health)
    requires q.Release? && FirstServed(w, q)
    ensures var w1 := Purge(OwnResponses(w, q.lease.id), q.lease.id);
            var out := DoRelease(w1, q);
            && ApplyResource(w, q, health) == (Record(out, q), out.result)
            && w1.reservations == Purge(w, q.lease.id).reservations && w1.incarnation == w.incarnation
            && Record(out, q).reservations == out.worker.reservations
  {
  }

  /** A release served for the first time ends the debt for every reservation but one that
      another lease's buffer or job owned; and it proves the purge exactly if it released the
      lease's own or found nothing. */
  lemma ReleaseSettles(w: Worker, q: ResourceRequest, health: Health)
    requires q.Release? && FirstServed(w, q)
    ensures var (w', res) := ApplyResource(w, q, health);
            && (ReleaseTerminal(res, q.lease, q.reservation) <==> !OwnedElsewhere(w, q.lease.id, q.reservation))
            && (ReleaseTerminal(res, q.lease, q.reservation) ==> !IsLive(w', q.reservation))
            && (ProvesPurge(res, q.lease, q.reservation) <==>
                  || InState(w', q.lease.id, q.reservation, Released)
                  || q.reservation !in Purge(w, q.lease.id).reservations)
  {
    FirstReleaseIs(w, q, health);
    GuardReleases(Purge(OwnResponses(w, q.lease.id), q.lease.id), q);
    PurgeExactly(w, q.lease.id);
  }

  /** Why a commit or a release of a reservation the lease has ended is refused. */
  predicate EndExplained(reason: ResourceReason, state: ReservationState) {
    match state
    case Expired => reason == ReservationExpired
    case Consumed => reason == ReservationAlreadyConsumed
    case ConsumedReleased => reason == ReservationAlreadyConsumed
    case Released => reason == ReservationNotCommitted
    case RefusedSafety => reason == ReservationNotCommitted
    case Reserved => reason == NoReason
    case Committed => reason == NoReason
  }

  /** The guard's reason for a commit or a release: nothing found, another lease's, or by the
      state the reservation was in. */
  lemma GuardExplains(w: Worker, q: ResourceRequest, health: Health)
    requires !q.Reserve?
    ensures var reason := Dispatch(w, q, health).result.reason;
            if q.reservation !in w.reservations then reason == ReservationNotFound
            else if w.reservations[q.reservation].lease != q.lease.id then reason == StaleControllerLease
            else if q.Commit? && w.reservations[q.reservation].state == Reserved && health.refused
            then reason == CommitRefusedSafety
            else if q.Release? && w.reservations[q.reservation].state == Released then reason == NoReason
            else EndExplained(reason, w.reservations[q.reservation].state)
  {
  }

  /** A lease is granted exactly if there is none, with a number never used; ending leaves none; a
      restart is a new incarnation that holds and remembers nothing. */
  lemma LeaseChanges(w: Worker)
    requires LeasesOk(w)
    ensures GrantLease(w).active == (if w.active.None? then Some(w.lastLease + 1) else w.active)
    ensures w.active.None? ==> GrantLease(w).lastLease == w.lastLease + 1
    ensures EndLease(w).active.None? && EndLease(w).reservations == w.reservations
    ensures var w' := Restart(w);
            && w'.incarnation > w.incarnation && w'.active.None? && w'.held == 0 && w'.reservations == map[]
            && (forall k :: !w'.Knows(k)) && w'.nextReservation == w.nextReservation && w'.lastLease == w.lastLease
  {
  }
}
