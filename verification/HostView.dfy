/** How the host reads a typed C08 result: what it takes as a grant, as proof that a
    reserve created nothing, as the end of a reservation, and as proof of a purge. */
module HostView {
  import opened Basics
  import opened Wire

  predicate Echoes(res: ResourceResult, lease: Lease) {
    res.lease == lease.id && res.incarnation == lease.incarnation
  }

  function SuccessfulReservation(res: ResourceResult, lease: Lease, class_: ResourceClass,
                                 bytes: nat): Option<ReservationId>
  {
    if !res.completed || res.reason != NoReason || !Echoes(res, lease) then None
    else match res.reservation
      case None => None
      case Some(ref) =>
        if ref.state == Reserved && ref.class_ == class_ && ref.granted == bytes
        then Some(ref.id) else None
  }

  predicate RefusalProvesAbsence(res: ResourceResult, lease: Lease) {
    && !res.completed
    && Echoes(res, lease)
    && res.reservation.None?
    && (res.reason == RefusedStaleState || res.reason == ResourceExhausted)
  }

  predicate CommitConfirmed(res: ResourceResult, lease: Lease, id: ReservationId, class_: ResourceClass, bytes: nat) {
    && Echoes(res, lease)
    && res.completed && res.reason == NoReason
    && res.reservation == Some(ReservationRef(id, class_, bytes, Committed))
  }

  predicate ReleaseConfirmed(res: ResourceResult, lease: Lease, id: ReservationId) {
    && Echoes(res, lease)
    && res.completed && res.reason == NoReason
    && res.reservation.Some?
    && res.reservation.value.id == id && res.reservation.value.state == Released
  }

  predicate ReleaseTerminal(res: ResourceResult, lease: Lease, id: ReservationId) {
    || ReleaseConfirmed(res, lease, id)
    || (&& Echoes(res, lease)
        && !res.completed
        && (|| res.reason == ReservationNotFound
            || res.reason == ReservationNotCommitted
            || res.reason == ReservationExpired
            || res.reason == ReservationAlreadyConsumed))
  }

  /** The two ways the host learns that the lazy purge ran under `lease`: a confirmed
      release of a reservation made under it, or an exact NOT_FOUND for an older one. */
  predicate ProvesPurge(res: ResourceResult, lease: Lease, id: ReservationId) {
    || ReleaseConfirmed(res, lease, id)
    || (&& Echoes(res, lease)
        && !res.completed && res.reason == ReservationNotFound && res.reservation.None?)
  }
}
