/** Identifiers, requests and results that cross the authenticated session between
    the host and its one paired worker (channels C07 to C10).

    Random 128-bit ids are only ever used for being fresh, so they are numbers handed
    out in increasing order: a later lease or incarnation has a larger number. */
module Wire {
  import opened Basics

  type LeaseId = nat
  type Incarnation = nat
  type RequestId = nat
  type ReservationId = nat
  type BufferId = nat

  /** What the host keeps of a controller lease when it addresses the worker. */
  datatype Lease = Lease(id: LeaseId, incarnation: Incarnation)

  datatype ResourceClass = RemoteBufferBytes | NativeOpScratchBytes

  datatype ReservationState =
    | Reserved | Committed | Released | Expired | RefusedSafety | Consumed | ConsumedReleased

  datatype ResourceRequest =
    | Reserve(lease: Lease, id: RequestId, class_: ResourceClass, bytes: nat)
    | Commit(lease: Lease, id: RequestId, reservation: ReservationId)
    | Release(lease: Lease, id: RequestId, reservation: ReservationId)

  datatype ResourceReason =
    | NoReason
    | StaleControllerLease
    | RequestIdConflict
    | IdempotenceTableFull
    | RefusedStaleState
    | ResourceExhausted
    | CommitRefusedSafety
    | ReservationNotFound
    | ReservationNotCommitted
    | ReservationExpired
    | ReservationAlreadyConsumed
    | InternalError

  datatype ReservationRef =
    ReservationRef(id: ReservationId, class_: ResourceClass, granted: nat, state: ReservationState)

  /** A typed C08 result: it echoes the lease of the request and names the
      incarnation that answered. */
  datatype ResourceResult =
    ResourceResult(completed: bool, reason: ResourceReason, lease: LeaseId,
                   incarnation: Incarnation, reservation: Option<ReservationRef>)
}
