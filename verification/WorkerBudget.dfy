/** The worker's held bytes: at every moment exactly the bytes of the reservations that
    are reserved, committed or owned by a buffer or job, and never above the cap. Nothing
    is released twice or forgotten. */
module WorkerBudget {
  import opened Basics
  import opened Wire
  import opened Worker
  import opened WorkerFacts

  ghost predicate HeldOk(w: Worker) {
    w.held == HeldBelow(w.reservations, w.nextReservation) && w.held <= POC_CAP_BYTES
  }

  /** One entry changes: the sum changes by the difference of its weight. */
  lemma {:induction false} HeldUpdate(m: map<ReservationId, Reservation>, m': map<ReservationId, Reservation>,
                                      id: ReservationId, n: ReservationId)
    requires m - {id} == m' - {id}
    ensures var was := if id in m then Weight(m[id]) else 0;
            var now := if id in m' then Weight(m'[id]) else 0;
            HeldBelow(m', n) == HeldBelow(m, n) + (if id < n then now - was else 0)
  {
    if n > 0 {
      HeldUpdate(m, m', id, n - 1);
      if n - 1 != id {
        assert n - 1 in m <==> n - 1 in m - {id};
        assert n - 1 in m' <==> n - 1 in m' - {id};
        assert n - 1 in m ==> (m - {id})[n - 1] == m[n - 1];
        assert n - 1 in m' ==> (m' - {id})[n - 1] == m'[n - 1];
      }
    }
  }

  lemma {:induction false} HeldPartition(m: map<ReservationId, Reservation>, ids: set<ReservationId>, n: ReservationId)
    requires ids <= m.Keys
    ensures HeldBelow(m, n) == HeldBelow(map id | id in ids :: m[id], n) + HeldBelow(m - ids, n)
  {
    if n > 0 { HeldPartition(m, ids, n - 1); }
  }

  lemma {:induction false} NoneHeld(n: ReservationId)
    ensures HeldBelow(map[], n) == 0
  {
    if n > 0 { NoneHeld(n - 1); }
  }

  lemma StateHeld(w: Worker, id: ReservationId, st: ReservationState, terminal: bool, freed: nat)
    requires HeldOk(w) && id in w.reservations && id < w.nextReservation
    requires freed + Weight(w.reservations[id].(state := st)) == Weight(w.reservations[id])
    ensures HeldOk(FreeBytes(WithState(w, id, st, terminal), freed))
  {
    HeldUpdate(w.reservations, w.reservations[id := w.reservations[id].(state := st)], id, w.nextReservation);
  }

  lemma PurgeHeld(w: Worker, lease: LeaseId)
    requires HeldOk(w)
    ensures HeldOk(Purge(w, lease))
  {
    HeldPartition(w.reservations, Superseded(w, lease), w.nextReservation);
  }

  lemma AdmitHeld(w: Worker, q: ResourceRequest, health: Health)
    requires HeldOk(w) && LeasesOk(w) && q.Reserve?
    ensures HeldOk(Decided(w, q, health).0)
  {
    var (w', d) := Decided(w, q, health);
    if (q.lease.id, q.id) !in w.decisions && d.Granted? {
      HeldUpdate(w.reservations, w'.reservations, d.id, d.id);
    }
  }

  lemma DispatchHeld(w: Worker, q: ResourceRequest, health: Health)
    requires HeldOk(w) && LeasesOk(w)
    ensures HeldOk(Dispatch(w, q, health).worker)
  {
    match q
    case Reserve(_, _, _, _) => AdmitHeld(w, q, health);
    case Commit(_, _, id) =>
      if id in w.reservations && w.reservations[id].state == Reserved {
        StateHeld(w, id, RefusedSafety, true, w.reservations[id].bytes);
        StateHeld(w, id, Committed, false, 0);
      }
    case Release(_, _, id) =>
      if id in w.reservations && w.reservations[id].Live() {
        StateHeld(w, id, Released, true, w.reservations[id].bytes);
      }
  }

  lemma MissHeld(w: Worker, q: ResourceRequest, health: Health)
    requires HeldOk(w) && LeasesOk(w)
    ensures HeldOk(Record(Dispatch(Purge(w, q.lease.id), q, health), q))
  {
    PurgeHeld(w, q.lease.id);
    assert LeasesOk(Purge(w, q.lease.id));
    DispatchHeld(Purge(w, q.lease.id), q, health);
  }

  /** No request changes what is held other than by the bytes it grants or frees. */
  lemma ApplyHeld(w: Worker, q: ResourceRequest, health: Health)
    requires HeldOk(w) && WorkerOk(w)
    ensures HeldOk(ApplyResource(w, q, health).0)
  {
    if q.id != 0 && Valid(w, q.lease) { MissHeld(OwnResponses(w, q.lease.id), q, health); }
  }

  lemma ConsumeHeld(w: Worker, lease: Lease, id: ReservationId, class_: ResourceClass, exact: Option<nat>)
    requires HeldOk(w) && LeasesOk(w)
    ensures HeldOk(Consume(w, lease, id, class_, exact).0)
  {
    PurgeHeld(w, lease.id);
    var w1 := Purge(w, lease.id);
    if id in w1.reservations && w1.reservations[id].state == Committed {
      StateHeld(w1, id, Consumed, false, 0);
    }
  }

  lemma EndingsHeld(w: Worker, id: ReservationId)
    requires HeldOk(w) && LeasesOk(w)
    ensures HeldOk(Expire(w, id)) && HeldOk(ReleaseConsumed(w, id)) && HeldOk(ForgetReservation(w, id))
  {
    if id in w.reservations {
      HeldUpdate(w.reservations, w.reservations - {id}, id, w.nextReservation);
      if w.reservations[id].state == Reserved {
        StateHeld(w, id, Expired, true, w.reservations[id].bytes);
      }
      if w.reservations[id].state == Consumed {
        StateHeld(w, id, ConsumedReleased, false, w.reservations[id].bytes);
      }
    }
  }
}
