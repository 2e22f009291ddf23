/** What every transition of the worker keeps, and what each of its answers means. */
module WorkerFacts {
  import opened Basics
  import opened Wire
  import opened Worker
  import opened HostView

  ghost predicate IsLive(w: Worker, id: ReservationId) {
    id in w.reservations && w.reservations[id].Live()
  }

  function KeyOf(v: Reservation): Key { (v.lease, v.request) }

  /** No live reservation of `w'` is missing in `w`: every fact of the form
      "no live reservation is such that" survives the transition. */
  ghost predicate NoNewLive(w: Worker, w': Worker) {
    forall id | IsLive(w', id) ::
      IsLive(w, id) && KeyOf(w'.reservations[id]) == KeyOf(w.reservations[id])
  }

  ghost predicate Keyed(w: Worker, k: Key, id: ReservationId) {
    IsLive(w, id) && KeyOf(w.reservations[id]) == k
  }

  /** At most `id` is live under the request `k`. */
  ghost predicate OnlyLive(w: Worker, k: Key, id: ReservationId) {
    forall other | Keyed(w, k, other) :: other == id
  }

  ghost predicate NoneLive(w: Worker, k: Key) {
    forall other :: !Keyed(w, k, other)
  }

  ghost predicate PurgedBefore(w: Worker, lease: LeaseId) {
    forall id | IsLive(w, id) :: w.reservations[id].lease >= lease
  }

  /** A lease that can no longer authorize a first execution of the request `k`. */
  ghost predicate Inert(w: Worker, k: Key) {
    k.0 <= w.lastLease && (w.active == Some(k.0) ==> w.Knows(k))
  }

  // ----- Invariant ------------------------------------------------------------------

  ghost predicate LeasesOk(w: Worker) {
    && (w.active.Some? ==> w.active.value == w.lastLease)
    && (forall id | id in w.reservations ::
          id < w.nextReservation && w.reservations[id].lease <= w.lastLease)
    && (forall k | k in w.decisions && w.decisions[k].decision.Granted? ::
          w.decisions[k].decision.id < w.nextReservation)
  }

  /** Every live reservation is the open, granted decision of its own request. */
  ghost predicate DecisionsOk(w: Worker) {
    forall id | IsLive(w, id) ::
      var k := KeyOf(w.reservations[id]);
      k in w.decisions && w.decisions[k].decision == Granted(id) && !w.decisions[k].terminal
  }

  /** What an answer says stays true of the worker from the moment it is given. */
  ghost predicate AnswerSound(w: Worker, q: ResourceRequest, res: ResourceResult) {
    match q
    case Reserve(lease, id, class_, bytes) =>
      && (var r := SuccessfulReservation(res, lease, class_, bytes);
          r.Some? ==> r.value < w.nextReservation && OnlyLive(w, (lease.id, id), r.value))
      && (RefusalProvesAbsence(res, lease) ==> NoneLive(w, (lease.id, id)))
    case Release(lease, _, id) =>
      && (ReleaseTerminal(res, lease, id) ==> id < w.nextReservation && !IsLive(w, id))
      && (ProvesPurge(res, lease, id) ==> lease.id <= w.lastLease && PurgedBefore(w, lease.id))
    case Commit(_, _, _) => true
  }

  /** The host will edit its ledger on this answer to a reserve. */
  predicate Decisive(q: ResourceRequest, res: ResourceResult) {
    q.Reserve? && (|| SuccessfulReservation(res, q.lease, q.class_, q.bytes).Some?
                   || RefusalProvesAbsence(res, q.lease))
  }

  ghost predicate ResponsesOk(w: Worker) {
    forall k | k in w.responses ::
      && k == (w.responses[k].request.lease.id, w.responses[k].request.id)
      && AnswerSound(w, w.responses[k].request, w.responses[k].result)
  }

  ghost predicate WorkerOk(w: Worker) {
    LeasesOk(w) && DecisionsOk(w) && ResponsesOk(w)
  }

  /** The same lease and incarnation, whose request memory only grows and whose
      reservations are the only new ones. */
  ghost predicate SameTerm(w: Worker, w': Worker) {
    && w'.incarnation == w.incarnation && w'.active == w.active && w'.lastLease == w.lastLease
    && w.nextReservation <= w'.nextReservation
    && (forall k: Key | w.active == Some(k.0) && w.Knows(k) :: w'.Knows(k))
    && (forall id | id in w'.reservations ::
          || (id in w.reservations && w'.reservations[id].lease == w.reservations[id].lease)
          || w.active == Some(w'.reservations[id].lease))
  }

  // ----- Facts only lose live reservations ---------------------------------------------

  lemma SoundStays(w: Worker, w': Worker, q: ResourceRequest, res: ResourceResult)
    requires NoNewLive(w, w') && AnswerSound(w, q, res)
    requires w.nextReservation <= w'.nextReservation && w.lastLease <= w'.lastLease
    ensures AnswerSound(w', q, res)
  {
    if q.Reserve? {
      var k := (q.lease.id, q.id);
      forall id | Keyed(w', k, id) ensures Keyed(w, k, id) {}
    }
  }

  /** A transition without new live reservations keeps all cached answers sound. */
  lemma ResponsesStay(w: Worker, w': Worker)
    requires NoNewLive(w, w') && ResponsesOk(w)
    requires w.nextReservation <= w'.nextReservation && w.lastLease <= w'.lastLease
    requires forall k | k in w'.responses :: k in w.responses && w'.responses[k] == w.responses[k]
    ensures ResponsesOk(w')
  {
    forall k | k in w'.responses
      ensures AnswerSound(w', w'.responses[k].request, w'.responses[k].result)
    { SoundStays(w, w', w.responses[k].request, w.responses[k].result); }
  }

  // ----- Transitions -----------------------------------------------------------------

  /** The shared shape of ending or committing one reservation. */
  lemma WithStateKeeps(w: Worker, id: ReservationId, st: ReservationState, terminal: bool, freed: nat)
    requires WorkerOk(w) && id in w.reservations
    requires st == Reserved || st == Committed ==> w.reservations[id].Live() && !terminal
    requires terminal ==> w.reservations[id].Live()
    ensures var w' := FreeBytes(WithState(w, id, st, terminal), freed);
            WorkerOk(w') && NoNewLive(w, w') && SameTerm(w, w')
  {
    var w' := FreeBytes(WithState(w, id, st, terminal), freed);
    assert NoNewLive(w, w');
    assert DecisionsOk(w') by {
      forall other | IsLive(w', other)
        ensures var k := KeyOf(w'.reservations[other]);
                k in w'.decisions && w'.decisions[k].decision == Granted(other) && !w'.decisions[k].terminal
      { assert IsLive(w, other); }
    }
    ResponsesStay(w, w');
  }

  ghost predicate OnlyOf(w: Worker, lease: LeaseId) {
    forall id | IsLive(w, id) :: w.reservations[id].lease == lease
  }

  lemma PurgeKeeps(w: Worker, lease: LeaseId)
    requires WorkerOk(w)
    ensures var w' := Purge(w, lease);
            && WorkerOk(w') && NoNewLive(w, w')
            && OnlyOf(w', lease) && (w.active == Some(lease) ==> SameTerm(w, w'))
            && (forall k: Key | k.0 == lease :: k in w.decisions <==> k in w'.decisions)
  {
    var w' := Purge(w, lease);
    forall id | IsLive(w', id)
      ensures w'.reservations[id].lease == lease && IsLive(w, id)
    { assert id !in Superseded(w, lease); }
    ResponsesStay(w, w');
  }

  lemma ExpireKeeps(w: Worker, id: ReservationId)
    requires WorkerOk(w)
    ensures var w' := Expire(w, id); WorkerOk(w') && NoNewLive(w, w') && SameTerm(w, w')
  {
    if id in w.reservations && w.reservations[id].state == Reserved {
      WithStateKeeps(w, id, Expired, true, w.reservations[id].bytes);
    }
  }

  lemma ReleaseConsumedKeeps(w: Worker, id: ReservationId)
    requires WorkerOk(w)
    ensures var w' := ReleaseConsumed(w, id); WorkerOk(w') && NoNewLive(w, w') && SameTerm(w, w')
  {
    if id in w.reservations && w.reservations[id].state == Consumed {
      WithStateKeeps(w, id, ConsumedReleased, false, w.reservations[id].bytes);
    }
  }

  lemma ForgetReservationKeeps(w: Worker, id: ReservationId)
    requires WorkerOk(w)
    ensures var w' := ForgetReservation(w, id); WorkerOk(w') && NoNewLive(w, w') && SameTerm(w, w')
  {
    var w' := ForgetReservation(w, id);
    ResponsesStay(w, w');
  }

  lemma ForgetMemoryKeeps(w: Worker, k: Key)
    requires WorkerOk(w)
    ensures WorkerOk(ForgetResponse(w, k)) && NoNewLive(w, ForgetResponse(w, k))
    ensures WorkerOk(ForgetDecision(w, k)) && NoNewLive(w, ForgetDecision(w, k))
  {
    ResponsesStay(w, ForgetResponse(w, k));
    ResponsesStay(w, ForgetDecision(w, k));
    assert DecisionsOk(ForgetDecision(w, k));
  }

  lemma LeaseChangeKeeps(w: Worker)
    requires WorkerOk(w)
    ensures WorkerOk(GrantLease(w)) && NoNewLive(w, GrantLease(w))
    ensures WorkerOk(EndLease(w)) && NoNewLive(w, EndLease(w))
  {
    ResponsesStay(w, GrantLease(w));
    ResponsesStay(w, EndLease(w));
  }

  lemma RestartKeeps(w: Worker)
    requires WorkerOk(w)
    ensures WorkerOk(Restart(w)) && NoNewLive(w, Restart(w))
  {}

  lemma ConsumeKeeps(w: Worker, lease: Lease, id: ReservationId, class_: ResourceClass, exact: Option<nat>)
    requires WorkerOk(w)
    ensures var (w', ok) := Consume(w, lease, id, class_, exact);
            && WorkerOk(w') && NoNewLive(w, w') && SameTerm(w, w')
            && (ok ==> id < w'.nextReservation && !IsLive(w', id))
  {
    if Valid(w, lease) {
      PurgeKeeps(w, lease.id);
      var w1 := Purge(w, lease.id);
      var (w', ok) := Consume(w, lease, id, class_, exact);
      if ok { WithStateKeeps(w1, id, Consumed, false, 0); }
    }
  }

  // ----- Resource requests --------------------------------------------------------------

  /** The host only names reservations it was told of. */
  predicate Aimed(w: Worker, q: ResourceRequest) {
    !q.Reserve? ==> q.reservation < w.nextReservation
  }

  predicate FirstExecution(w: Worker, q: ResourceRequest) {
    q.Reserve? && w.active == Some(q.lease.id) && !w.Knows((q.lease.id, q.id))
  }

  /** The one way a live reservation appears: the first execution of a reserve. */
  ghost predicate LiveStep(w: Worker, w': Worker, q: ResourceRequest) {
    forall id | IsLive(w', id) ::
      || (IsLive(w, id) && KeyOf(w'.reservations[id]) == KeyOf(w.reservations[id]))
      || (&& FirstExecution(w, q) && id == w.nextReservation
          && KeyOf(w'.reservations[id]) == (q.lease.id, q.id))
  }

  /** An answer about one request survives the creation under another. */
  lemma SoundSurvivesCreation(w: Worker, w': Worker, q: ResourceRequest, other: ResourceRequest,
                              res: ResourceResult)
    requires LeasesOk(w) && LiveStep(w, w', q) && AnswerSound(w, other, res)
    requires w.nextReservation <= w'.nextReservation && w.lastLease <= w'.lastLease
    requires Decisive(other, res) ==> (w.active == Some(other.lease.id) ==> w.Knows((other.lease.id, other.id)))
    ensures AnswerSound(w', other, res)
  {
    if Decisive(other, res) {
      var k := (other.lease.id, other.id);
      forall id | Keyed(w', k, id) ensures Keyed(w, k, id) {}
    }
  }

  lemma AdmitKeeps(w: Worker, q: ResourceRequest, d: Decision, health: Health)
    requires WorkerOk(w) && q.Reserve? && w.active == Some(q.lease.id)
    requires !w.Knows((q.lease.id, q.id))
    requires d == Decide(w, q.class_, q.bytes, health)
    ensures var w' := Admit(w, q.lease.id, q.id, q.class_, q.bytes, d);
            && WorkerOk(w') && SameTerm(w, w')
            && LiveStep(w, w', q)
  {
    var w' := Admit(w, q.lease.id, q.id, q.class_, q.bytes, d);
    if d.Granted? {
      forall k | k in w'.responses
        ensures AnswerSound(w', w'.responses[k].request, w'.responses[k].result)
      { SoundSurvivesCreation(w, w', q, w.responses[k].request, w.responses[k].result); }
    } else {
      ResponsesStay(w, w');
    }
  }

  lemma DecidedKeeps(w: Worker, q: ResourceRequest, health: Health)
    requires WorkerOk(w) && q.Reserve? && w.active == Some(q.lease.id)
    requires (q.lease.id, q.id) !in w.responses
    ensures var (w', d) := Decided(w, q, health);
            var k := (q.lease.id, q.id);
            && WorkerOk(w') && SameTerm(w, w') && w'.responses == w.responses
            && LiveStep(w, w', q)
            && (if d.Granted? then OnlyLive(w', k, d.id) else NoneLive(w', k))
  {
    var k := (q.lease.id, q.id);
    var (w', d) := Decided(w, q, health);
    if k !in w.decisions { AdmitKeeps(w, q, d, health); }
    forall id | Keyed(w', k, id) ensures d == Granted(id) {}
  }

  lemma ReserveAnswerSound(w: Worker, q: ResourceRequest, d: Decision, health: Health)
    requires q.Reserve? && LeasesOk(w)
    requires var k := (q.lease.id, q.id);
             if d.Granted? then OnlyLive(w, k, d.id) else NoneLive(w, k)
    ensures var out := ReserveAnswer(w, q.lease.id, d, health);
            out.worker == w && AnswerSound(w, q, out.result) && (Decisive(q, out.result) ==> out.cached)
  {}

  /** A transition without new live reservations, followed by a request. */
  lemma Compose(w: Worker, w1: Worker, w2: Worker, q: ResourceRequest)
    requires NoNewLive(w, w1) && w1.nextReservation == w.nextReservation && w1.active == w.active
    requires forall k: Key | w.active == Some(k.0) && w.Knows(k) :: w1.Knows(k)
    requires LiveStep(w1, w2, q)
    ensures LiveStep(w, w2, q)
  {}

  /** Turned away before any decision: the request id is taken, or the table is full. */
  predicate Turned(w: Worker, q: ResourceRequest)
    requires q.Reserve?
  {
    var k := (q.lease.id, q.id);
    || (k in w.decisions && (w.decisions[k].class_ != q.class_ || w.decisions[k].bytes != q.bytes))
    || (k !in w.decisions && |w.decisions| >= IDEMPOTENCE_CAPACITY)
  }

  lemma TurnedAway(w: Worker, q: ResourceRequest, health: Health)
    requires q.Reserve? && Turned(w, q)
    ensures DoReserve(w, q, health).worker == w
    ensures AnswerSound(w, q, DoReserve(w, q, health).result) && !Decisive(q, DoReserve(w, q, health).result)
  {}

  lemma ReserveIsDecided(w: Worker, q: ResourceRequest, health: Health)
    requires q.Reserve? && !Turned(w, q)
    ensures var (w', d) := Decided(w, q, health); DoReserve(w, q, health) == ReserveAnswer(w', q.lease.id, d, health)
  {}

  lemma Unmoved(w: Worker, q: ResourceRequest)
    ensures SameTerm(w, w) && LiveStep(w, w, q)
  {}

  lemma ReserveKeeps(w: Worker, q: ResourceRequest, health: Health)
    requires WorkerOk(w) && q.Reserve? && Valid(w, q.lease)
    requires (q.lease.id, q.id) !in w.responses
    ensures var out := DoReserve(w, q, health);
            && WorkerOk(out.worker) && SameTerm(w, out.worker)
            && out.worker.responses == w.responses
            && AnswerSound(out.worker, q, out.result)
            && (Decisive(q, out.result) ==> out.cached)
            && LiveStep(w, out.worker, q)
  {
    if Turned(w, q) {
      TurnedAway(w, q, health);
      Unmoved(w, q);
    } else {
      var (w', d) := Decided(w, q, health);
      DecidedKeeps(w, q, health);
      ReserveAnswerSound(w', q, d, health);
      ReserveIsDecided(w, q, health);
    }
  }

  /** The lease has the reservation in this state. */
  predicate InState(w: Worker, lease: LeaseId, id: ReservationId, st: ReservationState) {
    id in w.reservations && w.reservations[id].lease == lease && w.reservations[id].state == st
  }

  lemma ReleaseKeeps(w: Worker, q: ResourceRequest)
    requires WorkerOk(w) && q.Release? && Valid(w, q.lease) && Aimed(w, q)
    requires OnlyOf(w, q.lease.id)
    ensures var out := DoRelease(w, q);
            && WorkerOk(out.worker) && SameTerm(w, out.worker) && out.cached
            && out.worker.responses == w.responses
            && AnswerSound(out.worker, q, out.result)
            && NoNewLive(w, out.worker)
  {
    if q.reservation in w.reservations && w.reservations[q.reservation].Live() {
      WithStateKeeps(w, q.reservation, Released, true, w.reservations[q.reservation].bytes);
    }
  }

  lemma CommitKeeps(w: Worker, q: ResourceRequest, health: Health)
    requires WorkerOk(w) && q.Commit? && Valid(w, q.lease)
    ensures var out := DoCommit(w, q, health);
            && WorkerOk(out.worker) && SameTerm(w, out.worker) && out.cached
            && out.worker.responses == w.responses
            && NoNewLive(w, out.worker)
  {
    if q.reservation in w.reservations && w.reservations[q.reservation].state == Reserved {
      if health.refused {
        WithStateKeeps(w, q.reservation, RefusedSafety, true, w.reservations[q.reservation].bytes);
      } else {
        WithStateKeeps(w, q.reservation, Committed, false, 0);
      }
    }
  }

  lemma DispatchKeeps(w: Worker, q: ResourceRequest, health: Health)
    requires WorkerOk(w) && Aimed(w, q) && Valid(w, q.lease) && OnlyOf(w, q.lease.id)
    requires (q.lease.id, q.id) !in w.responses
    ensures var out := Dispatch(w, q, health);
            && WorkerOk(out.worker) && SameTerm(w, out.worker)
            && out.worker.responses == w.responses
            && AnswerSound(out.worker, q, out.result)
            && (Decisive(q, out.result) ==> out.cached)
            && LiveStep(w, out.worker, q)
  {
    match q
    case Reserve(_, _, _, _) => ReserveKeeps(w, q, health);
    case Commit(_, _, _) => CommitKeeps(w, q, health);
    case Release(_, _, _) => ReleaseKeeps(w, q);
  }

  lemma RecordKeeps(out: Outcome, q: ResourceRequest)
    requires WorkerOk(out.worker) && AnswerSound(out.worker, q, out.result)
    ensures var w' := Record(out, q);
            && WorkerOk(w') && SameTerm(out.worker, w')
            && AnswerSound(w', q, out.result) && NoNewLive(out.worker, w')
            && (out.cached ==> w'.Knows((q.lease.id, q.id)))
  {
    var w, w' := out.worker, Record(out, q);
    SoundStays(w, w', q, out.result);
    forall k | k in w.responses
      ensures AnswerSound(w', w.responses[k].request, w.responses[k].result)
    { SoundStays(w, w', w.responses[k].request, w.responses[k].result); }
  }

  lemma OwnResponsesKeeps(w: Worker, lease: LeaseId)
    requires WorkerOk(w) && w.active == Some(lease)
    ensures var w' := OwnResponses(w, lease);
            WorkerOk(w') && SameTerm(w, w') && NoNewLive(w, w')
            && w'.nextReservation == w.nextReservation
            && forall k: Key | k.0 == lease :: w.Knows(k) <==> w'.Knows(k)
  {
    ResponsesStay(w, OwnResponses(w, lease));
  }

  /** A request the response cache does not hold. */
  lemma MissKeeps(w: Worker, q: ResourceRequest, health: Health)
    requires WorkerOk(w) && Aimed(w, q) && Valid(w, q.lease)
    requires (q.lease.id, q.id) !in w.responses
    ensures var out := Dispatch(Purge(w, q.lease.id), q, health);
            var w' := Record(out, q);
            && WorkerOk(w') && SameTerm(w, w') && AnswerSound(w', q, out.result)
            && (Decisive(q, out.result) ==> w'.Knows((q.lease.id, q.id)))
            && LiveStep(w, w', q)
  {
    var w1 := Purge(w, q.lease.id);
    PurgeKeeps(w, q.lease.id);
    DispatchKeeps(w1, q, health);
    var out := Dispatch(w1, q, health);
    RecordKeeps(out, q);
    Compose(w, w1, out.worker, q);
  }

  /** A request the response cache still holds is answered from it. */
  lemma HitKeeps(w: Worker, q: ResourceRequest)
    requires WorkerOk(w) && w.active == Some(q.lease.id) && (q.lease.id, q.id) in w.responses
    ensures var cached := w.responses[(q.lease.id, q.id)];
            var res := if cached.request == q then cached.result else Failure(w, q.lease.id, RequestIdConflict);
            AnswerSound(w, q, res) && Inert(w, (q.lease.id, q.id))
  {
    assert w.Knows((q.lease.id, q.id));
  }

  /** Every C08 request, however often and however late it arrives: the worker stays
      consistent, the answer is true and stays true, and a live reservation appears only
      at a first execution. */
  lemma ApplyKeeps(w: Worker, q: ResourceRequest, health: Health)
    requires WorkerOk(w) && Aimed(w, q)
    ensures var (w', res) := ApplyResource(w, q, health);
            && WorkerOk(w') && SameTerm(w, w') && AnswerSound(w', q, res)
            && (Decisive(q, res) ==> Inert(w', (q.lease.id, q.id)))
            && LiveStep(w, w', q)
  {
    if q.id != 0 && Valid(w, q.lease) {
      var k := (q.lease.id, q.id);
      var w1 := OwnResponses(w, q.lease.id);
      OwnResponsesKeeps(w, q.lease.id);
      if k in w1.responses {
        HitKeeps(w1, q);
      } else if |w1.responses| < IDEMPOTENCE_CAPACITY {
        MissKeeps(w1, q, health);
        var w2 := Record(Dispatch(Purge(w1, q.lease.id), q, health), q);
        assert ApplyResource(w, q, health).0 == w2;
        Compose(w, w1, w2, q);
      }
    }
  }

  // ----- What the host may conclude from an answer at the moment it is given ------------------

  /** The request is served for the first time. */
  predicate FirstServed(w: Worker, q: ResourceRequest) {
    && q.id != 0 && Valid(w, q.lease) && (q.lease.id, q.id) !in w.responses
    && |OwnResponses(w, q.lease.id).responses| < IDEMPOTENCE_CAPACITY
  }

  /** The purge leaves the lease's own reservations alone. */
  lemma PurgeOwn(w: Worker, lease: LeaseId, id: ReservationId)
    ensures (id in w.reservations && w.reservations[id].lease == lease)
       <==> (id in Purge(w, lease).reservations && Purge(w, lease).reservations[id].lease == lease
             && Purge(w, lease).reservations[id] == w.reservations[id])
  {
    assert id in w.reservations && w.reservations[id].lease == lease ==> id !in Superseded(w, lease);
  }

  /** The host reads a commit as confirmed exactly if the worker now has that reservation of
      the lease committed; and that is exactly if it was, or was reserved and is safe. */
  lemma CommitTells(w: Worker, q: ResourceRequest, health: Health, class_: ResourceClass, bytes: nat)
    requires q.Commit? && FirstServed(w, q)
    ensures var (w', res) := ApplyResource(w, q, health);
            && (CommitConfirmed(res, q.lease, q.reservation, class_, bytes) <==>
                  && InState(w', q.lease.id, q.reservation, Committed)
                  && w'.reservations[q.reservation].class_ == class_ && w'.reservations[q.reservation].bytes == bytes)
            && (InState(w', q.lease.id, q.reservation, Committed) <==>
                  || InState(w, q.lease.id, q.reservation, Committed)
                  || (InState(w, q.lease.id, q.reservation, Reserved) && !health.refused))
  {
    var w1 := OwnResponses(w, q.lease.id);
    PurgeOwn(w1, q.lease.id, q.reservation);
    var out := DoCommit(Purge(w1, q.lease.id), q, health);
    assert ApplyResource(w, q, health) == (Record(out, q), out.result);
  }

  /** The host reads a release as confirmed exactly if the worker now has that reservation of
      the lease released; and that is exactly if it was, or was still live. */
  lemma ReleaseTells(w: Worker, q: ResourceRequest, health: Health)
    requires q.Release? && FirstServed(w, q)
    ensures var (w', res) := ApplyResource(w, q, health);
            && (ReleaseConfirmed(res, q.lease, q.reservation) <==> InState(w', q.lease.id, q.reservation, Released))
            && (InState(w', q.lease.id, q.reservation, Released) <==>
                  || InState(w, q.lease.id, q.reservation, Released)
                  || InState(w, q.lease.id, q.reservation, Reserved)
                  || InState(w, q.lease.id, q.reservation, Committed))
  {
    var w1 := OwnResponses(w, q.lease.id);
    PurgeOwn(w1, q.lease.id, q.reservation);
    var out := DoRelease(Purge(w1, q.lease.id), q);
    assert ApplyResource(w, q, health) == (Record(out, q), out.result);
  }

  /** A buffer or job takes over exactly the lease's committed reservation of that class and
      size, whatever other leases have left behind. */
  lemma ConsumeTells(w: Worker, lease: Lease, id: ReservationId, class_: ResourceClass, exact: Option<nat>)
    ensures var (w', ok) := Consume(w, lease, id, class_, exact);
            && (ok <==> && Valid(w, lease) && InState(w, lease.id, id, Committed) && w.reservations[id].class_ == class_
                        && (exact.Some? ==> w.reservations[id].bytes == exact.value))
            && (ok ==> InState(w', lease.id, id, Consumed))
  {
    PurgeOwn(w, lease.id, id);
  }
}
