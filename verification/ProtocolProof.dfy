/** Every step of the protocol keeps the invariant, so in every run no reservation is
    ever orphaned. */
module ProtocolProof {
  import opened Basics
  import opened Wire
  import opened Worker
  import opened HostView
  import opened WorkerFacts
  import opened WorkerBudget
  import opened Ledger
  import opened Protocol

  // ----- Worker transitions, seen from the whole system ------------------------------------

  /** The worker may move on if live reservations appear only as the first execution of
      a request in flight, and nothing in flight is forgotten. */
  ghost predicate Moves(s: System, w': Worker, q: ResourceRequest) {
    var w := s.world.worker;
    && WorkerOk(w') && HeldOk(w') && LiveStep(w, w', q)
    && w.lastLease <= w'.lastLease && w.nextReservation <= w'.nextReservation
    && (q.Reserve? ==> Harmless(s.ledger, w, (q.lease.id, q.id)))
    && (forall k: Key | InFlight(s.world, k) && Inert(w, k) :: Inert(w', k))
  }

  lemma MoveCovered(s: System, w': Worker, q: ResourceRequest)
    requires Inv(s) && Moves(s, w', q)
    ensures Covered(s.ledger, w')
  {
    var w := s.world.worker;
    forall id | IsLive(w', id) ensures Owes(s.ledger, KeyOf(w'.reservations[id]), id) {
      if !IsLive(w, id) || KeyOf(w'.reservations[id]) != KeyOf(w.reservations[id]) {
        var k := (q.lease.id, q.id);
        assert Awaits(s.ledger, k);
        var e :| e in s.ledger && AwaitsOutcome(e, k);
        assert Covers(e, k, id);
      }
    }
  }

  lemma MoveReplies(s: System, w': Worker, q: ResourceRequest)
    requires Inv(s) && Moves(s, w', q)
    ensures forall r | r in s.world.replies :: ReplyOk(w', r)
  {
    var w := s.world.worker;
    forall r | r in s.world.replies ensures ReplyOk(w', r) {
      assert ReplyOk(w, r);
      if r.Answer? {
        SoundSurvivesCreation(w, w', q, r.q, r.result);
        if Decisive(r.q, r.result) { assert InFlight(s.world, (r.q.lease.id, r.q.id)); }
      }
    }
  }

  lemma MoveKeeps(s: System, w': Worker, q: ResourceRequest, issued': map<LeaseId, Incarnation>)
    requires Inv(s) && Moves(s, w', q)
    requires IssuedOk(w', issued')
    requires forall l | l in s.world.issued :: l in issued' && issued'[l] == s.world.issued[l]
    ensures Inv(System(s.ledger, s.world.(worker := w', issued := issued')))
  {
    var world' := s.world.(worker := w', issued := issued');
    MoveCovered(s, w', q);
    MoveReplies(s, w', q);
    assert ProofsOk(world') by {
      forall l | l in world'.proofs ensures PurgedBefore(w', l) {
        assert PurgedBefore(s.world.worker, l);
      }
    }
    assert RequestsOk(s.ledger, world') by {
      forall r | r in world'.requests && r.Reserve?
        ensures Harmless(s.ledger, w', (r.lease.id, r.id))
      {
        assert InFlight(s.world, (r.lease.id, r.id));
        assert Harmless(s.ledger, s.world.worker, (r.lease.id, r.id));
      }
    }
    assert LedgerOk(s.ledger, world') by {
      forall e | e in s.ledger ensures EntryOk(e, world') { assert EntryOk(e, s.world); }
    }
  }

  /** A stand-in for "no request was served". */
  const NO_REQUEST: ResourceRequest := Commit(Lease(0, 0), 0, 0)

  lemma QuietMove(s: System, w': Worker)
    requires Inv(s) && WorkerOk(w') && HeldOk(w') && NoNewLive(s.world.worker, w')
    requires s.world.worker.lastLease <= w'.lastLease && s.world.worker.nextReservation <= w'.nextReservation
    requires forall k: Key | InFlight(s.world, k) && Inert(s.world.worker, k) :: Inert(w', k)
    ensures Moves(s, w', NO_REQUEST)
  {}

  // ----- Ledger edits ----------------------------------------------------------------------

  /** The entry may go: all it covered is named by what stays, and its request can no
      longer create anything. */
  ghost predicate Excused(e: Obligation, l': Entries, w: Worker) {
    && (forall id | IsLive(w, id) && Covers(e, KeyOf(w.reservations[id]), id) ::
          Owes(l', KeyOf(w.reservations[id]), id))
    && (e.target.UnresolvedReserve? ==>
          Awaits(l', (e.lease.id, e.target.request)) || Inert(w, (e.lease.id, e.target.request)))
  }

  ghost predicate EditOk(l: Entries, l': Entries, w: Worker) {
    forall e | e in l :: e in l' || Excused(e, l', w)
  }

  lemma EditKeeps(s: System, l': Entries)
    requires Inv(s) && LedgerOk(l', s.world) && EditOk(s.ledger, l', s.world.worker)
    ensures Inv(System(l', s.world))
  {
    var w := s.world.worker;
    forall id | IsLive(w, id) ensures Owes(l', KeyOf(w.reservations[id]), id) {
      var e :| e in s.ledger && Covers(e, KeyOf(w.reservations[id]), id);
    }
    forall q | q in s.world.requests && q.Reserve? ensures Harmless(l', w, (q.lease.id, q.id)) {
      var k := (q.lease.id, q.id);
      assert Harmless(s.ledger, w, k);
      if !Inert(w, k) {
        var e :| e in s.ledger && AwaitsOutcome(e, k);
        assert e in l' || Excused(e, l', w);
      }
    }
  }

  /** An entry that survives with other bookkeeping covers the same. */
  lemma SameDebt(e: Obligation, d: Obligation, l': Entries, w: Worker)
    requires d in l' && d.lease == e.lease && d.target == e.target
    ensures Excused(e, l', w)
  {
    forall id | IsLive(w, id) && Covers(e, KeyOf(w.reservations[id]), id)
      ensures Owes(l', KeyOf(w.reservations[id]), id)
    { assert Covers(d, KeyOf(w.reservations[id]), id); }
    if e.target.UnresolvedReserve? { assert AwaitsOutcome(d, (e.lease.id, e.target.request)); }
  }

  lemma TrackedOk(s: System, o: Obligation)
    requires Inv(s) && EntryOk(o, s.world)
    ensures Inv(System(Tracked(s.ledger, o), s.world))
  {
    EditKeeps(s, Tracked(s.ledger, o));
  }

  lemma ReserveEdit(s: System, q: ResourceRequest, res: ResourceResult, origin: nat)
    requires Inv(s) && q.Reserve? && Answer(q, res) in s.world.replies
    ensures EditOk(s.ledger, AfterReserve(s.ledger, q, res, origin), s.world.worker)
    ensures LedgerOk(AfterReserve(s.ledger, q, res, origin), s.world)
  {
    var l, w, k := s.ledger, s.world.worker, (q.lease.id, q.id);
    var from := UnresolvedReserve(q.id, q.class_, q.bytes);
    var l' := AfterReserve(l, q, res, origin);
    assert ReplyOk(w, Answer(q, res));
    match SuccessfulReservation(res, q.lease, q.class_, q.bytes)
    case Some(r) =>
      var to := ReservationTarget(r);
      ReplacedMembers(l, from, to, q.lease, origin);
      forall e | e in l && e !in l' ensures Excused(e, l', w) {
        var d := Resolved(e, to, origin);
        forall id | IsLive(w, id) && Covers(e, KeyOf(w.reservations[id]), id)
          ensures Owes(l', KeyOf(w.reservations[id]), id)
        {
          assert Keyed(w, k, id);
          assert Covers(d, k, id);
        }
      }
    case None =>
      if RefusalProvesAbsence(res, q.lease) {
        RetainMembers(l, e => !Matches(e, from, q.lease));
        forall e | e in l && e !in l' ensures Excused(e, l', w) {
          forall id | IsLive(w, id) ensures !Covers(e, KeyOf(w.reservations[id]), id) {
            assert !Keyed(w, k, id);
          }
        }
      }
  }

  /** Entries for a reservation that ended or was taken over can go. */
  lemma EndedEdit(l: Entries, l': Entries, id: ReservationId, lease: Lease, w: Worker)
    requires !IsLive(w, id)
    requires forall e | e in l :: e in l' || Matches(e, ReservationTarget(id), lease)
    ensures EditOk(l, l', w)
  {}

  lemma ReleaseEdit(s: System, q: ResourceRequest, res: ResourceResult)
    requires Inv(s) && q.Release? && Answer(q, res) in s.world.replies
    ensures EditOk(s.ledger, AfterRelease(s.ledger, q, res), s.world.worker)
    ensures LedgerOk(AfterRelease(s.ledger, q, res), s.world)
  {
    assert ReplyOk(s.world.worker, Answer(q, res));
    var target := ReservationTarget(q.reservation);
    if ReleaseTerminal(res, q.lease, q.reservation) {
      RetainMembers(s.ledger, e => !Matches(e, target, q.lease));
      EndedEdit(s.ledger, Removed(s.ledger, target, q.lease), q.reservation, q.lease, s.world.worker);
    }
  }

  lemma TakenEdit(s: System, reply: Reply, origin: nat)
    requires Inv(s) && reply.Taken? && reply in s.world.replies
    ensures EditOk(s.ledger, AfterTaken(s.ledger, reply, origin), s.world.worker)
    ensures LedgerOk(AfterTaken(s.ledger, reply, origin), s.world)
  {
    assert ReplyOk(s.world.worker, reply);
    var target := ReservationTarget(reply.reservation);
    if reply.buffer.Some? {
      ReplacedMembers(s.ledger, target, BufferTarget(reply.buffer.value), reply.lease, origin);
    } else {
      RetainMembers(s.ledger, e => !Matches(e, target, reply.lease));
    }
    EndedEdit(s.ledger, AfterTaken(s.ledger, reply, origin), reply.reservation, reply.lease, s.world.worker);
  }

  lemma MarkEdit(s: System, target: Target, lease: Lease)
    requires Inv(s)
    ensures EditOk(s.ledger, MarkedAmbiguous(s.ledger, target, lease), s.world.worker)
    ensures LedgerOk(MarkedAmbiguous(s.ledger, target, lease), s.world)
  {
    var l' := MarkedAmbiguous(s.ledger, target, lease);
    MarkedMembers(s.ledger, target, lease);
    forall e | e in s.ledger && e !in l' ensures Excused(e, l', s.world.worker) {
      SameDebt(e, e.(knowledge := Ambiguous), l', s.world.worker);
    }
  }

  /** An entry of an older lease that covers nothing live: its request is dead. */
  lemma OldEntry(s: System, e: Obligation, l': Entries)
    requires Inv(s) && e in s.ledger && s.world.manager.Some?
    requires e.lease.id < s.world.manager.value.id
    requires forall id | IsLive(s.world.worker, id) :: s.world.worker.reservations[id].lease != e.lease.id
    ensures Excused(e, l', s.world.worker)
  {
    assert EntryOk(e, s.world);
  }

  lemma ReconnectEdit(s: System)
    requires Inv(s) && s.world.manager.Some?
    ensures EditOk(s.ledger, Reconnected(s.ledger, s.world.manager.value), s.world.worker)
    ensures LedgerOk(Reconnected(s.ledger, s.world.manager.value), s.world)
  {
    var l, w, lease := s.ledger, s.world.worker, s.world.manager.value;
    var keep := (e: Obligation) => SurvivesReconnect(e, lease);
    var mark := (e: Obligation) => Reclassified(e, lease);
    var kept := Retain(l, keep);
    var l' := Reconnected(l, lease);
    RetainMembers(l, keep);
    EachMembers(kept, mark);
    assert l' == Each(kept, mark);
    forall e | e in l ensures e in l' || Excused(e, l', w) {
      assert EntryOk(e, s.world);
      if SurvivesReconnect(e, lease) {
        SameDebt(e, mark(e), l', w);
      } else if !e.target.BufferTarget? {
        forall id | IsLive(w, id) ensures w.reservations[id].lease != e.lease.id {}
        OldEntry(s, e, l');
      }
    }
    forall d | d in l' ensures EntryOk(d, s.world) {
      var e :| e in kept && d == mark(e);
      assert EntryOk(e, s.world);
    }
  }

  lemma PurgedEdit(s: System)
    requires Inv(s) && s.world.manager.Some? && s.world.manager.value.id in s.world.proofs
    ensures EditOk(s.ledger, Purged(s.ledger, s.world.manager.value), s.world.worker)
    ensures LedgerOk(Purged(s.ledger, s.world.manager.value), s.world)
  {
    var l, lease := s.ledger, s.world.manager.value;
    var l' := Purged(l, lease);
    RetainMembers(l, e => !PurgeSettles(e, lease));
    forall e | e in l && e !in l' ensures Excused(e, l', s.world.worker) {
      assert EntryOk(e, s.world);
      OldEntry(s, e, l');
    }
  }

  lemma DropBufferEdit(s: System, buffer: BufferId, lease: Lease)
    requires Inv(s)
    ensures EditOk(s.ledger, Removed(s.ledger, BufferTarget(buffer), lease), s.world.worker)
    ensures LedgerOk(Removed(s.ledger, BufferTarget(buffer), lease), s.world)
  {
    RetainMembers(s.ledger, e => !Matches(e, BufferTarget(buffer), lease));
  }

  // ----- Steps --------------------------------------------------------------------------

  predicate IsEdit(step: Step) {
    || step.StartReserve? || step.RecordUnsent? || step.BeginReconcile? || step.HandleReserve? || step.HandleRelease?
    || step.HandleTaken? || step.DropBuffer? || step.NoteAmbiguous? || step.ResolvePurged?
  }

  /** The entries that leave in a step are excused, and the rest is well formed. */
  lemma EditStep(s: System, step: Step)
    requires Inv(s) && Enabled(s, step) && IsEdit(step)
    ensures EditOk(s.ledger, NewLedger(s, step), s.world.worker)
    ensures Inv(System(NewLedger(s, step), s.world))
  {
    match step {
      case StartReserve(lease, id, class_, bytes, origin) =>
        TrackedOk(s, Obligation(lease, origin, UnresolvedReserve(id, class_, bytes), Ambiguous));
      case RecordUnsent(lease, id, class_, bytes, origin) =>
        TrackedOk(s, Obligation(lease, origin, UnresolvedReserve(id, class_, bytes), Ambiguous));
      case BeginReconcile => ReconnectEdit(s);
      case HandleReserve(q, res, origin) => ReserveEdit(s, q, res, origin);
      case HandleRelease(q, res) => ReleaseEdit(s, q, res);
      case HandleTaken(reply, origin) => TakenEdit(s, reply, origin);
      case DropBuffer(lease, buffer) => DropBufferEdit(s, buffer, lease);
      case NoteAmbiguous(target, lease) => MarkEdit(s, target, lease);
      case ResolvePurged => PurgedEdit(s);
    }
    EditKeeps(s, NewLedger(s, step));
  }

  /** After its edit a host step may also send requests, keep a purge proof or draw an id. */
  lemma SendKeeps(s: System, world': World)
    requires Inv(s)
    requires world' == s.world.(requests := world'.requests, proofs := world'.proofs, drawn := world'.drawn)
    requires ProofsOk(world') && RequestsOk(s.ledger, world')
    ensures Inv(System(s.ledger, world'))
  {
    forall e | e in s.ledger ensures EntryOk(e, world') { assert EntryOk(e, s.world); }
  }

  lemma StartReserveSends(s: System, step: Step)
    requires Inv(s) && Enabled(s, step) && step.StartReserve?
    ensures RequestsOk(NewLedger(s, step), NewWorld(s, step))
  {
    EditStep(s, step);
    var l', k := NewLedger(s, step), (step.lease.id, step.id);
    var o := Obligation(step.lease, step.origin, UnresolvedReserve(step.id, step.class_, step.bytes), Ambiguous);
    if |s.ledger| < MAX_CLEANUP_OBLIGATIONS {
      assert o in l' && AwaitsOutcome(o, k);
      assert Harmless(l', s.world.worker, k);
    }
  }

  lemma ReconcileSends(s: System)
    requires Inv(s) && Enabled(s, BeginReconcile)
    ensures RequestsOk(NewLedger(s, BeginReconcile), NewWorld(s, BeginReconcile))
  {
    EditStep(s, BeginReconcile);
    var lease, l' := s.world.manager.value, NewLedger(s, BeginReconcile);
    forall q | q in Replays(l', lease)
      ensures q.Reserve? && Harmless(l', s.world.worker, (q.lease.id, q.id))
    {
      var e :| e in l' && Due(e, lease) && e.target.UnresolvedReserve?
        && q == Reserve(lease, e.target.request, e.target.class_, e.target.bytes);
      assert AwaitsOutcome(e, (q.lease.id, q.id));
    }
  }

  lemma EditStepKeeps(s: System, step: Step)
    requires Inv(s) && Enabled(s, step) && IsEdit(step)
    ensures Inv(Next(s, step))
  {
    EditStep(s, step);
    var edited := System(NewLedger(s, step), s.world);
    if step.StartReserve? { StartReserveSends(s, step); }
    if step.BeginReconcile? { ReconcileSends(s); }
    if step.HandleRelease? { assert ReplyOk(s.world.worker, Answer(step.lq, step.lres)); }
    SendKeeps(edited, NewWorld(s, step));
  }

  lemma NetworkStepKeeps(s: System, step: Step)
    requires Inv(s) && Enabled(s, step)
    requires step.Adopt? || step.StartCall? || step.LoseRequest? || step.LoseReply?
    ensures Inv(Next(s, step))
  {
    forall e | e in s.ledger ensures EntryOk(e, NewWorld(s, step)) { assert EntryOk(e, s.world); }
    if step.StartCall? { SendKeeps(s, NewWorld(s, step)); }
  }

  /** Reservations come only from the active lease of the running incarnation. */
  lemma TermIssued(w: Worker, w': Worker, issued: map<LeaseId, Incarnation>)
    requires IssuedOk(w, issued) && SameTerm(w, w')
    ensures IssuedOk(w', issued)
  {}

  /** A worker transition within one lease that grants nothing. */
  lemma TermMoveKeeps(s: System, w': Worker)
    requires Inv(s) && WorkerOk(w') && HeldOk(w')
    requires NoNewLive(s.world.worker, w') && SameTerm(s.world.worker, w')
    ensures Inv(System(s.ledger, s.world.(worker := w')))
  {
    QuietMove(s, w');
    TermIssued(s.world.worker, w', s.world.issued);
    MoveKeeps(s, w', NO_REQUEST, s.world.issued);
    assert s.world.(worker := w', issued := s.world.issued) == s.world.(worker := w');
  }

  /** A true answer may be added to those in flight. */
  lemma ReplyKeeps(s: System, reply: Reply)
    requires Inv(s) && ReplyOk(s.world.worker, reply)
    ensures Inv(System(s.ledger, s.world.(replies := s.world.replies + {reply})))
  {
    var world' := s.world.(replies := s.world.replies + {reply});
    forall e | e in s.ledger ensures EntryOk(e, world') { assert EntryOk(e, s.world); }
  }

  lemma ServeMoves(s: System, q: ResourceRequest, health: Health)
    requires Inv(s) && q in s.world.requests
    ensures var (w', res) := ApplyResource(s.world.worker, q, health);
            Inv(System(s.ledger, s.world.(worker := w'))) && ReplyOk(w', Answer(q, res))
  {
    var w := s.world.worker;
    var (w', res) := ApplyResource(w, q, health);
    ApplyKeeps(w, q, health);
    ApplyHeld(w, q, health);
    TermIssued(w, w', s.world.issued);
    MoveKeeps(s, w', q, s.world.issued);
    assert s.world.(worker := w', issued := s.world.issued) == s.world.(worker := w');
  }

  /** A worker move and an answer to it, as one change of the world. */
  function Answering(s: System, w': Worker, reply: Reply): System {
    System(s.ledger, s.world.(worker := w', replies := s.world.replies + {reply}))
  }

  lemma AnsweringKeeps(s: System, w': Worker, reply: Reply)
    requires Inv(System(s.ledger, s.world.(worker := w'))) && ReplyOk(w', reply)
    ensures Inv(Answering(s, w', reply))
  {
    ReplyKeeps(System(s.ledger, s.world.(worker := w')), reply);
  }

  lemma ServeNext(s: System, q: ResourceRequest, health: Health)
    requires q in s.world.requests
    ensures var (w', res) := ApplyResource(s.world.worker, q, health);
            Next(s, Serve(q, health)) == Answering(s, w', Answer(q, res))
  {}

  lemma TakeNext(s: System, lease: Lease, id: ReservationId, class_: ResourceClass,
                 exact: Option<nat>, buffer: Option<BufferId>)
    ensures var (w', ok) := Consume(s.world.worker, lease, id, class_, exact);
            Next(s, ServeTake(lease, id, class_, exact, buffer))
            == if ok then Answering(s, w', Taken(lease, id, buffer)) else System(s.ledger, s.world.(worker := w'))
  {}

  lemma ServeKeeps(s: System, q: ResourceRequest, health: Health)
    requires Inv(s) && q in s.world.requests
    ensures Inv(Next(s, Serve(q, health)))
  {
    var (w', res) := ApplyResource(s.world.worker, q, health);
    ServeMoves(s, q, health);
    AnsweringKeeps(s, w', Answer(q, res));
    ServeNext(s, q, health);
  }

  lemma TakeMoves(s: System, lease: Lease, id: ReservationId, class_: ResourceClass, exact: Option<nat>)
    requires Inv(s)
    ensures var (w', ok) := Consume(s.world.worker, lease, id, class_, exact);
            && Inv(System(s.ledger, s.world.(worker := w')))
            && (ok ==> id < w'.nextReservation && !IsLive(w', id))
  {
    var w := s.world.worker;
    ConsumeKeeps(w, lease, id, class_, exact);
    ConsumeHeld(w, lease, id, class_, exact);
    TermMoveKeeps(s, Consume(w, lease, id, class_, exact).0);
  }

  lemma TakeKeeps(s: System, lease: Lease, id: ReservationId, class_: ResourceClass,
                  exact: Option<nat>, buffer: Option<BufferId>)
    requires Inv(s)
    ensures Inv(Next(s, ServeTake(lease, id, class_, exact, buffer)))
  {
    var (w', ok) := Consume(s.world.worker, lease, id, class_, exact);
    TakeMoves(s, lease, id, class_, exact);
    if ok { AnsweringKeeps(s, w', Taken(lease, id, buffer)); }
    TakeNext(s, lease, id, class_, exact, buffer);
  }

  /** A worker transition that may change the lease but grants nothing. */
  lemma CalmMoveKeeps(s: System, w': Worker, issued': map<LeaseId, Incarnation>)
    requires Inv(s) && WorkerOk(w') && HeldOk(w') && NoNewLive(s.world.worker, w')
    requires s.world.worker.lastLease <= w'.lastLease && s.world.worker.nextReservation <= w'.nextReservation
    requires forall k: Key | InFlight(s.world, k) && Inert(s.world.worker, k) :: Inert(w', k)
    requires IssuedOk(w', issued')
    requires forall l | l in s.world.issued :: l in issued' && issued'[l] == s.world.issued[l]
    ensures Inv(System(s.ledger, s.world.(worker := w', issued := issued')))
  {
    QuietMove(s, w');
    MoveKeeps(s, w', NO_REQUEST, issued');
  }

  lemma ForgetAnswerKeeps(s: System, k: Key)
    requires Inv(s) && Enabled(s, ForgetAnswer(k))
    ensures Inv(Next(s, ForgetAnswer(k)))
  {
    ForgetMemoryKeeps(s.world.worker, k);
    CalmMoveKeeps(s, ForgetResponse(s.world.worker, k), s.world.issued);
  }

  lemma ForgetDecidedKeeps(s: System, k: Key)
    requires Inv(s) && Enabled(s, ForgetDecided(k))
    ensures Inv(Next(s, ForgetDecided(k)))
  {
    ForgetMemoryKeeps(s.world.worker, k);
    CalmMoveKeeps(s, ForgetDecision(s.world.worker, k), s.world.issued);
  }

  /** A new lease is issued for the running incarnation. */
  lemma GrantIssued(w: Worker, issued: map<LeaseId, Incarnation>)
    requires IssuedOk(w, issued) && w.active.None?
    ensures IssuedOk(GrantLease(w), issued[w.lastLease + 1 := w.incarnation])
  {}

  lemma GrantMemory(w: Worker, k: Key)
    requires Inert(w, k)
    ensures Inert(GrantLease(w), k)
  {}

  lemma GrantNext(s: System)
    ensures var w := s.world.worker;
            Next(s, Grant)
            == if w.active.None?
               then System(s.ledger, s.world.(worker := GrantLease(w),
                                                  issued := s.world.issued[w.lastLease + 1 := w.incarnation]))
               else s
  {}

  lemma GrantKeeps(s: System)
    requires Inv(s)
    ensures Inv(Next(s, Grant))
  {
    var w := s.world.worker;
    if w.active.None? {
      LeaseChangeKeeps(w);
      GrantIssued(w, s.world.issued);
      forall k: Key | Inert(w, k) ensures Inert(GrantLease(w), k) { GrantMemory(w, k); }
      CalmMoveKeeps(s, GrantLease(w), s.world.issued[w.lastLease + 1 := w.incarnation]);
    }
    GrantNext(s);
  }

  lemma EndKeeps(s: System)
    requires Inv(s)
    ensures Inv(Next(s, End))
  {
    LeaseChangeKeeps(s.world.worker);
    CalmMoveKeeps(s, EndLease(s.world.worker), s.world.issued);
  }

  lemma RebootKeeps(s: System)
    requires Inv(s)
    ensures Inv(Next(s, Reboot))
  {
    RestartKeeps(s.world.worker);
    NoneHeld(s.world.worker.nextReservation);
    CalmMoveKeeps(s, Restart(s.world.worker), s.world.issued);
  }

  lemma EndOwnedKeeps(s: System, id: ReservationId)
    requires Inv(s)
    ensures Inv(Next(s, EndOwned(id)))
  {
    ReleaseConsumedKeeps(s.world.worker, id);
    EndingsHeld(s.world.worker, id);
    TermMoveKeeps(s, ReleaseConsumed(s.world.worker, id));
  }

  lemma ExpireOneKeeps(s: System, id: ReservationId)
    requires Inv(s)
    ensures Inv(Next(s, ExpireOne(id)))
  {
    ExpireKeeps(s.world.worker, id);
    EndingsHeld(s.world.worker, id);
    TermMoveKeeps(s, Expire(s.world.worker, id));
  }

  lemma DropEndedKeeps(s: System, id: ReservationId)
    requires Inv(s)
    ensures Inv(Next(s, DropEnded(id)))
  {
    ForgetReservationKeeps(s.world.worker, id);
    EndingsHeld(s.world.worker, id);
    TermMoveKeeps(s, ForgetReservation(s.world.worker, id));
  }

  lemma StepKeeps(s: System, step: Step)
    requires Inv(s) && Enabled(s, step)
    ensures Inv(Next(s, step))
  {
    if IsEdit(step) {
      EditStepKeeps(s, step);
    } else {
      match step
      case Adopt(_) => NetworkStepKeeps(s, step);
      case StartCall(_) => NetworkStepKeeps(s, step);
      case LoseRequest(_) => NetworkStepKeeps(s, step);
      case LoseReply(_) => NetworkStepKeeps(s, step);
      case Serve(q, health) => ServeKeeps(s, q, health);
      case ServeTake(lease, id, class_, exact, buffer) => TakeKeeps(s, lease, id, class_, exact, buffer);
      case EndOwned(id) => EndOwnedKeeps(s, id);
      case ExpireOne(id) => ExpireOneKeeps(s, id);
      case DropEnded(id) => DropEndedKeeps(s, id);
      case ForgetAnswer(k) => ForgetAnswerKeeps(s, k);
      case ForgetDecided(k) => ForgetDecidedKeeps(s, k);
      case Grant => GrantKeeps(s);
      case End => EndKeeps(s);
      case Reboot => RebootKeeps(s);
    }
  }
}
