/** Reconciliation after a reconnect, run by the manager thread while messages are lost, the
    worker and the network move on, and other host threads still edit the ledger on the answers
    they hold. */
module Reconcile {
  import opened Basics
  import opened Wire
  import opened Worker
  import opened WorkerFacts
  import opened HostView
  import opened Ledger
  import opened Protocol
  import opened ProtocolProof
  import opened ProtocolRuns
  import opened Origins

  // ----- What the others may do --------------------------------------------------------------

  /** Everything but: what only the manager does, sending a new reserve under the lease, and the
      loss of a reserve under the lease, which the manager has yet to replay. A thread of an
      earlier session may still record a reserve under the lease that it may no longer send. */
  predicate Outside(step: Step, lease: LeaseId) {
    && !step.BeginReconcile? && !step.Adopt?
    && !(step.StartReserve? && step.lease.id == lease)
    && !(step.LoseRequest? && step.lost.Reserve? && step.lost.lease.id == lease)
  }

  /** The manager's own state: invariant, ids, origins, and its lease. */
  ghost predicate Stable(s: System, made: Made, lease: Lease) {
    Inv(s) && IdsOk(s.ledger, s.world.drawn) && OriginOk(s, made) && s.world.manager == Some(lease)
  }

  lemma OutsideFrame(s: System, step: Step, lease: LeaseId)
    requires Outside(step, lease)
    ensures NewWorld(s, step).manager == s.world.manager
  {}

  lemma OutsideKeeps(s: System, made: Made, step: Step, lease: Lease)
    requires Stable(s, made, lease) && Outside(step, lease.id) && Enabled(s, step)
    ensures Stable(Next(s, step), NextMade(s, step, made), lease)
  {
    StepKeeps(s, step);
    EditIds(s, step);
    StepOrigin(s, step, made);
    OutsideFrame(s, step, lease.id);
  }

  // ----- What stays true meanwhile -----------------------------------------------------------

  /** Request ids of the unresolved entries of the lease. */
  ghost function Ids(l: Entries, lease: LeaseId): set<RequestId> {
    set e | e in l && e.lease.id == lease && e.target.UnresolvedReserve? :: e.target.request
  }

  /** Targets of the unresolved entries of the lease. */
  ghost function Waiting(l: Entries, lease: LeaseId): set<Target> {
    set e | e in l && e.lease.id == lease && e.target.UnresolvedReserve? :: e.target
  }

  /** Reservations that entries of the lease name. */
  ghost function Named(l: Entries, lease: LeaseId): set<ReservationId> {
    set e | e in l && e.lease.id == lease && e.target.ReservationTarget? :: e.target.reservation
  }

  /** Request ids of the reserves of the lease that are on their way. */
  ghost function Sent(world: World, lease: LeaseId): set<RequestId> {
    set q | q in world.requests && q.Reserve? && q.lease.id == lease :: q.id
  }

  /** A live reservation of the lease was live before, or its request is on its way and
      unresolved. */
  ghost predicate LiveLater(s: System, w': Worker, lease: LeaseId) {
    var w := s.world.worker;
    && w.nextReservation <= w'.nextReservation
    && (forall r: ReservationId | IsLive(w', r) :: IsLive(w, r) || r >= w.nextReservation)
    && (forall r | IsLive(w', r) && w'.reservations[r].lease == lease ::
          || (IsLive(w, r) && KeyOf(w'.reservations[r]) == KeyOf(w.reservations[r]))
          || w'.reservations[r].request in Ids(s.ledger, lease) * Sent(s.world, lease))
  }

  /** An unresolved request of the lease was unresolved before, or its id is new; a reservation
      newly named was made by an unresolved request. */
  ghost predicate LedgerLater(l: Entries, drawn: set<RequestId>, l': Entries, made': Made, lease: LeaseId) {
    && (forall id | id in Ids(l', lease) :: id in Ids(l, lease) || id !in drawn)
    && (forall t | t in Waiting(l', lease) :: t in Waiting(l, lease) || t.request !in drawn)
    && (forall r | r in Named(l', lease) ::
          r in Named(l, lease) || (r in made' && made'[r].0 == lease && made'[r].1 in Ids(l, lease)))
  }

  /** The record of origins grows, under the lease only by what was on its way. */
  ghost predicate MadeLater(s: System, made: Made, made': Made, lease: LeaseId) {
    && (forall r | r in made :: r in made' && made'[r] == made[r])
    && (forall r | r in made' && made'[r].0 == lease :: r in made || made'[r].1 in Sent(s.world, lease))
  }

  /** The same reserves of the lease are on their way, and ids are drawn for good. */
  ghost predicate WorldLater(world: World, world': World, lease: LeaseId) {
    && (forall q | q in world.requests && q.Reserve? && q.lease.id == lease :: q in world'.requests)
    && Sent(world', lease) <= Sent(world, lease) && world.drawn <= world'.drawn
  }

  ghost predicate Later(s: System, made: Made, s': System, made': Made, lease: LeaseId) {
    && LiveLater(s, s'.world.worker, lease)
    && LedgerLater(s.ledger, s.world.drawn, s'.ledger, made', lease)
    && MadeLater(s, made, made', lease)
    && WorldLater(s.world, s'.world, lease)
  }

  lemma LaterTrans(s: System, made: Made, s': System, made': Made, s'': System, made'': Made, lease: LeaseId)
    requires MessagesOrigin(s.world, made)
    requires Later(s, made, s', made', lease) && Later(s', made', s'', made'', lease)
    ensures Later(s, made, s'', made'', lease)
  {
    assert Sent(s.world, lease) <= s.world.drawn;
    forall r | r in Named(s''.ledger, lease)
      ensures r in Named(s.ledger, lease)
           || (r in made'' && made''[r].0 == lease && made''[r].1 in Ids(s.ledger, lease))
    {
      if r in Named(s'.ledger, lease) {
        assert r in made' ==> made''[r] == made'[r];
      } else {
        assert r in made' || made''[r].1 in Sent(s'.world, lease);
        assert made''[r].1 in s.world.drawn;
      }
    }
  }

  // ----- One step of the others --------------------------------------------------------------

  ghost predicate Subset(l: Entries, l': Entries) {
    forall d | d in l' :: exists e :: e in l && e.target == d.target && e.lease == d.lease
  }

  lemma SubsetLater(l: Entries, drawn: set<RequestId>, l': Entries, made: Made, lease: LeaseId)
    requires Subset(l, l')
    ensures LedgerLater(l, drawn, l', made, lease)
  {
    forall id | id in Ids(l', lease) ensures id in Ids(l, lease) {
      var d :| d in l' && d.lease.id == lease && d.target.UnresolvedReserve? && d.target.request == id;
    }
    forall t | t in Waiting(l', lease) ensures t in Waiting(l, lease) {
      var d :| d in l' && d.lease.id == lease && d.target.UnresolvedReserve? && d.target == t;
    }
    forall r | r in Named(l', lease) ensures r in Named(l, lease) {
      var d :| d in l' && d.lease.id == lease && d.target.ReservationTarget? && d.target.reservation == r;
    }
  }

  lemma RetainLater(l: Entries, drawn: set<RequestId>, keep: Obligation -> bool, made: Made, lease: LeaseId)
    ensures LedgerLater(l, drawn, Retain(l, keep), made, lease)
  {
    RetainMembers(l, keep);
    SubsetLater(l, drawn, Retain(l, keep), made, lease);
  }

  lemma MarkLater(l: Entries, drawn: set<RequestId>, target: Target, of: Lease, made: Made, lease: LeaseId)
    ensures LedgerLater(l, drawn, MarkedAmbiguous(l, target, of), made, lease)
  {
    MarkedMembers(l, target, of);
    SubsetLater(l, drawn, MarkedAmbiguous(l, target, of), made, lease);
  }

  /** An entry gets another target: for a reservation, one that its request made. */
  lemma ReplaceLater(l: Entries, drawn: set<RequestId>, from: Target, to: Target, of: Lease,
                     origin: nat, made: Made, lease: LeaseId)
    requires !to.UnresolvedReserve?
    requires to.ReservationTarget? ==>
               from.UnresolvedReserve? && to.reservation in made && made[to.reservation] == (of.id, from.request)
    ensures LedgerLater(l, drawn, Replaced(l, from, to, of, origin), made, lease)
  {
    var l' := Replaced(l, from, to, of, origin);
    ReplacedMembers(l, from, to, of, origin);
    forall id | id in Ids(l', lease) ensures id in Ids(l, lease) {
      var d :| d in l' && d.lease.id == lease && d.target.UnresolvedReserve? && d.target.request == id;
      assert d in l;
    }
    forall t | t in Waiting(l', lease) ensures t in Waiting(l, lease) {
      var d :| d in l' && d.lease.id == lease && d.target.UnresolvedReserve? && d.target == t;
      assert d in l;
    }
    forall r | r in Named(l', lease)
      ensures r in Named(l, lease) || (r in made && made[r].0 == lease && made[r].1 in Ids(l, lease))
    {
      var d :| d in l' && d.lease.id == lease && d.target.ReservationTarget? && d.target.reservation == r;
      if d !in l {
        var e :| e in l && Matches(e, from, of) && d == Resolved(e, to, origin);
        assert e.target.request in Ids(l, lease);
      }
    }
  }

  lemma TrackLater(l: Entries, drawn: set<RequestId>, o: Obligation, made: Made, lease: LeaseId)
    requires o.target.UnresolvedReserve? && (o.lease.id == lease ==> o.target.request !in drawn)
    ensures LedgerLater(l, drawn, Tracked(l, o), made, lease)
  {
    var l' := Tracked(l, o);
    assert forall e | e in l' :: e in l || e == o;
    assert Named(l', lease) == Named(l, lease);
  }

  lemma ReserveLater(l: Entries, drawn: set<RequestId>, q: ResourceRequest, res: ResourceResult,
                     origin: nat, made: Made, lease: LeaseId)
    requires q.Reserve? && ResultOrigin(made, q, res)
    ensures LedgerLater(l, drawn, AfterReserve(l, q, res, origin), made, lease)
  {
    var from := UnresolvedReserve(q.id, q.class_, q.bytes);
    match SuccessfulReservation(res, q.lease, q.class_, q.bytes)
    case Some(r) => ReplaceLater(l, drawn, from, ReservationTarget(r), q.lease, origin, made, lease);
    case None => RetainLater(l, drawn, e => !Matches(e, from, q.lease), made, lease);
  }

  lemma TakenLater(l: Entries, drawn: set<RequestId>, reply: Reply, origin: nat, made: Made, lease: LeaseId)
    requires reply.Taken?
    ensures LedgerLater(l, drawn, AfterTaken(l, reply, origin), made, lease)
  {
    var target := ReservationTarget(reply.reservation);
    if reply.buffer.Some? {
      ReplaceLater(l, drawn, target, BufferTarget(reply.buffer.value), reply.lease, origin, made, lease);
    } else {
      RetainLater(l, drawn, e => !Matches(e, target, reply.lease), made, lease);
    }
  }

  lemma EditLater(s: System, made: Made, step: Step, lease: LeaseId)
    requires Enabled(s, step) && Outside(step, lease) && OriginOk(s, made)
    ensures LedgerLater(s.ledger, s.world.drawn, NewLedger(s, step), made, lease)
  {
    var l, drawn := s.ledger, s.world.drawn;
    match step {
      case StartReserve(of, id, class_, bytes, origin) =>
        TrackLater(l, drawn, Obligation(of, origin, UnresolvedReserve(id, class_, bytes), Ambiguous), made, lease);
      case RecordUnsent(of, id, class_, bytes, origin) =>
        TrackLater(l, drawn, Obligation(of, origin, UnresolvedReserve(id, class_, bytes), Ambiguous), made, lease);
      case HandleReserve(q, res, origin) => ReserveLater(l, drawn, q, res, origin, made, lease);
      case HandleRelease(q, res) =>
        RetainLater(l, drawn, e => !Matches(e, ReservationTarget(q.reservation), q.lease), made, lease);
      case HandleTaken(reply, origin) => TakenLater(l, drawn, reply, origin, made, lease);
      case DropBuffer(of, buffer) => RetainLater(l, drawn, e => !Matches(e, BufferTarget(buffer), of), made, lease);
      case NoteAmbiguous(target, of) => MarkLater(l, drawn, target, of, made, lease);
      case ResolvePurged => RetainLater(l, drawn, e => !PurgeSettles(e, s.world.manager.value), made, lease);
      case _ =>
    }
  }

  /** A reserve in flight can only create what an unresolved entry awaits. */
  lemma ServeLater(s: System, q: ResourceRequest, health: Health, lease: LeaseId)
    requires Inv(s) && q in s.world.requests
    ensures LiveLater(s, ApplyResource(s.world.worker, q, health).0, lease)
  {
    var w := s.world.worker;
    var w' := ApplyResource(w, q, health).0;
    ApplyKeeps(w, q, health);
    forall r | IsLive(w', r) && w'.reservations[r].lease == lease
      ensures (IsLive(w, r) && KeyOf(w'.reservations[r]) == KeyOf(w.reservations[r]))
           || w'.reservations[r].request in Ids(s.ledger, lease) * Sent(s.world, lease)
    {
      if !(IsLive(w, r) && KeyOf(w'.reservations[r]) == KeyOf(w.reservations[r])) {
        var e :| e in s.ledger && AwaitsOutcome(e, (q.lease.id, q.id));
      }
    }
  }

  lemma QuietLater(s: System, w': Worker, lease: LeaseId)
    requires NoNewLive(s.world.worker, w') && s.world.worker.nextReservation <= w'.nextReservation
    ensures LiveLater(s, w', lease)
  {}

  lemma WorkerLater(s: System, step: Step, lease: LeaseId)
    requires Inv(s) && Enabled(s, step)
    ensures LiveLater(s, NewWorker(s.world.worker, step), lease)
  {
    var w := s.world.worker;
    match step {
      case Serve(q, health) => ServeLater(s, q, health, lease);
      case ServeTake(of, id, class_, exact, _) => ConsumeKeeps(w, of, id, class_, exact);
      case EndOwned(id) => ReleaseConsumedKeeps(w, id);
      case ExpireOne(id) => ExpireKeeps(w, id);
      case DropEnded(id) => ForgetReservationKeeps(w, id);
      case ForgetAnswer(k) => ForgetMemoryKeeps(w, k);
      case ForgetDecided(k) => ForgetMemoryKeeps(w, k);
      case Grant => LeaseChangeKeeps(w);
      case End => LeaseChangeKeeps(w);
      case Reboot => RestartKeeps(w);
      case _ =>
    }
    if !step.Serve? { QuietLater(s, NewWorker(w, step), lease); }
  }

  lemma RequestsLater(s: System, step: Step, lease: LeaseId)
    requires Enabled(s, step) && Outside(step, lease)
    ensures WorldLater(s.world, NewWorld(s, step), lease)
  {
    var world' := NewWorld(s, step);
    assert forall q | q in world'.requests && q.Reserve? && q.lease.id == lease :: q in s.world.requests;
  }

  lemma OriginLater(s: System, made: Made, step: Step, lease: LeaseId)
    requires Enabled(s, step) && OriginOk(s, made)
    ensures MadeLater(s, made, NextMade(s, step, made), lease)
  {
    if step.Serve? && s.world.worker.nextReservation < NewWorker(s.world.worker, step).nextReservation {
      OnlyReservesMake(s.world.worker, step.request, step.health);
    }
  }

  lemma StepLater(s: System, made: Made, step: Step, lease: Lease)
    requires Stable(s, made, lease) && Outside(step, lease.id) && Enabled(s, step)
    ensures Later(s, made, Next(s, step), NextMade(s, step, made), lease.id)
  {
    WorkerLater(s, step, lease.id);
    EditLater(s, made, step, lease.id);
    RequestsLater(s, step, lease.id);
    OriginLater(s, made, step, lease.id);
    assert NextMade(s, step, made) == made || NewLedger(s, step) == s.ledger;
  }

  // ----- The work that is left ------------------------------------------------------------------

  function DueEntries(l: Entries, lease: Lease): Entries { Retain(l, e => Due(e, lease)) }

  function Replay(d: Obligation, lease: Lease): ResourceRequest
    requires d.target.UnresolvedReserve?
  {
    Reserve(lease, d.target.request, d.target.class_, d.target.bytes)
  }

  /** A due obligation from position `i` on names the reservation, or awaits the request. */
  ghost predicate Names(due: Entries, i: nat, r: ReservationId) {
    exists j :: i <= j < |due| && due[j].target == ReservationTarget(r)
  }

  ghost predicate Pends(due: Entries, i: nat, id: RequestId) {
    exists j :: i <= j < |due| && due[j].target.UnresolvedReserve? && due[j].target.request == id
  }

  /** No other unresolved entry of the lease has the target's request id. */
  ghost predicate Sole(l: Entries, lease: LeaseId, target: Target)
    requires target.UnresolvedReserve?
  {
    forall t | t in Waiting(l, lease) && t.request == target.request :: t == target
  }

  /** The due obligations, all of ids drawn by then, none of which is both named and pending. */
  ghost predicate DueOk(due: Entries, made: Made, lease: Lease, drawn: set<RequestId>) {
    && (forall j | 0 <= j < |due| :: due[j].lease == lease && !due[j].target.BufferTarget?)
    && (forall j | 0 <= j < |due| && due[j].target.UnresolvedReserve? :: due[j].target.request in drawn)
    && (forall j | 0 <= j < |due| && due[j].target.ReservationTarget? ::
          due[j].target.reservation in made && !Pends(due, 0, made[due[j].target.reservation].1))
  }

  /** Only ids drawn by then are on their way or made anything under the lease. */
  ghost predicate Closed(s: System, made: Made, lease: LeaseId, drawn: set<RequestId>) {
    && Sent(s.world, lease) <= drawn && drawn <= s.world.drawn
    && (forall r | r in made && made[r].0 == lease :: made[r].1 in drawn)
  }

  /** What holds before obligation `i` of a list made when the ids `drawn` had been drawn: the
      rest of the list accounts for all that is live under the lease and for all that was
      unresolved then, and what came before is gone. */
  ghost predicate Working(s: System, made: Made, lease: Lease, drawn: set<RequestId>, due: Entries, i: nat) {
    var w := s.world.worker;
    && i <= |due| && DueOk(due, made, lease, drawn) && Closed(s, made, lease.id, drawn)
    && (forall r | IsLive(w, r) && w.reservations[r].lease == lease.id ::
          Names(due, i, r) || Pends(due, i, w.reservations[r].request))
    && (forall id | id in Ids(s.ledger, lease.id) :: Pends(due, i, id) || id !in drawn)
    && (forall j | 0 <= j < i && due[j].target.ReservationTarget? ::
          due[j].target.reservation !in Named(s.ledger, lease.id))
    && (forall j | i <= j < |due| && due[j].target.UnresolvedReserve? ::
          Replay(due[j], lease) in s.world.requests && Sole(s.ledger, lease.id, due[j].target))
  }

  lemma WorkingLater(s: System, made: Made, s': System, made': Made, lease: Lease, drawn: set<RequestId>,
                     due: Entries, i: nat)
    requires Working(s, made, lease, drawn, due, i) && Later(s, made, s', made', lease.id)
    ensures Working(s', made', lease, drawn, due, i)
  {
    forall j | 0 <= j < i && due[j].target.ReservationTarget?
      ensures due[j].target.reservation !in Named(s'.ledger, lease.id)
    {
      var r := due[j].target.reservation;
      assert made'[r] == made[r] && (Pends(due, i, made[r].1) ==> Pends(due, 0, made[r].1));
    }
  }

  /** A reservation that is dead and no longer named is settled. */
  lemma NamedSettled(s: System, made: Made, lease: Lease, drawn: set<RequestId>, due: Entries, i: nat)
    requires Working(s, made, lease, drawn, due, i) && i < |due| && due[i].target.ReservationTarget?
    requires !IsLive(s.world.worker, due[i].target.reservation)
    requires due[i].target.reservation !in Named(s.ledger, lease.id)
    ensures Working(s, made, lease, drawn, due, i + 1)
  {
    var w := s.world.worker;
    forall r | IsLive(w, r) && w.reservations[r].lease == lease.id
      ensures Names(due, i + 1, r) || Pends(due, i + 1, w.reservations[r].request)
    {
      if Names(due, i, r) {
        var j :| i <= j < |due| && due[j].target == ReservationTarget(r);
        assert j != i;
      } else {
        StillPends(due, i, w.reservations[r].request);
      }
    }
    forall id | id in Ids(s.ledger, lease.id) && id in drawn ensures Pends(due, i + 1, id) { StillPends(due, i, id); }
  }

  lemma StillPends(due: Entries, i: nat, id: RequestId)
    requires Pends(due, i, id) && i < |due|
    requires due[i].target.UnresolvedReserve? ==> due[i].target.request != id
    ensures Pends(due, i + 1, id)
  {
    var j :| i <= j < |due| && due[j].target.UnresolvedReserve? && due[j].target.request == id;
    assert j != i;
  }

  /** A request that nothing awaits and nothing live came from is settled. */
  lemma PendingSettled(s: System, made: Made, lease: Lease, drawn: set<RequestId>, due: Entries, i: nat)
    requires Working(s, made, lease, drawn, due, i) && i < |due| && due[i].target.UnresolvedReserve?
    requires NoneLive(s.world.worker, (lease.id, due[i].target.request))
    requires due[i].target.request !in Ids(s.ledger, lease.id)
    ensures Working(s, made, lease, drawn, due, i + 1)
  {
    var w := s.world.worker;
    forall r | IsLive(w, r) && w.reservations[r].lease == lease.id
      ensures Names(due, i + 1, r) || Pends(due, i + 1, w.reservations[r].request)
    {
      assert !Keyed(w, (lease.id, due[i].target.request), r);
      if Names(due, i, r) {
        var j :| i <= j < |due| && due[j].target == ReservationTarget(r);
        assert j != i;
      } else {
        StillPends(due, i, w.reservations[r].request);
      }
    }
    forall id | id in Ids(s.ledger, lease.id) && id in drawn ensures Pends(due, i + 1, id) { StillPends(due, i, id); }
  }

  /** The reconnect edit drops the buffers and makes every entry of the lease due. */
  lemma AllDue(l: Entries, lease: Lease, d: Obligation)
    requires d in Reconnected(l, lease) && d.lease.id == lease.id
    ensures d in DueEntries(Reconnected(l, lease), lease) && !d.target.BufferTarget?
  {
    var l' := Reconnected(l, lease);
    var kept := Retain(l, e => SurvivesReconnect(e, lease));
    RetainMembers(l, e => SurvivesReconnect(e, lease));
    RetainMembers(l', e => Due(e, lease));
    var i :| 0 <= i < |l'| && l'[i] == d;
    assert l'[i] == Reclassified(kept[i], lease) && kept[i] in kept;
  }

  lemma BeginKeeps(s: System, made: Made, lease: Lease)
    requires Stable(s, made, lease)
    ensures Stable(Next(s, BeginReconcile), made, lease)
  {
    StepKeeps(s, BeginReconcile);
    EditIds(s, BeginReconcile);
    StepOrigin(s, BeginReconcile, made);
  }

  lemma BeginDueOk(s: System, made: Made, lease: Lease, due: Entries)
    requires Stable(s, made, lease)
    requires forall d | d in due :: d in s.ledger && d.lease.id == lease.id && !d.target.BufferTarget?
    ensures DueOk(due, made, lease, s.world.drawn)
  {
    forall j | 0 <= j < |due| ensures due[j].lease == lease && !due[j].target.BufferTarget? {
      assert due[j] in due && EntryOk(due[j], s.world);
    }
    forall j | 0 <= j < |due| && due[j].target.ReservationTarget?
      ensures due[j].target.reservation in made && !Pends(due, 0, made[due[j].target.reservation].1)
    {
      assert due[j] in due;
    }
  }

  lemma DistinctSole(l: Entries, lease: LeaseId, d: Obligation)
    requires Distinct(l) && d in l && d.target.UnresolvedReserve?
    ensures Sole(l, lease, d.target)
  {
    forall t | t in Waiting(l, lease) && t.request == d.target.request ensures t == d.target {
      var e :| e in l && e.lease.id == lease && e.target == t;
      var i :| 0 <= i < |l| && l[i] == d;
      var j :| 0 <= j < |l| && l[j] == e;
      assert i == j;
    }
  }

  /** The list has all entries of the lease, and their replays are on their way. */
  lemma ListedWorking(s: System, made: Made, lease: Lease, due: Entries)
    requires Stable(s, made, lease) && DueOk(due, made, lease, s.world.drawn)
    requires forall d | d in due :: d in s.ledger
    requires forall d | d in s.ledger && d.lease.id == lease.id :: exists j :: 0 <= j < |due| && due[j] == d
    requires forall d | d in due && d.target.UnresolvedReserve? :: Replay(d, lease) in s.world.requests
    ensures Working(s, made, lease, s.world.drawn, due, 0)
  {
    var w := s.world.worker;
    forall r | IsLive(w, r) && w.reservations[r].lease == lease.id
      ensures Names(due, 0, r) || Pends(due, 0, w.reservations[r].request)
    {
      var e :| e in s.ledger && Covers(e, KeyOf(w.reservations[r]), r);
      var j :| 0 <= j < |due| && due[j] == e;
    }
    forall id | id in Ids(s.ledger, lease.id) ensures Pends(due, 0, id) {
      var e :| e in s.ledger && e.lease.id == lease.id && e.target.UnresolvedReserve? && e.target.request == id;
      var j :| 0 <= j < |due| && due[j] == e;
    }
    forall j | 0 <= j < |due| && due[j].target.UnresolvedReserve?
      ensures Replay(due[j], lease) in s.world.requests && Sole(s.ledger, lease.id, due[j].target)
    {
      assert due[j] in due;
      DistinctSole(s.ledger, lease.id, due[j]);
    }
  }

  lemma BeginWorking(s: System, made: Made, lease: Lease)
    requires Stable(s, made, lease)
    ensures Working(Next(s, BeginReconcile), made, lease, s.world.drawn,
                    DueEntries(Reconnected(s.ledger, lease), lease), 0)
  {
    var s' := Next(s, BeginReconcile);
    var l' := s'.ledger;
    var due := DueEntries(l', lease);
    BeginKeeps(s, made, lease);
    RetainMembers(l', e => Due(e, lease));
    forall d | d in l' && d.lease.id == lease.id
      ensures !d.target.BufferTarget? && exists j :: 0 <= j < |due| && due[j] == d
    {
      AllDue(s.ledger, lease, d);
    }
    BeginDueOk(s', made, lease, due);
    forall d | d in due && d.target.UnresolvedReserve? ensures Replay(d, lease) in s'.world.requests {
      assert Replay(d, lease) in Replays(l', lease);
    }
    ListedWorking(s', made, lease, due);
  }

  /** An obligation of the lease, other than a buffer, is among the due ones. */
  lemma WasDue(s: System, made: Made, lease: Lease, d: Obligation)
    requires Stable(s, made, lease) && d in s.ledger && d.lease.id == lease.id && !d.target.BufferTarget?
    ensures var due := DueEntries(Reconnected(s.ledger, lease), lease);
            exists j :: 0 <= j < |due| && due[j].target == d.target
  {
    var kept := Retain(s.ledger, e => SurvivesReconnect(e, lease));
    RetainMembers(s.ledger, e => SurvivesReconnect(e, lease));
    EachMembers(kept, e => Reclassified(e, lease));
    assert EntryOk(d, s.world) && d.lease == lease;
    AllDue(s.ledger, lease, Reclassified(d, lease));
  }

  lemma AllWereDue(s: System, made: Made, lease: Lease)
    requires Stable(s, made, lease)
    ensures var due := DueEntries(Reconnected(s.ledger, lease), lease);
            forall d | d in s.ledger && d.lease.id == lease.id && !d.target.BufferTarget? ::
              exists j :: 0 <= j < |due| && due[j].target == d.target
  {
    forall d | d in s.ledger && d.lease.id == lease.id && !d.target.BufferTarget?
      ensures exists j :: 0 <= j < |DueEntries(Reconnected(s.ledger, lease), lease)|
                          && DueEntries(Reconnected(s.ledger, lease), lease)[j].target == d.target
    {
      WasDue(s, made, lease, d);
    }
  }

  /** No entry of the lease has the target. */
  ghost predicate Settled(l: Entries, lease: LeaseId, target: Target) {
    forall e | e in l :: e.lease.id != lease || e.target != target
  }

  /** At the end of the list everything is settled. */
  lemma AllSettled(s: System, made: Made, lease: Lease, drawn: set<RequestId>, due: Entries)
    requires Working(s, made, lease, drawn, due, |due|)
    ensures forall j | 0 <= j < |due| :: Settled(s.ledger, lease.id, due[j].target)
    ensures Ids(s.ledger, lease.id) !! drawn && Ids(s.ledger, lease.id) !! Sent(s.world, lease.id)
    ensures forall r | IsLive(s.world.worker, r) :: s.world.worker.reservations[r].lease != lease.id
  {
    forall j | 0 <= j < |due| ensures Settled(s.ledger, lease.id, due[j].target) {
      forall e | e in s.ledger && e.lease.id == lease.id ensures e.target != due[j].target {
        assert e.target.UnresolvedReserve? ==> e.target.request in Ids(s.ledger, lease.id);
        assert e.target.ReservationTarget? ==> e.target.reservation in Named(s.ledger, lease.id);
      }
    }
  }

  // ----- The manager at work ---------------------------------------------------------------------

  /** A terminal release leaves no entry of the lease that names the reservation. */
  lemma UnnamedAfter(s: System, lease: Lease, id: ReservationId)
    requires Inv(s) && Genuine(s.world, lease)
    ensures id !in Named(Removed(s.ledger, ReservationTarget(id), lease), lease.id)
  {
    var l' := Removed(s.ledger, ReservationTarget(id), lease);
    RetainMembers(s.ledger, e => !Matches(e, ReservationTarget(id), lease));
    forall e | e in l' && e.lease.id == lease.id ensures e.target != ReservationTarget(id) {
      assert EntryOk(e, s.world);
    }
  }

  /** A decisive answer leaves no unresolved entry of that request. */
  lemma AnsweredIds(s: System, lease: Lease, q: ResourceRequest, res: ResourceResult, origin: nat)
    requires Inv(s) && Genuine(s.world, lease) && Distinct(s.ledger)
    requires q.Reserve? && q.lease == lease && Decisive(q, res)
    requires Sole(s.ledger, lease.id, UnresolvedReserve(q.id, q.class_, q.bytes))
    ensures q.id !in Ids(AfterReserve(s.ledger, q, res, origin), lease.id)
  {
    var l, from := s.ledger, UnresolvedReserve(q.id, q.class_, q.bytes);
    var l' := AfterReserve(l, q, res, origin);
    var i := Find(l, from, lease);
    RetainMembers(l, e => !Matches(e, from, lease));
    var r := SuccessfulReservation(res, lease, q.class_, q.bytes);
    forall e | e in l && AwaitsOutcome(e, (lease.id, q.id)) ensures Matches(e, from, lease) {
      assert EntryOk(e, s.world) && e.target in Waiting(l, lease.id);
    }
    forall e | e in l' && e.lease.id == lease.id && e.target.UnresolvedReserve? ensures e.target.request != q.id {
      if r.Some? {
        var j :| 0 <= j < |l'| && l'[j] == e;
        assert j != i ==> l'[j] == l[j] && l[j] in l;
        if i < |l| && j != i { assert if i < j then !SameReserve(l[i], l[j]) else !SameReserve(l[j], l[i]); }
      }
    }
  }

  /** With the only reservation of a request dead and nothing awaiting it, none is live. */
  lemma NoneLeft(s: System, made: Made, s': System, made': Made, lease: LeaseId, id: RequestId, r: ReservationId)
    requires Later(s, made, s', made', lease) && id !in Ids(s.ledger, lease)
    requires OnlyLive(s.world.worker, (lease, id), r) && !IsLive(s'.world.worker, r)
    ensures NoneLive(s'.world.worker, (lease, id))
  {
    forall other ensures !Keyed(s'.world.worker, (lease, id), other) {
      assert Keyed(s'.world.worker, (lease, id), other) ==> Keyed(s.world.worker, (lease, id), other);
    }
  }

  /** A call of the manager and what came back. */
  datatype Called = Called(q: ResourceRequest, reply: Option<ResourceResult>)

  /** The call was lost, or its answer neither settles a reserve nor ends a reservation. */
  predicate Troubled(c: Called) {
    || c.reply.None?
    || (c.q.Reserve? && !Decisive(c.q, c.reply.value))
    || (c.q.Release? && !ReleaseTerminal(c.reply.value, c.q.lease, c.q.reservation))
  }

  predicate Untroubled(calls: seq<Called>) { forall i | 0 <= i < |calls| :: !Troubled(calls[i]) }

  lemma OneCall(c: Called)
    ensures Untroubled([c]) <==> !Troubled(c)
  {
    assert [c][0] == c;
  }

  lemma CallsJoin(a: seq<Called>, b: seq<Called>)
    ensures Untroubled(a + b) <==> Untroubled(a) && Untroubled(b)
  {
    if Untroubled(a + b) {
      forall i | 0 <= i < |a| ensures !Troubled(a[i]) { assert (a + b)[i] == a[i]; }
      forall i | 0 <= i < |b| ensures !Troubled(b[i]) { assert (a + b)[|a| + i] == b[i]; }
    }
  }

  datatype ReleaseEnd = Confirmed | Denied | Unanswered

  class Manager {
    const ledger: CleanupLedger
    const lease: Lease
    const session: nat
    var world: World
    ghost var made: Made

    constructor (ledger: CleanupLedger, lease: Lease, session: nat, world: World, ghost made: Made)
      ensures this.ledger == ledger && this.lease == lease && this.session == session
      ensures this.world == world && this.made == made
    {
      this.ledger, this.lease, this.session, this.world := ledger, lease, session, world;
      this.made := made;
    }

    function Sys(): System
      reads this`world, ledger
    {
      System(ledger.entries, world)
    }

    ghost predicate Ok()
      reads this`world, this`made, ledger
    {
      Stable(Sys(), made, lease) && this != ledger as object
    }

    /** Whatever happened, happened in steps that others may take too. */
    twostate predicate Moved()
      reads this`world, this`made, ledger
    {
      Ok() && Later(old(Sys()), old(made), Sys(), made, lease.id)
    }

    /** One step, by whoever takes it. */
    method Take(step: Step)
      requires Ok() && Outside(step, lease.id) && Enabled(Sys(), step)
      modifies this`world, this`made, ledger
      ensures Moved() && Sys() == Next(old(Sys()), step)
    {
      OutsideKeeps(Sys(), made, step, lease);
      StepLater(Sys(), made, step, lease);
      var s := Sys();
      made := NextMade(s, step, made);
      ledger.entries, world := NewLedger(s, step), NewWorld(s, step);
    }

    /** Worker, network and other host threads take any number of steps. */
    method Interfere()
      requires Ok()
      modifies this`world, this`made, ledger
      ensures Moved()
    {
      var steps: seq<Step> := *;
      for i := 0 to |steps|
        invariant Ok() && Later(old(Sys()), old(made), Sys(), made, lease.id)
      {
        if Outside(steps[i], lease.id) && Enabled(Sys(), steps[i]) {
          ghost var s, before := Sys(), made;
          Take(steps[i]);
          LaterTrans(old(Sys()), old(made), s, before, Sys(), made, lease.id);
        }
      }
    }

    /** One authenticated C08 call. `None`: lost before or after the worker served it. */
    method Resource(q: ResourceRequest) returns (reply: Option<ResourceResult>)
      requires Ok() && q.lease == lease
      requires if q.Reserve? then q in world.requests else Aimed(world.worker, q)
      modifies this`world, this`made, ledger
      ensures Moved()
      ensures reply.Some? ==> Answer(q, reply.value) in world.replies
    {
      if !q.Reserve? { Take(StartCall(q)); }
      ghost var s1, made1 := Sys(), made;
      Interfere();
      if q !in world.requests {
        if !q.Reserve? { LaterTrans(old(Sys()), old(made), s1, made1, Sys(), made, lease.id); }
        return None;
      }
      ghost var s2, made2 := Sys(), made;
      var health: Health := *;
      var res := ApplyResource(world.worker, q, health).1;
      Take(Serve(q, health));
      ghost var s3, made3 := Sys(), made;
      Interfere();
      LaterTrans(s2, made2, s3, made3, Sys(), made, lease.id);
      LaterTrans(s1, made1, s2, made2, Sys(), made, lease.id);
      if !q.Reserve? { LaterTrans(old(Sys()), old(made), s1, made1, Sys(), made, lease.id); }
      reply := if Answer(q, res) in world.replies then Some(res) else None;
    }

    /** Releases one reservation under the lease. Confirmed: it is dead and nothing names it.
        Unanswered: what names it is ambiguous. */
    method ReleaseOne(id: ReservationId) returns (end: ReleaseEnd, ghost call: Called)
      requires Ok() && id < world.worker.nextReservation
      modifies this`world, this`made, ledger
      ensures Moved()
      ensures end.Confirmed? ==> !IsLive(world.worker, id) && id !in Named(ledger.entries, lease.id)
      ensures call.q.Release? && call.q.lease == lease && call.q.reservation == id
      ensures (end.Confirmed? <==> !Troubled(call)) && (end.Unanswered? <==> call.reply.None?)
      ensures end.Unanswered? ==> Handed(ledger.entries, ReservationTarget(id), lease)
    {
      var requestId: RequestId := *;
      var q := Release(lease, requestId, id);
      var reply := Resource(q);
      call := Called(q, reply);
      ghost var s1, made1 := Sys(), made;
      var target := ReservationTarget(id);
      if reply.None? {
        MarkedHanded(ledger.entries, target, lease);
        Take(NoteAmbiguous(target, lease));
        end := Unanswered;
      } else {
        assert ReplyOk(world.worker, Answer(q, reply.value));
        UnnamedAfter(Sys(), lease, id);
        Take(HandleRelease(q, reply.value));
        end := if ReleaseTerminal(reply.value, lease, id) then Confirmed else Denied;
      }
      LaterTrans(old(Sys()), old(made), s1, made1, Sys(), made, lease.id);
    }

    /** Replays an ambiguous reserve. Answered: nothing awaits it any more, and at most the
        reservation returned is live for it. */
    method ReplayReserve(d: Obligation)
      returns (answered: bool, reservation: Option<ReservationId>, ghost call: Called)
      requires Ok() && d.target.UnresolvedReserve? && Replay(d, lease) in world.requests
      requires Sole(ledger.entries, lease.id, d.target)
      modifies this`world, this`made, ledger
      ensures Moved()
      ensures call.q == Replay(d, lease) && (answered <==> !Troubled(call))
      ensures answered ==> d.target.request !in Ids(ledger.entries, lease.id)
      ensures answered && reservation.None? ==> NoneLive(world.worker, (lease.id, d.target.request))
      ensures answered && reservation.Some? ==>
                reservation.value < world.worker.nextReservation
                && OnlyLive(world.worker, (lease.id, d.target.request), reservation.value)
    {
      reservation := None;
      var q := Replay(d, lease);
      var reply := Resource(q);
      call := Called(q, reply);
      if reply.None? || !Decisive(q, reply.value) { return false, None, call; }
      ghost var s1, made1 := Sys(), made;
      assert ReplyOk(world.worker, Answer(q, reply.value));
      AnsweredIds(s1, lease, q, reply.value, session);
      Take(HandleReserve(q, reply.value, session));
      LaterTrans(old(Sys()), old(made), s1, made1, Sys(), made, lease.id);
      answered, reservation := true, SuccessfulReservation(reply.value, lease, q.class_, q.bytes);
    }

    /** Replays an ambiguous reserve and releases what it made, if it made anything. */
    method ResolveReserve(d: Obligation) returns (ok: bool, ghost calls: seq<Called>)
      requires Ok() && d.target.UnresolvedReserve? && Replay(d, lease) in world.requests
      requires Sole(ledger.entries, lease.id, d.target)
      modifies this`world, this`made, ledger
      ensures Moved() && calls != [] && (ok <==> Untroubled(calls))
      ensures ok ==> d.target.request !in Ids(ledger.entries, lease.id)
      ensures ok ==> NoneLive(world.worker, (lease.id, d.target.request))
    {
      var reservation;
      ghost var call;
      ok, reservation, call := ReplayReserve(d);
      calls := [call];
      OneCall(call);
      if ok && reservation.Some? {
        ghost var s1, made1 := Sys(), made;
        var end;
        end, call := ReleaseOne(reservation.value);
        OneCall(call);
        CallsJoin(calls, [call]);
        calls := calls + [call];
        LaterTrans(old(Sys()), old(made), s1, made1, Sys(), made, lease.id);
        ok := end.Confirmed?;
        if ok { NoneLeft(s1, made1, Sys(), made, lease.id, d.target.request, reservation.value); }
      }
    }

    /** The loop stands before obligation `i`. */
    ghost predicate Reached(due: Entries, drawn: set<RequestId>, i: nat)
      reads this`world, this`made, ledger
    {
      Ok() && Working(Sys(), made, lease, drawn, due, i)
    }

    /** One obligation; true once it is settled. */
    method SettleOne(due: Entries, i: nat, ghost drawn: set<RequestId>) returns (ok: bool, ghost calls: seq<Called>)
      requires i < |due| && Reached(due, drawn, i)
      modifies this`world, this`made, ledger
      ensures Ok() && (ok ==> Reached(due, drawn, i + 1))
      ensures calls != [] && (ok <==> Untroubled(calls))
    {
      ghost var s0, made0 := Sys(), made;
      var d := due[i];
      if d.target.ReservationTarget? {
        var end;
        ghost var call;
        end, call := ReleaseOne(d.target.reservation);
        calls := [call];
        OneCall(call);
        WorkingLater(s0, made0, Sys(), made, lease, drawn, due, i);
        ok := end.Confirmed?;
        if ok { NamedSettled(Sys(), made, lease, drawn, due, i); }
      } else {
        ok, calls := ResolveReserve(d);
        WorkingLater(s0, made0, Sys(), made, lease, drawn, due, i);
        if ok { PendingSettled(Sys(), made, lease, drawn, due, i); }
      }
    }

    /** The loop over the obligations that were due at the reconnect. */
    method WorkThrough(due: Entries, ghost drawn: set<RequestId>) returns (ok: bool, ghost calls: seq<Called>)
      requires Reached(due, drawn, 0)
      modifies this`world, this`made, ledger
      ensures Ok() && (ok ==> Reached(due, drawn, |due|))
      ensures ok <==> Untroubled(calls)
    {
      calls := [];
      for i := 0 to |due|
        invariant Reached(due, drawn, i)
        invariant Untroubled(calls)
      {
        ghost var more;
        ok, more := SettleOne(due, i, drawn);
        assert Untroubled(calls + more) <==> ok by { CallsJoin(calls, more); }
        calls := calls + more;
        if !ok { return; }
      }
      ok := true;
    }

    /** The locked section at the reconnect: every reservation and unresolved reserve the lease
        owed is due, and the reserves are asked for again. */
    method Begin() returns (due: Entries)
      requires Ok()
      modifies this`world, ledger
      ensures Reached(due, old(world.drawn), 0)
      ensures forall d | d in old(ledger.entries) && d.lease.id == lease.id && !d.target.BufferTarget? ::
                exists j :: 0 <= j < |due| && due[j].target == d.target
    {
      var s := Sys();
      BeginKeeps(s, made, lease);
      BeginWorking(s, made, lease);
      AllWereDue(s, made, lease);
      due := ledger.Reconnect(lease);
      world := NewWorld(s, BeginReconcile);
      assert Sys() == Next(s, BeginReconcile);
    }

    /** The whole reconciliation, whatever the others do. If it reports success, every
        reservation and every unresolved reserve the lease owed at the start is gone from the
        ledger, a reserve of the lease that is unresolved was recorded since and never sent, and
        the worker holds no unconsumed reservation under it, whether or not each ambiguous
        reserve had been executed. It reports failure exactly if one of its calls was lost or
        got an answer that settles nothing. */
    method ReconcileCleanup() returns (ok: bool, ghost calls: seq<Called>)
      requires Ok()
      modifies this`world, this`made, ledger
      ensures Ok()
      ensures ok <==> Untroubled(calls)
      ensures ok ==> forall d | d in old(ledger.entries) && d.lease.id == lease.id && !d.target.BufferTarget? ::
                Settled(ledger.entries, lease.id, d.target)
      ensures ok ==> Ids(ledger.entries, lease.id) !! old(world.drawn)
      ensures ok ==> Ids(ledger.entries, lease.id) !! Sent(world, lease.id)
      ensures ok ==> forall r | IsLive(world.worker, r) :: world.worker.reservations[r].lease != lease.id
    {
      var due := Begin();
      ok, calls := WorkThrough(due, old(world.drawn));
      if ok { AllSettled(Sys(), made, lease, old(world.drawn), due); }
    }
  }
}
