/** Which request made which reservation. The map `made` records it for a run, and every
    answer and every ledger entry agrees with it: no reservation is named both by its id and
    by the request that made it. */
module Origins {
  import opened Basics
  import opened Wire
  import opened Worker
  import opened WorkerFacts
  import opened HostView
  import opened Ledger
  import opened Protocol
  import opened ProtocolProof
  import opened ProtocolRuns

  type Made = map<ReservationId, Key>

  // ----- Request ids of unresolved entries ----------------------------------------------------

  predicate SameReserve(d: Obligation, e: Obligation) {
    d.target.UnresolvedReserve? && e.target.UnresolvedReserve? && d.target.request == e.target.request
  }

  ghost predicate Distinct(l: Entries) {
    forall i, j | 0 <= i < j < |l| :: !SameReserve(l[i], l[j])
  }

  ghost predicate IdsOk(l: Entries, drawn: set<RequestId>) {
    Distinct(l) && forall e | e in l && e.target.UnresolvedReserve? :: e.target.request in drawn
  }

  lemma {:induction false} RetainDistinct(l: Entries, keep: Obligation -> bool)
    requires Distinct(l)
    ensures Distinct(Retain(l, keep))
  {
    if l != [] {
      RetainDistinct(l[1..], keep);
      RetainMembers(l[1..], keep);
      var rest := Retain(l[1..], keep);
      forall j | 0 <= j < |rest| ensures !SameReserve(l[0], rest[j]) {
        assert rest[j] in l[1..];
        var i :| 0 <= i < |l[1..]| && l[1..][i] == rest[j];
        assert l[i + 1] == rest[j];
      }
    }
  }

  lemma RetainIds(l: Entries, keep: Obligation -> bool, drawn: set<RequestId>)
    requires IdsOk(l, drawn)
    ensures IdsOk(Retain(l, keep), drawn)
  {
    RetainDistinct(l, keep);
    RetainMembers(l, keep);
  }

  /** One entry gets another target that awaits no outcome, or keeps its own. */
  lemma UpdateIds(l: Entries, i: nat, e: Obligation, drawn: set<RequestId>)
    requires IdsOk(l, drawn) && i < |l|
    requires e.target.UnresolvedReserve? ==> e.target == l[i].target
    ensures IdsOk(l[i := e], drawn)
  {
    assert l[i] in l;
  }

  lemma SameTargetIds(l: Entries, l': Entries, drawn: set<RequestId>)
    requires IdsOk(l, drawn) && |l| == |l'| && forall i | 0 <= i < |l| :: l'[i].target == l[i].target
    ensures IdsOk(l', drawn)
  {
    forall e | e in l' && e.target.UnresolvedReserve? ensures e.target.request in drawn {
      var i :| 0 <= i < |l'| && l'[i] == e;
      assert l[i] in l;
    }
    forall i, j | 0 <= i < j < |l'| ensures !SameReserve(l'[i], l'[j]) {
      assert !SameReserve(l[i], l[j]);
    }
  }

  lemma ReconnectIds(l: Entries, lease: Lease, drawn: set<RequestId>)
    requires IdsOk(l, drawn)
    ensures IdsOk(Reconnected(l, lease), drawn)
  {
    var keep := (e: Obligation) => SurvivesReconnect(e, lease);
    RetainIds(l, keep, drawn);
    SameTargetIds(Retain(l, keep), Reconnected(l, lease), drawn);
  }

  lemma ReserveIds(l: Entries, q: ResourceRequest, res: ResourceResult, origin: nat, drawn: set<RequestId>)
    requires IdsOk(l, drawn) && q.Reserve?
    ensures IdsOk(AfterReserve(l, q, res, origin), drawn)
  {
    var from := UnresolvedReserve(q.id, q.class_, q.bytes);
    RetainIds(l, e => !Matches(e, from, q.lease), drawn);
    var i := Find(l, from, q.lease);
    match SuccessfulReservation(res, q.lease, q.class_, q.bytes)
    case Some(r) => if i < |l| { UpdateIds(l, i, Resolved(l[i], ReservationTarget(r), origin), drawn); }
    case None =>
  }

  lemma TakenIds(l: Entries, reply: Reply, origin: nat, drawn: set<RequestId>)
    requires IdsOk(l, drawn) && reply.Taken?
    ensures IdsOk(AfterTaken(l, reply, origin), drawn)
  {
    var target := ReservationTarget(reply.reservation);
    RetainIds(l, e => !Matches(e, target, reply.lease), drawn);
    var i := Find(l, target, reply.lease);
    if reply.buffer.Some? && i < |l| {
      UpdateIds(l, i, Resolved(l[i], BufferTarget(reply.buffer.value), origin), drawn);
    }
  }

  /** Every ledger edit of the protocol keeps the request ids apart. */
  lemma EditIds(s: System, step: Step)
    requires Enabled(s, step) && IdsOk(s.ledger, s.world.drawn)
    ensures IdsOk(NewLedger(s, step), NewWorld(s, step).drawn)
  {
    var l, drawn := s.ledger, s.world.drawn;
    match step
    case StartReserve(lease, id, class_, bytes, origin) =>
      var o := Obligation(lease, origin, UnresolvedReserve(id, class_, bytes), Ambiguous);
      forall i | 0 <= i < |l| ensures !SameReserve(l[i], o) { assert l[i] in l; }
    case RecordUnsent(lease, id, class_, bytes, origin) =>
      var o := Obligation(lease, origin, UnresolvedReserve(id, class_, bytes), Ambiguous);
      forall i | 0 <= i < |l| ensures !SameReserve(l[i], o) { assert l[i] in l; }
    case BeginReconcile => ReconnectIds(l, s.world.manager.value, drawn);
    case HandleReserve(q, res, origin) => ReserveIds(l, q, res, origin, drawn);
    case HandleRelease(q, res) =>
      RetainIds(l, e => !Matches(e, ReservationTarget(q.reservation), q.lease), drawn);
    case HandleTaken(reply, origin) => TakenIds(l, reply, origin, drawn);
    case DropBuffer(lease, buffer) => RetainIds(l, e => !Matches(e, BufferTarget(buffer), lease), drawn);
    case NoteAmbiguous(target, lease) =>
      var i := Find(l, target, lease);
      if i < |l| { UpdateIds(l, i, l[i].(knowledge := Ambiguous), drawn); }
    case ResolvePurged => RetainIds(l, e => !PurgeSettles(e, s.world.manager.value), drawn);
    case _ =>
  }

  /** So a manager may start a reconciliation in every reachable state. */
  lemma {:induction false} RunIds(s: System, steps: seq<Step>)
    requires Run(s, steps) && IdsOk(s.ledger, s.world.drawn)
    ensures IdsOk(After(s, steps).ledger, After(s, steps).world.drawn)
    decreases |steps|
  {
    if steps != [] {
      EditIds(s, steps[0]);
      RunIds(Next(s, steps[0]), steps[1..]);
    }
  }

  // ----- The worker's memory of origins ---------------------------------------------------------

  /** A result that names a reservation in answer to a reserve names the one it made. */
  predicate ResultOrigin(made: Made, q: ResourceRequest, res: ResourceResult) {
    q.Reserve? && res.reservation.Some? ==>
      res.reservation.value.id in made && made[res.reservation.value.id] == (q.lease.id, q.id)
  }

  ghost predicate WorkerOrigin(w: Worker, made: Made) {
    && (forall r | r in w.reservations :: r in made && made[r] == KeyOf(w.reservations[r]))
    && (forall k | k in w.decisions && w.decisions[k].decision.Granted? ::
          w.decisions[k].decision.id in made && made[w.decisions[k].decision.id] == k)
    && (forall k | k in w.responses :: ResultOrigin(made, w.responses[k].request, w.responses[k].result))
    && (forall r | r in made :: r < w.nextReservation)
  }

  /** Nothing is remembered that was not before. */
  ghost predicate Inherits(w: Worker, w': Worker) {
    && (forall r | r in w'.reservations :: r in w.reservations && KeyOf(w'.reservations[r]) == KeyOf(w.reservations[r]))
    && (forall k | k in w'.decisions :: k in w.decisions && w'.decisions[k].decision == w.decisions[k].decision)
    && (forall k | k in w'.responses :: k in w.responses && w'.responses[k] == w.responses[k])
    && w.nextReservation <= w'.nextReservation
  }

  lemma InheritsOrigin(w: Worker, w': Worker, made: Made)
    requires WorkerOrigin(w, made) && Inherits(w, w')
    ensures WorkerOrigin(w', made)
  {}

  function MadeBy(w: Worker, w': Worker, q: ResourceRequest, made: Made): Made {
    if w.nextReservation < w'.nextReservation then made[w.nextReservation := (q.lease.id, q.id)] else made
  }

  lemma AdmitOrigin(w: Worker, q: ResourceRequest, d: Decision, made: Made)
    requires WorkerOrigin(w, made) && q.Reserve? && (d.Granted? ==> d.id == w.nextReservation)
    ensures var w' := Admit(w, q.lease.id, q.id, q.class_, q.bytes, d);
            WorkerOrigin(w', MadeBy(w, w', q, made))
  {}

  lemma DecidedOrigin(w: Worker, q: ResourceRequest, health: Health, made: Made)
    requires WorkerOrigin(w, made) && q.Reserve?
    ensures var (w', d) := Decided(w, q, health);
            var made' := MadeBy(w, w', q, made);
            && WorkerOrigin(w', made') && w.nextReservation <= w'.nextReservation
            && (d.Granted? ==> d.id in made' && made'[d.id] == (q.lease.id, q.id))
  {
    var (w', d) := Decided(w, q, health);
    if (q.lease.id, q.id) !in w.decisions { AdmitOrigin(w, q, d, made); }
  }

  lemma ReserveAnswerNames(w: Worker, q: ResourceRequest, d: Decision, health: Health)
    requires q.Reserve?
    ensures var out := ReserveAnswer(w, q.lease.id, d, health);
            && out.worker == w
            && (out.result.reservation.Some? ==> d == Granted(out.result.reservation.value.id))
  {}

  /** The guard's answer and its new state agree with the origins. */
  ghost predicate Agrees(w: Worker, out: Outcome, q: ResourceRequest, made: Made) {
    && WorkerOrigin(out.worker, MadeBy(w, out.worker, q, made))
    && ResultOrigin(MadeBy(w, out.worker, q, made), q, out.result)
    && w.nextReservation <= out.worker.nextReservation
  }

  lemma ReserveOrigin(w: Worker, q: ResourceRequest, health: Health, made: Made)
    requires WorkerOrigin(w, made) && q.Reserve?
    ensures Agrees(w, DoReserve(w, q, health), q, made)
  {
    if !Turned(w, q) {
      var (w1, d) := Decided(w, q, health);
      DecidedOrigin(w, q, health, made);
      ReserveAnswerNames(w1, q, d, health);
      assert DoReserve(w, q, health) == ReserveAnswer(w1, q.lease.id, d, health);
    }
  }

  lemma CommitInherits(w: Worker, q: ResourceRequest, health: Health)
    requires q.Commit?
    ensures Inherits(w, DoCommit(w, q, health).worker)
    ensures DoCommit(w, q, health).worker.nextReservation == w.nextReservation
  {}

  lemma ReleaseInherits(w: Worker, q: ResourceRequest)
    requires q.Release?
    ensures Inherits(w, DoRelease(w, q).worker) && DoRelease(w, q).worker.nextReservation == w.nextReservation
  {}

  lemma DispatchOrigin(w: Worker, q: ResourceRequest, health: Health, made: Made)
    requires WorkerOrigin(w, made)
    ensures Agrees(w, Dispatch(w, q, health), q, made)
  {
    match q
    case Reserve(_, _, _, _) => ReserveOrigin(w, q, health, made);
    case Commit(_, _, _) =>
      CommitInherits(w, q, health);
      InheritsOrigin(w, DoCommit(w, q, health).worker, made);
    case Release(_, _, _) =>
      ReleaseInherits(w, q);
      InheritsOrigin(w, DoRelease(w, q).worker, made);
  }

  lemma RecordOrigin(out: Outcome, q: ResourceRequest, made: Made)
    requires WorkerOrigin(out.worker, made) && ResultOrigin(made, q, out.result)
    ensures WorkerOrigin(Record(out, q), made) && Record(out, q).nextReservation == out.worker.nextReservation
  {}

  lemma PurgeInherits(w: Worker, lease: LeaseId)
    ensures Inherits(w, OwnResponses(w, lease)) && Inherits(w, Purge(w, lease))
    ensures Purge(w, lease).nextReservation == w.nextReservation
  {}

  lemma MissOrigin(w: Worker, q: ResourceRequest, health: Health, made: Made)
    requires WorkerOrigin(w, made)
    ensures var out := Dispatch(Purge(w, q.lease.id), q, health);
            var made' := MadeBy(w, Record(out, q), q, made);
            WorkerOrigin(Record(out, q), made') && ResultOrigin(made', q, out.result)
  {
    var w1 := Purge(w, q.lease.id);
    PurgeInherits(w, q.lease.id);
    InheritsOrigin(w, w1, made);
    DispatchOrigin(w1, q, health, made);
    RecordOrigin(Dispatch(w1, q, health), q, MadeBy(w1, Dispatch(w1, q, health).worker, q, made));
  }

  lemma HitOrigin(w: Worker, q: ResourceRequest, made: Made)
    requires WorkerOrigin(w, made) && ResponsesOk(w) && (q.lease.id, q.id) in w.responses
    ensures var cached := w.responses[(q.lease.id, q.id)];
            ResultOrigin(made, q, if cached.request == q then cached.result
                         else Failure(w, q.lease.id, RequestIdConflict))
  {}

  lemma ApplyOrigin(w: Worker, q: ResourceRequest, health: Health, made: Made)
    requires WorkerOrigin(w, made) && ResponsesOk(w)
    ensures var (w', res) := ApplyResource(w, q, health);
            var made' := MadeBy(w, w', q, made);
            WorkerOrigin(w', made') && ResultOrigin(made', q, res)
  {
    if q.id != 0 && Valid(w, q.lease) {
      var w1, k := OwnResponses(w, q.lease.id), (q.lease.id, q.id);
      PurgeInherits(w, q.lease.id);
      InheritsOrigin(w, w1, made);
      if k in w1.responses {
        HitOrigin(w, q, made);
      } else if |w1.responses| < IDEMPOTENCE_CAPACITY {
        MissOrigin(w1, q, health, made);
        var out := Dispatch(Purge(w1, q.lease.id), q, health);
        assert ApplyResource(w, q, health) == (Record(out, q), out.result);
      }
    }
  }

  // ----- The whole system ---------------------------------------------------------------------

  /** Every reservation target has its origin, and no unresolved entry names that origin. */
  ghost predicate Untwinned(l: Entries, made: Made) {
    && (forall e | e in l && e.target.ReservationTarget? :: e.target.reservation in made)
    && (forall e, d | e in l && d in l && e.target.ReservationTarget? && d.target.UnresolvedReserve? ::
          made[e.target.reservation].1 != d.target.request)
  }

  ghost predicate MessagesOrigin(world: World, made: Made) {
    && (forall a | a in world.replies && a.Answer? :: ResultOrigin(made, a.q, a.result))
    && (forall q | q in world.requests && q.Reserve? :: q.id in world.drawn)
    && (forall r | r in made :: made[r].1 in world.drawn)
  }

  ghost predicate OriginOk(s: System, made: Made) {
    WorkerOrigin(s.world.worker, made) && MessagesOrigin(s.world, made) && Untwinned(s.ledger, made)
  }

  ghost function NextMade(s: System, step: Step, made: Made): Made {
    if step.Serve? then MadeBy(s.world.worker, NewWorker(s.world.worker, step), step.request, made) else made
  }

  /** A record that only grows fits the ledger as before. */
  lemma GrowsUntwinned(l: Entries, made: Made, made': Made)
    requires Untwinned(l, made) && forall r | r in made :: r in made' && made'[r] == made[r]
    ensures Untwinned(l, made')
  {}

  lemma ServeMessages(world: World, q: ResourceRequest, res: ResourceResult, w': Worker, made: Made)
    requires MessagesOrigin(world, made) && q in world.requests
    requires (forall r | r in made :: r < world.worker.nextReservation)
    requires ResultOrigin(MadeBy(world.worker, w', q, made), q, res)
    requires world.worker.nextReservation < w'.nextReservation ==> q.Reserve?
    ensures MessagesOrigin(world.(worker := w', replies := world.replies + {Answer(q, res)}),
            MadeBy(world.worker, w', q, made))
  {}

  lemma OnlyReservesMake(w: Worker, q: ResourceRequest, health: Health)
    requires w.nextReservation < ApplyResource(w, q, health).0.nextReservation
    ensures q.Reserve?
  {}

  lemma ServeOrigin(s: System, q: ResourceRequest, health: Health, made: Made)
    requires WorkerOk(s.world.worker) && OriginOk(s, made) && q in s.world.requests
    ensures OriginOk(Next(s, Serve(q, health)), NextMade(s, Serve(q, health), made))
  {
    var w := s.world.worker;
    var (w', res) := ApplyResource(w, q, health);
    ApplyOrigin(w, q, health, made);
    if w.nextReservation < w'.nextReservation { OnlyReservesMake(w, q, health); }
    ServeMessages(s.world, q, res, w', made);
    GrowsUntwinned(s.ledger, made, MadeBy(w, w', q, made));
    assert Next(s, Serve(q, health))
           == s.(world := s.world.(worker := w', replies := s.world.replies + {Answer(q, res)}));
  }

  lemma ConsumeInherits(w: Worker, lease: Lease, id: ReservationId, class_: ResourceClass, exact: Option<nat>)
    ensures Inherits(w, Consume(w, lease, id, class_, exact).0)
  {
    PurgeInherits(w, lease.id);
  }

  lemma EndingInherits(w: Worker, id: ReservationId)
    ensures Inherits(w, ReleaseConsumed(w, id)) && Inherits(w, Expire(w, id)) && Inherits(w, ForgetReservation(w, id))
  {}

  lemma WorkerStepInherits(w: Worker, step: Step)
    requires WorkerOk(w) && !step.Serve?
    ensures Inherits(w, NewWorker(w, step))
  {
    match step
    case ServeTake(lease, id, class_, exact, _) => ConsumeInherits(w, lease, id, class_, exact);
    case EndOwned(id) => EndingInherits(w, id);
    case ExpireOne(id) => EndingInherits(w, id);
    case DropEnded(id) => EndingInherits(w, id);
    case _ =>
  }

  /** An edit that brings no new target. */
  ghost predicate NoNewTarget(l: Entries, l': Entries) {
    forall d | d in l' :: exists e :: e in l && e.target == d.target
  }

  lemma OldTargets(l: Entries, l': Entries, made: Made)
    requires Untwinned(l, made) && NoNewTarget(l, l')
    ensures Untwinned(l', made)
  {
    forall e, d | e in l' && d in l' && e.target.ReservationTarget? && d.target.UnresolvedReserve?
      ensures e.target.reservation in made && made[e.target.reservation].1 != d.target.request
    {
      var e0 :| e0 in l && e0.target == e.target;
      var d0 :| d0 in l && d0.target == d.target;
      assert e0.target.reservation in made;
    }
    forall e | e in l' && e.target.ReservationTarget? ensures e.target.reservation in made {
      var e0 :| e0 in l && e0.target == e.target;
    }
  }

  lemma RetainTargets(l: Entries, keep: Obligation -> bool)
    ensures NoNewTarget(l, Retain(l, keep))
  {
    RetainMembers(l, keep);
  }

  lemma MarkTargets(l: Entries, target: Target, lease: Lease)
    ensures NoNewTarget(l, MarkedAmbiguous(l, target, lease))
  {
    MarkedMembers(l, target, lease);
  }

  lemma ReconnectTargets(l: Entries, lease: Lease)
    ensures NoNewTarget(l, Reconnected(l, lease))
  {
    RetainMembers(l, e => SurvivesReconnect(e, lease));
    EachMembers(Retain(l, e => SurvivesReconnect(e, lease)), e => Reclassified(e, lease));
  }

  /** After the replacement no unresolved entry has that request id. */
  lemma ReplacedUntwinned(l: Entries, q: ResourceRequest, r: ReservationId, origin: nat, made: Made)
    requires Untwinned(l, made) && Distinct(l) && q.Reserve? && r in made && made[r].1 == q.id
    ensures Untwinned(Replaced(l, UnresolvedReserve(q.id, q.class_, q.bytes),
                               ReservationTarget(r), q.lease, origin), made)
  {
    var from := UnresolvedReserve(q.id, q.class_, q.bytes);
    var i := Find(l, from, q.lease);
    if i < |l| {
      var l' := Replaced(l, from, ReservationTarget(r), q.lease, origin);
      forall d | d in l' && d.target.UnresolvedReserve? ensures d in l && d.target.request != q.id {
        var j :| 0 <= j < |l'| && l'[j] == d;
        assert l'[j] == l[j] && l[j] in l;
        assert if i < j then !SameReserve(l[i], l[j]) else !SameReserve(l[j], l[i]);
      }
      forall e | e in l' && e.target.ReservationTarget? ensures e in l || e.target.reservation == r {
        var j :| 0 <= j < |l'| && l'[j] == e;
      }
    }
  }

  lemma TakenUntwinned(l: Entries, reply: Reply, origin: nat, made: Made)
    requires Untwinned(l, made) && reply.Taken?
    ensures Untwinned(AfterTaken(l, reply, origin), made)
  {
    var target := ReservationTarget(reply.reservation);
    if reply.buffer.Some? {
      ReplacedMembers(l, target, BufferTarget(reply.buffer.value), reply.lease, origin);
    } else {
      RetainTargets(l, e => !Matches(e, target, reply.lease));
      OldTargets(l, AfterTaken(l, reply, origin), made);
    }
  }

  lemma ReserveUntwinned(l: Entries, q: ResourceRequest, res: ResourceResult, origin: nat, made: Made)
    requires Untwinned(l, made) && Distinct(l) && q.Reserve? && ResultOrigin(made, q, res)
    ensures Untwinned(AfterReserve(l, q, res, origin), made)
  {
    match SuccessfulReservation(res, q.lease, q.class_, q.bytes)
    case Some(r) => ReplacedUntwinned(l, q, r, origin, made);
    case None =>
      RetainTargets(l, e => !Matches(e, UnresolvedReserve(q.id, q.class_, q.bytes), q.lease));
      OldTargets(l, Removed(l, UnresolvedReserve(q.id, q.class_, q.bytes), q.lease), made);
  }

  lemma EditUntwinned(s: System, step: Step, made: Made)
    requires Enabled(s, step) && IsEdit(step) && IdsOk(s.ledger, s.world.drawn) && OriginOk(s, made)
    ensures Untwinned(NewLedger(s, step), made)
  {
    var l := s.ledger;
    match step {
      case StartReserve(_, _, _, _, _) =>
      case RecordUnsent(_, _, _, _, _) =>
      case HandleReserve(q, res, origin) => ReserveUntwinned(l, q, res, origin, made);
      case HandleTaken(reply, origin) => TakenUntwinned(l, reply, origin, made);
      case BeginReconcile =>
        ReconnectTargets(l, s.world.manager.value);
        OldTargets(l, NewLedger(s, step), made);
      case HandleRelease(q, res) =>
        RetainTargets(l, e => !Matches(e, ReservationTarget(q.reservation), q.lease));
        OldTargets(l, NewLedger(s, step), made);
      case DropBuffer(lease, buffer) =>
        RetainTargets(l, e => !Matches(e, BufferTarget(buffer), lease));
        OldTargets(l, NewLedger(s, step), made);
      case NoteAmbiguous(target, lease) =>
        MarkTargets(l, target, lease);
        OldTargets(l, NewLedger(s, step), made);
      case ResolvePurged =>
        RetainTargets(l, e => !PurgeSettles(e, s.world.manager.value));
        OldTargets(l, NewLedger(s, step), made);
    }
  }

  lemma QuietMessages(s: System, step: Step, made: Made)
    requires Enabled(s, step) && !step.Serve? && MessagesOrigin(s.world, made)
    requires IdsOk(NewLedger(s, step), NewWorld(s, step).drawn)
    ensures MessagesOrigin(NewWorld(s, step), made)
  {}

  lemma QuietOrigin(s: System, step: Step, made: Made)
    requires Inv(s) && Enabled(s, step) && !step.Serve? && IdsOk(s.ledger, s.world.drawn) && OriginOk(s, made)
    ensures OriginOk(Next(s, step), made)
  {
    EditIds(s, step);
    WorkerStepInherits(s.world.worker, step);
    InheritsOrigin(s.world.worker, NewWorker(s.world.worker, step), made);
    QuietMessages(s, step, made);
    if IsEdit(step) { EditUntwinned(s, step, made); }
  }

  /** Every step keeps the origins. */
  lemma StepOrigin(s: System, step: Step, made: Made)
    requires Inv(s) && Enabled(s, step) && IdsOk(s.ledger, s.world.drawn) && OriginOk(s, made)
    ensures OriginOk(Next(s, step), NextMade(s, step, made))
  {
    if step.Serve? { ServeOrigin(s, step.request, step.health, made); } else { QuietOrigin(s, step, made); }
  }

  /** In every run some record of origins fits. */
  lemma {:induction false} RunOrigin(s: System, steps: seq<Step>, made: Made) returns (made': Made)
    requires Inv(s) && Run(s, steps) && IdsOk(s.ledger, s.world.drawn) && OriginOk(s, made)
    ensures OriginOk(After(s, steps), made')
    decreases |steps|
  {
    made' := made;
    if steps != [] {
      StepOrigin(s, steps[0], made);
      StepKeeps(s, steps[0]);
      EditIds(s, steps[0]);
      made' := RunOrigin(Next(s, steps[0]), steps[1..], NextMade(s, steps[0], made));
    }
  }
}
