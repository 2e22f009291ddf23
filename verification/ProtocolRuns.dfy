/** Safety over whole runs: no orphaned reservation, entries leave only when settled, and
    how often one request id can create a reservation. */
module ProtocolRuns {
  import opened Basics
  import opened Wire
  import opened Worker
  import opened WorkerFacts
  import opened WorkerBudget
  import opened WorkerLaws
  import opened HostView
  import opened Ledger
  import opened Protocol
  import opened ProtocolProof

  ghost predicate Run(s: System, steps: seq<Step>)
    decreases |steps|
  {
    steps == [] || (Enabled(s, steps[0]) && Run(Next(s, steps[0]), steps[1..]))
  }

  ghost function After(s: System, steps: seq<Step>): System
    requires Run(s, steps)
    decreases |steps|
  {
    if steps == [] then s else After(Next(s, steps[0]), steps[1..])
  }

  lemma InitOk()
    ensures Inv(INIT)
  {}

  lemma {:induction false} RunKeeps(s: System, steps: seq<Step>)
    requires Inv(s) && Run(s, steps)
    ensures Inv(After(s, steps))
    decreases |steps|
  {
    if steps != [] {
      StepKeeps(s, steps[0]);
      RunKeeps(Next(s, steps[0]), steps[1..]);
    }
  }

  /** In every run with lost, late and repeated messages, lease rotation and worker
      restarts: each unconsumed reservation is named by the ledger, the ledger is bounded,
      at most one reservation per request id is live, and the worker's held bytes are
      exactly those of its outstanding reservations. */
  lemma NoOrphanedReservation(steps: seq<Step>)
    requires Run(INIT, steps)
    ensures var s := After(INIT, steps);
            && Covered(s.ledger, s.world.worker)
            && |s.ledger| <= MAX_CLEANUP_OBLIGATIONS
            && HeldOk(s.world.worker)
            && (forall i, j | IsLive(s.world.worker, i) && IsLive(s.world.worker, j)
                  && KeyOf(s.world.worker.reservations[i]) == KeyOf(s.world.worker.reservations[j]) :: i == j)
  {
    InitOk();
    RunKeeps(INIT, steps);
    var w := After(INIT, steps).world.worker;
    assert DecisionsOk(w);
  }

  ghost predicate Present(e: Obligation, l: Entries) {
    exists d :: d in l && d.lease == e.lease && d.target == e.target
  }

  /** What may remove an entry: a confirmed end, an answered reserve, a take-over, a purge
      proof under the manager's lease, or a new incarnation. Buffers end with their session. */
  ghost predicate MayLeave(e: Obligation, s: System, step: Step)
    requires Enabled(s, step)
  {
    match step
    case HandleReserve(q, res, _) =>
      && Matches(e, UnresolvedReserve(q.id, q.class_, q.bytes), q.lease) && Decisive(q, res)
    case HandleRelease(q, res) =>
      && Matches(e, ReservationTarget(q.reservation), q.lease)
      && ReleaseTerminal(res, q.lease, q.reservation)
    case HandleTaken(reply, _) => Matches(e, ReservationTarget(reply.reservation), reply.lease)
    case ResolvePurged =>
      && e.knowledge == AwaitingPurgeProof && e.lease.id < s.world.manager.value.id
      && PurgedBefore(s.world.worker, s.world.manager.value.id)
    case BeginReconcile =>
      e.target.BufferTarget? || e.lease.incarnation < s.world.manager.value.incarnation
    case DropBuffer(_, _) => e.target.BufferTarget?
    case _ => false
  }

  lemma ReconnectLeaves(s: System, e: Obligation)
    requires Inv(s) && Enabled(s, BeginReconcile) && e in s.ledger && !Present(e, NewLedger(s, BeginReconcile))
    ensures MayLeave(e, s, BeginReconcile)
  {
    var lease, l' := s.world.manager.value, NewLedger(s, BeginReconcile);
    assert EntryOk(e, s.world);
    RetainMembers(s.ledger, e => SurvivesReconnect(e, lease));
    EachMembers(Retain(s.ledger, e => SurvivesReconnect(e, lease)), e => Reclassified(e, lease));
    assert SurvivesReconnect(e, lease) ==> Reclassified(e, lease) in l';
  }

  lemma ReserveLeaves(l: Entries, q: ResourceRequest, res: ResourceResult, origin: nat, e: Obligation)
    requires q.Reserve? && e in l && !Present(e, AfterReserve(l, q, res, origin))
    ensures Matches(e, UnresolvedReserve(q.id, q.class_, q.bytes), q.lease) && Decisive(q, res)
  {
    var from := UnresolvedReserve(q.id, q.class_, q.bytes);
    assert e !in AfterReserve(l, q, res, origin);
    RetainMembers(l, e => !Matches(e, from, q.lease));
    var r := SuccessfulReservation(res, q.lease, q.class_, q.bytes);
    if r.Some? { ReplacedMembers(l, from, ReservationTarget(r.value), q.lease, origin); }
  }

  lemma TakenLeaves(l: Entries, reply: Reply, origin: nat, e: Obligation)
    requires reply.Taken? && e in l && !Present(e, AfterTaken(l, reply, origin))
    ensures Matches(e, ReservationTarget(reply.reservation), reply.lease)
  {
    var target := ReservationTarget(reply.reservation);
    assert e !in AfterTaken(l, reply, origin);
    RetainMembers(l, e => !Matches(e, target, reply.lease));
    if reply.buffer.Some? {
      ReplacedMembers(l, target, BufferTarget(reply.buffer.value), reply.lease, origin);
    }
  }

  lemma EntryLeaves(s: System, step: Step, e: Obligation)
    requires Inv(s) && Enabled(s, step) && e in s.ledger && !Present(e, NewLedger(s, step))
    ensures MayLeave(e, s, step)
  {
    assert e !in NewLedger(s, step) && EntryOk(e, s.world);
    match step
    case BeginReconcile => ReconnectLeaves(s, e);
    case HandleReserve(q, res, origin) => ReserveLeaves(s.ledger, q, res, origin, e);
    case HandleRelease(q, res) =>
      RetainMembers(s.ledger, e => !Matches(e, ReservationTarget(q.reservation), q.lease));
    case HandleTaken(reply, origin) => TakenLeaves(s.ledger, reply, origin, e);
    case DropBuffer(lease, buffer) =>
      RetainMembers(s.ledger, e => !Matches(e, BufferTarget(buffer), lease));
    case NoteAmbiguous(target, lease) => MarkedMembers(s.ledger, target, lease);
    case ResolvePurged =>
      RetainMembers(s.ledger, e => !PurgeSettles(e, s.world.manager.value));
    case _ =>
  }

  /** An entry leaves only by one of those, and then nothing live depends on it any more
      and its request can create nothing. */
  lemma EntryLeavesSettled(s: System, step: Step, e: Obligation)
    requires Inv(s) && Enabled(s, step)
    requires e in s.ledger && !Present(e, NewLedger(s, step))
    ensures MayLeave(e, s, step)
    ensures Excused(e, NewLedger(s, step), s.world.worker)
  {
    EntryLeaves(s, step, e);
    assert IsEdit(step) && e !in NewLedger(s, step);
    EditStep(s, step);
  }

  // ----- The debt of superseded leases ends ----------------------------------------------------

  /** What awaits a purge proof is of another lease of the manager's incarnation. */
  ghost predicate Settleable(s: System) {
    s.world.manager.Some? &&
    forall e | e in s.ledger && e.knowledge == AwaitingPurgeProof ::
      e.lease.id != s.world.manager.value.id && e.lease.incarnation == s.world.manager.value.incarnation
  }

  /** Nothing starts to wait but by a reconnect. */
  ghost predicate NoneNewAwaits(l: Entries, l': Entries) {
    forall d | d in l' && d.knowledge == AwaitingPurgeProof ::
      exists e :: e in l && e.knowledge == AwaitingPurgeProof && e.lease == d.lease
  }

  lemma RetainAwaits(l: Entries, keep: Obligation -> bool)
    ensures NoneNewAwaits(l, Retain(l, keep))
  {
    RetainMembers(l, keep);
  }

  lemma ReplaceAwaits(l: Entries, from: Target, to: Target, lease: Lease, origin: nat)
    ensures NoneNewAwaits(l, Replaced(l, from, to, lease, origin))
  {
    ReplacedMembers(l, from, to, lease, origin);
  }

  lemma EditAwaits(s: System, step: Step)
    requires Enabled(s, step) && !step.BeginReconcile?
    ensures NoneNewAwaits(s.ledger, NewLedger(s, step))
  {
    var l := s.ledger;
    match step
    case HandleReserve(q, res, origin) =>
      var from := UnresolvedReserve(q.id, q.class_, q.bytes);
      RetainAwaits(l, e => !Matches(e, from, q.lease));
      var r := SuccessfulReservation(res, q.lease, q.class_, q.bytes);
      if r.Some? { ReplaceAwaits(l, from, ReservationTarget(r.value), q.lease, origin); }
    case HandleRelease(q, res) => RetainAwaits(l, e => !Matches(e, ReservationTarget(q.reservation), q.lease));
    case HandleTaken(reply, origin) =>
      var target := ReservationTarget(reply.reservation);
      RetainAwaits(l, e => !Matches(e, target, reply.lease));
      if reply.buffer.Some? { ReplaceAwaits(l, target, BufferTarget(reply.buffer.value), reply.lease, origin); }
    case DropBuffer(lease, buffer) => RetainAwaits(l, e => !Matches(e, BufferTarget(buffer), lease));
    case NoteAmbiguous(target, lease) => MarkedMembers(l, target, lease);
    case ResolvePurged => RetainAwaits(l, e => !PurgeSettles(e, s.world.manager.value));
    case _ =>
  }

  lemma ManagerStays(s: System, step: Step)
    requires !step.Adopt?
    ensures NewWorld(s, step).manager == s.world.manager
  {}

  lemma SettleableStep(s: System, step: Step)
    requires Enabled(s, step) && !step.Adopt? && Settleable(s)
    ensures Settleable(Next(s, step))
  {
    ManagerStays(s, step);
    if step.BeginReconcile? {
      ReconnectedExactly(s.ledger, s.world.manager.value);
    } else {
      EditAwaits(s, step);
    }
  }

  lemma {:induction false} SettleableRun(s: System, steps: seq<Step>)
    requires Run(s, steps) && Settleable(s) && forall i | 0 <= i < |steps| :: !steps[i].Adopt?
    ensures Settleable(After(s, steps))
    decreases |steps|
  {
    if steps != [] {
      SettleableStep(s, steps[0]);
      SettleableRun(Next(s, steps[0]), steps[1..]);
    }
  }

  /** After a reconnect, whatever runs under the manager's lease: once the purge is proved for it
      and resolved, nothing waits any more, so no superseded entry keeps its place for good. */
  lemma SupersededDebtIsSettled(s: System, steps: seq<Step>)
    requires s.world.manager.Some? && Run(Next(s, BeginReconcile), steps)
    requires forall i | 0 <= i < |steps| :: !steps[i].Adopt?
    requires Enabled(After(Next(s, BeginReconcile), steps), ResolvePurged)
    ensures forall e | e in Next(After(Next(s, BeginReconcile), steps), ResolvePurged).ledger ::
              e.knowledge != AwaitingPurgeProof
  {
    var s1 := Next(s, BeginReconcile);
    ReconnectedExactly(s.ledger, s.world.manager.value);
    SettleableRun(s1, steps);
    var s2 := After(s1, steps);
    PurgedExactly(s2.ledger, s2.world.manager.value);
  }

  lemma FourSteps(s: System, a: Step, b: Step, c: Step, d: Step)
    requires Enabled(s, a) && Enabled(Next(s, a), b) && Enabled(Next(Next(s, a), b), c)
    requires Enabled(Next(Next(Next(s, a), b), c), d)
    ensures Run(s, [a, b, c, d]) && After(s, [a, b, c, d]) == Next(Next(Next(Next(s, a), b), c), d)
  {
    var s1 := Next(s, a);
    var s2 := Next(s1, b);
    var s3 := Next(s2, c);
    var s4 := Next(s3, d);
    assert Run(s4, []) && After(s4, []) == s4;
    assert [d][1..] == [] && Run(s3, [d]) && After(s3, [d]) == s4;
    assert [c, d][1..] == [d] && Run(s2, [c, d]) && After(s2, [c, d]) == s4;
    assert [b, c, d][1..] == [c, d] && Run(s1, [b, c, d]) && After(s1, [b, c, d]) == s4;
    assert [a, b, c, d][1..] == [b, c, d];
  }

  /** A release is sent, served and answered. */
  lemma CallIsAnswered(s: System, q: ResourceRequest, health: Health)
    requires !q.Reserve? && Aimed(s.world.worker, q)
    ensures Enabled(s, StartCall(q)) && Enabled(Next(s, StartCall(q)), Serve(q, health))
    ensures var s2 := Next(Next(s, StartCall(q)), Serve(q, health));
            && Answer(q, ApplyResource(s.world.worker, q, health).1) in s2.world.replies
            && s2.ledger == s.ledger && s2.world.manager == s.world.manager
  {}

  /** Four steps of the host and the worker: a release under the manager's lease, for something
      the purge leaves nothing of, is served, proves the purge, and settles what waited. */
  lemma PurgeCanBeProved(s: System, q: ResourceRequest, health: Health)
    requires Settleable(s) && q.Release? && q.lease == s.world.manager.value && Aimed(s.world.worker, q)
    requires FirstServed(s.world.worker, q) && q.reservation !in Purge(s.world.worker, q.lease.id).reservations
    ensures var res := ApplyResource(s.world.worker, q, health).1;
            var steps := [StartCall(q), Serve(q, health), HandleRelease(q, res), ResolvePurged];
            Run(s, steps) && forall e | e in After(s, steps).ledger :: e.knowledge != AwaitingPurgeProof
  {
    var res := ApplyResource(s.world.worker, q, health).1;
    ReleaseSettles(s.world.worker, q, health);
    CallIsAnswered(s, q, health);
    var s2 := Next(Next(s, StartCall(q)), Serve(q, health));
    ProofIsKept(s2, q, res);
    SettleableStep(s2, HandleRelease(q, res));
    var s3 := Next(s2, HandleRelease(q, res));
    PurgedExactly(s3.ledger, s3.world.manager.value);
    FourSteps(s, StartCall(q), Serve(q, health), HandleRelease(q, res), ResolvePurged);
  }

  lemma ProofIsKept(s: System, q: ResourceRequest, res: ResourceResult)
    requires q.Release? && ProvesPurge(res, q.lease, q.reservation)
    ensures q.lease.id in NewWorld(s, HandleRelease(q, res)).proofs
  {}

  /** A buffer that took over a reservation takes over its place in the ledger. */
  lemma TakenByBuffer(l: Entries, reply: Reply, origin: nat)
    requires reply.Taken? && reply.buffer.Some? && Find(l, ReservationTarget(reply.reservation), reply.lease) < |l|
    ensures var i := Find(l, ReservationTarget(reply.reservation), reply.lease);
            AfterTaken(l, reply, origin)
            == l[i := Obligation(reply.lease, origin, BufferTarget(reply.buffer.value), Known)]
  {
    ReplacedFirst(l, ReservationTarget(reply.reservation), BufferTarget(reply.buffer.value), reply.lease, origin);
  }

  // ----- A ledger that is what it was -----------------------------------------------------------

  /** Whatever ran in between: if the ledger is again what it was, the worker holds nothing live
      that was made since, except for a request that was unresolved before. So an execution that
      restores the ledger leaves nothing live on the worker. */
  lemma RestoredLedgerLeavesNothingLive(s: System, steps: seq<Step>, r: ReservationId)
    requires Inv(s) && Run(s, steps) && After(s, steps).ledger == s.ledger
    requires IsLive(After(s, steps).world.worker, r) && r >= s.world.worker.nextReservation
    ensures Awaits(s.ledger, KeyOf(After(s, steps).world.worker.reservations[r]))
  {
    RunKeeps(s, steps);
    var w := After(s, steps).world.worker;
    var k := KeyOf(w.reservations[r]);
    var e :| e in s.ledger && Covers(e, k, r);
    assert EntryOk(e, s.world);
    assert AwaitsOutcome(e, k);
  }
}
