/** How far request-id idempotence reaches: one reservation per memory of the request,
    and an orphan as soon as a request is forgotten while a message about it is in flight. */
module ProtocolLimits {
  import opened Basics
  import opened Wire
  import opened Worker
  import opened WorkerFacts
  import opened WorkerBudget
  import opened WorkerLaws
  import opened HostView
  import opened Ledger
  import opened Protocol
  import opened ProtocolProof
  import opened ProtocolRuns

  // ----- Reservations per request id -------------------------------------------------------

  /** The step made a reservation for the request `k`. */
  ghost predicate Made(s: System, step: Step, k: Key)
    requires Enabled(s, step)
  {
    Keyed(Next(s, step).world.worker, k, s.world.worker.nextReservation)
  }

  /** The step ended the memory of `k` while its lease can still be used. */
  ghost predicate Forgot(s: System, step: Step, k: Key)
    requires Enabled(s, step)
  {
    Inert(s.world.worker, k) && !Inert(Next(s, step).world.worker, k)
  }

  ghost function TimesMade(s: System, steps: seq<Step>, k: Key): nat
    requires Run(s, steps)
    decreases |steps|
  {
    if steps == [] then 0
    else (if Made(s, steps[0], k) then 1 else 0) + TimesMade(Next(s, steps[0]), steps[1..], k)
  }

  ghost function TimesForgot(s: System, steps: seq<Step>, k: Key): nat
    requires Run(s, steps)
    decreases |steps|
  {
    if steps == [] then 0
    else (if Forgot(s, steps[0], k) then 1 else 0) + TimesForgot(Next(s, steps[0]), steps[1..], k)
  }

  /** The reserve passes every check of the worker on the way to a new reservation. */
  predicate Grants(w: Worker, q: ResourceRequest, health: Health) {
    && q.Reserve? && q.id != 0 && Valid(w, q.lease) && !w.Knows((q.lease.id, q.id))
    && |OwnResponses(w, q.lease.id).responses| < IDEMPOTENCE_CAPACITY
    && |Purge(w, q.lease.id).decisions| < IDEMPOTENCE_CAPACITY
    && Fundable(Purge(w, q.lease.id).held, q.class_, q.bytes, health)
  }

  lemma ReserveMakes(w: Worker, q: ResourceRequest, health: Health)
    requires q.Reserve?
    ensures var k := (q.lease.id, q.id);
            var w' := DoReserve(w, q, health).worker;
            if k !in w.decisions && |w.decisions| < IDEMPOTENCE_CAPACITY
               && Decide(w, q.class_, q.bytes, health).Granted?
            then w'.nextReservation == w.nextReservation + 1 && Keyed(w', k, w.nextReservation)
            else w'.nextReservation == w.nextReservation
  {}

  lemma OthersMakeNone(w: Worker, q: ResourceRequest, health: Health)
    requires !q.Reserve?
    ensures Dispatch(w, q, health).worker.nextReservation == w.nextReservation
  {}

  lemma ServeMakes(w: Worker, q: ResourceRequest, health: Health)
    ensures var w' := ApplyResource(w, q, health).0;
            if Grants(w, q, health)
            then w'.nextReservation == w.nextReservation + 1 && Keyed(w', (q.lease.id, q.id), w.nextReservation)
            else w'.nextReservation == w.nextReservation
  {
    if q.id != 0 && Valid(w, q.lease) {
      var w1 := OwnResponses(w, q.lease.id);
      var w2 := Purge(w1, q.lease.id);
      assert w2.decisions == Purge(w, q.lease.id).decisions && w2.held == Purge(w, q.lease.id).held;
      if (q.lease.id, q.id) !in w1.responses && |w1.responses| < IDEMPOTENCE_CAPACITY {
        if q.Reserve? {
          ReserveMakes(w2, q, health);
          DecideExactly(w2, q.class_, q.bytes, health);
        } else {
          OthersMakeNone(w2, q, health);
        }
        assert ApplyResource(w, q, health).0 == Record(Dispatch(w2, q, health), q);
      }
    }
  }

  lemma QuietNumbers(w: Worker, step: Step)
    requires WorkerOk(w) && !step.Serve?
    ensures NewWorker(w, step).nextReservation == w.nextReservation
  {
    match step
    case ServeTake(lease, id, class_, exact, _) => ConsumeKeeps(w, lease, id, class_, exact);
    case _ =>
  }

  /** No reservation has a number that is yet to be given. */
  lemma NumbersAbove(s: System, step: Step)
    requires Inv(s) && Enabled(s, step)
    ensures var w' := NewWorker(s.world.worker, step); forall id | id in w'.reservations :: id < w'.nextReservation
  {
    StepKeeps(s, step);
    assert LeasesOk(NewWorker(s.world.worker, step));
  }

  /** A step makes a reservation for a request exactly if it serves that reserve, the worker
      remembers nothing of it, both its tables have room, and it can be funded from what the purge leaves. */
  lemma MadeExactly(s: System, step: Step, k: Key)
    requires Inv(s) && Enabled(s, step)
    ensures Made(s, step, k)
       <==> step.Serve? && k == (step.request.lease.id, step.request.id)
            && Grants(s.world.worker, step.request, step.health)
  {
    var w := s.world.worker;
    NumbersAbove(s, step);
    if step.Serve? { ServeMakes(w, step.request, step.health); } else { QuietNumbers(w, step); }
  }

  /** A reservation is made only at a first execution, which is remembered. */
  lemma MadeOnce(s: System, step: Step, k: Key)
    requires Inv(s) && Enabled(s, step) && Made(s, step, k)
    ensures !Inert(s.world.worker, k) && Inert(Next(s, step).world.worker, k)
  {
    MadeExactly(s, step, k);
    StepKeeps(s, step);
    assert DecisionsOk(Next(s, step).world.worker) && LeasesOk(Next(s, step).world.worker);
  }

  lemma {:induction false} MadeBound(s: System, steps: seq<Step>, k: Key)
    requires Inv(s) && Run(s, steps)
    ensures TimesMade(s, steps, k)
            <= TimesForgot(s, steps, k) + (if Inert(s.world.worker, k) then 0 else 1)
    decreases |steps|
  {
    if steps != [] {
      StepKeeps(s, steps[0]);
      MadeBound(Next(s, steps[0]), steps[1..], k);
      if Made(s, steps[0], k) { MadeOnce(s, steps[0], k); }
    }
  }

  /** Over any run, a request id makes at most one reservation more often than the worker
      forgets it; never forgotten, it makes at most one, whatever is replayed. */
  lemma OneReservationPerMemory(steps: seq<Step>, k: Key)
    requires Run(INIT, steps)
    ensures TimesMade(INIT, steps, k) <= 1 + TimesForgot(INIT, steps, k)
  {
    InitOk();
    MadeBound(INIT, steps, k);
  }

  // ----- The retention assumption is needed --------------------------------------------------

  lemma PurgeNothing(w: Worker, lease: LeaseId)
    requires Superseded(w, lease) == {}
    requires forall k | k in w.decisions :: k.0 == lease
    ensures Purge(w, lease) == w
  {
    HeldPartition(w.reservations, {}, w.nextReservation);
    assert w.reservations - {} == w.reservations;
    assert (map k | k in w.decisions && k.0 == lease :: w.decisions[k]) == w.decisions;
  }

  const HEALTHY: Health := Health(false, false, 4 * 1024 * 1024 * 1024, true)
  const FIRST_LEASE: Lease := Lease(1, 1)
  const PROBE: ResourceRequest := Reserve(FIRST_LEASE, 7, NativeOpScratchBytes, 1)

  /** The probe served by a worker with no memory at all. */
  lemma ProbeGranted(w: Worker)
    requires w.incarnation == 1 && w.active == Some(1) && w.decisions == map[] && w.responses == map[]
    requires Superseded(w, 1) == {} && w.held == 0
    ensures var (w', res) := ApplyResource(w, PROBE, HEALTHY);
            var n := w.nextReservation;
            && w'.reservations == w.reservations[n := Reservation(1, 7, NativeOpScratchBytes, 1, Reserved)]
            && w'.nextReservation == n + 1 && w'.held == 1
            && w'.incarnation == 1 && w'.active == Some(1) && w'.lastLease == w.lastLease
            && w'.decisions == map[(1, 7) := Remembered(NativeOpScratchBytes, 1, Granted(n), false)]
            && w'.responses == map[(1, 7) := Cached(PROBE, res)]
            && SuccessfulReservation(res, FIRST_LEASE, NativeOpScratchBytes, 1) == Some(n)
  {
    var w1 := OwnResponses(w, 1);
    assert w1 == w;
    PurgeNothing(w, 1);
    assert Decide(w, NativeOpScratchBytes, 1, HEALTHY) == Granted(w.nextReservation);
  }

  const PROBE_ENTRY: Obligation := Obligation(FIRST_LEASE, 1, UnresolvedReserve(7, NativeOpScratchBytes, 1), Ambiguous)

  lemma {:induction false} OneMore(s: System, steps: seq<Step>, step: Step)
    requires Run(s, steps) && Enabled(After(s, steps), step)
    ensures Run(s, steps + [step]) && After(s, steps + [step]) == Next(After(s, steps), step)
    decreases |steps|
  {
    if steps == [] {
      assert ([step])[1..] == [];
    } else {
      assert (steps + [step])[1..] == steps[1..] + [step];
      OneMore(Next(s, steps[0]), steps[1..], step);
    }
  }

  /** The probe is on its way to a worker that never saw it. */
  ghost predicate Sent(s: System) {
    && s.ledger == [PROBE_ENTRY] && s.world.requests == {PROBE} && s.world.replies == {}
    && s.world.manager == Some(FIRST_LEASE)
    && s.world.worker == COLD_START.(active := Some(1), lastLease := 1)
  }

  lemma ReachSent() returns (steps: seq<Step>)
    ensures Run(INIT, steps) && Sent(After(INIT, steps))
  {
    steps := [Grant];
    OneMore(INIT, [], Grant);
    assert [] + [Grant] == steps;
    OneMore(INIT, steps, Adopt(FIRST_LEASE));
    steps := steps + [Adopt(FIRST_LEASE)];
    var step := StartReserve(FIRST_LEASE, 7, NativeOpScratchBytes, 1, 1);
    OneMore(INIT, steps, step);
    steps := steps + [step];
    assert Tracked([], PROBE_ENTRY) == [PROBE_ENTRY];
  }

  /** The reservation the probe made has expired, and the worker remembers both. */
  ghost predicate SpentProbe(w: Worker, res: ResourceResult) {
    && w.incarnation == 1 && w.active == Some(1) && w.held == 0 && w.nextReservation == 2
    && w.reservations == map[1 := Reservation(1, 7, NativeOpScratchBytes, 1, Expired)]
    && w.decisions == map[(1, 7) := Remembered(NativeOpScratchBytes, 1, Granted(1), true)]
    && w.responses == map[(1, 7) := Cached(PROBE, res)]
    && SuccessfulReservation(res, FIRST_LEASE, NativeOpScratchBytes, 1) == Some(1)
  }

  /** The answer is in the hands of a host thread, and the reservation it names expired. */
  ghost predicate Stalled(s: System, res: ResourceResult) {
    && s.ledger == [PROBE_ENTRY]
    && PROBE in s.world.requests && Answer(PROBE, res) in s.world.replies && SpentProbe(s.world.worker, res)
  }

  lemma ServeProbe(s: System)
    requires PROBE in s.world.requests
    ensures Enabled(s, Serve(PROBE, HEALTHY))
    ensures var t := Next(s, Serve(PROBE, HEALTHY));
            var (w', res) := ApplyResource(s.world.worker, PROBE, HEALTHY);
            && t.ledger == s.ledger && t.world.requests == s.world.requests
            && t.world.replies == s.world.replies + {Answer(PROBE, res)} && t.world.worker == w'
  {}

  lemma ExpireFirst(w: Worker)
    requires w.reservations == map[1 := Reservation(1, 7, NativeOpScratchBytes, 1, Reserved)]
    requires w.decisions == map[(1, 7) := Remembered(NativeOpScratchBytes, 1, Granted(1), false)]
    requires w.held == 1
    ensures var w' := Expire(w, 1);
            && w'.reservations == map[1 := Reservation(1, 7, NativeOpScratchBytes, 1, Expired)]
            && w'.decisions == map[(1, 7) := Remembered(NativeOpScratchBytes, 1, Granted(1), true)]
            && w'.held == 0 && w' == w.(reservations := w'.reservations, decisions := w'.decisions, held := 0)
  {}

  /** The worker without the response and the decision for `k`. */
  function Forgetful(s: System, k: Key): System {
    s.(world := s.world.(worker := ForgetDecision(ForgetResponse(s.world.worker, k), k)))
  }

  /** The late answer takes the only entry. */
  lemma LateAnswer(t: System, res: ResourceResult)
    requires t.ledger == [PROBE_ENTRY] && Answer(PROBE, res) in t.world.replies
    requires SuccessfulReservation(res, FIRST_LEASE, NativeOpScratchBytes, 1) == Some(1)
    requires IsLive(t.world.worker, 2) && KeyOf(t.world.worker.reservations[2]) == (1, 7)
    ensures var step := HandleReserve(PROBE, res, 1);
            && Enabled(t, step)
            && !Covered(Next(t, step).ledger, Next(t, step).world.worker)
  {
    var l' := AfterReserve([PROBE_ENTRY], PROBE, res, 1);
    assert l' == [Resolved(PROBE_ENTRY, ReservationTarget(1), 1)];
    assert !Owes(l', (1, 7), 2);
  }

  lemma Relapse(s: System, res: ResourceResult) returns (more: seq<Step>)
    requires Stalled(s, res)
    ensures var s' := Forgetful(s, (1, 7));
            Run(s', more) && !Covered(After(s', more).ledger, After(s', more).world.worker)
  {
    var s' := Forgetful(s, (1, 7));
    assert s'.world.worker.decisions == map[] && s'.world.worker.responses == map[];
    ProbeGranted(s'.world.worker);
    ServeProbe(s');
    OneMore(s', [], Serve(PROBE, HEALTHY));
    more := [] + [Serve(PROBE, HEALTHY)];
    LateAnswer(After(s', more), res);
    OneMore(s', more, HandleReserve(PROBE, res, 1));
    more := more + [HandleReserve(PROBE, res, 1)];
  }

  /** Forgetting a request that is still in flight can orphan a reservation: the replayed
      reserve makes a second one, and the late first answer takes the entry. */
  lemma ForgettingInFlightOrphans()
    ensures exists steps, k, more ::
      && Run(INIT, steps) && InFlight(After(INIT, steps).world, k)
      && Run(Forgetful(After(INIT, steps), k), more)
      && (var s := After(Forgetful(After(INIT, steps), k), more); !Covered(s.ledger, s.world.worker))
  {
    var steps, res := ReachServed();
    var s := After(INIT, steps);
    assert InFlight(s.world, (1, 7)) by { assert PROBE in s.world.requests; }
    var more := Relapse(s, res);
  }

  // ----- A second reservation for one request id ---------------------------------------------------

  lemma {:induction false} MadeMore(s: System, steps: seq<Step>, step: Step, k: Key)
    requires Run(s, steps) && Enabled(After(s, steps), step) && Run(s, steps + [step])
    ensures TimesMade(s, steps + [step], k) == TimesMade(s, steps, k) + if Made(After(s, steps), step, k) then 1 else 0
    decreases |steps|
  {
    if steps == [] {
      assert [step][1..] == [];
      assert steps + [step] == [step];
    } else {
      assert (steps + [step])[1..] == steps[1..] + [step];
      MadeMore(Next(s, steps[0]), steps[1..], step, k);
    }
  }

  /** Appends one enabled step to a run. */
  lemma Extend(steps: seq<Step>, step: Step) returns (more: seq<Step>)
    requires Run(INIT, steps) && Enabled(After(INIT, steps), step)
    ensures more == steps + [step] && Run(INIT, more) && After(INIT, more) == Next(After(INIT, steps), step)
    ensures TimesMade(INIT, more, (1, 7))
         == TimesMade(INIT, steps, (1, 7)) + if Made(After(INIT, steps), step, (1, 7)) then 1 else 0
  {
    OneMore(INIT, steps, step);
    MadeMore(INIT, steps, step, (1, 7));
    more := steps + [step];
  }

  /** The reserve was made once and expired, its messages are lost and its memory is gone, but
      the ledger still has it as unresolved. */
  ghost predicate Forgotten(s: System) {
    && s.ledger == [PROBE_ENTRY] && s.world.requests == {} && s.world.replies == {}
    && s.world.manager == Some(FIRST_LEASE) && Blank(s.world.worker)
  }

  ghost predicate Blank(w: Worker) {
    && w.incarnation == 1 && w.active == Some(1) && w.held == 0 && w.nextReservation == 2
    && w.reservations == map[1 := Reservation(1, 7, NativeOpScratchBytes, 1, Expired)]
    && w.decisions == map[] && w.responses == map[]
  }

  lemma ReachServed() returns (steps: seq<Step>, res: ResourceResult)
    ensures Run(INIT, steps) && Stalled(After(INIT, steps), res) && TimesMade(INIT, steps, (1, 7)) >= 1
    ensures var w := After(INIT, steps).world;
            w.requests == {PROBE} && w.replies == {Answer(PROBE, res)} && w.manager == Some(FIRST_LEASE)
  {
    steps := ReachSent();
    var s := After(INIT, steps);
    var w' := ApplyResource(s.world.worker, PROBE, HEALTHY).0;
    res := ApplyResource(s.world.worker, PROBE, HEALTHY).1;
    ProbeGranted(s.world.worker);
    ServeProbe(s);
    steps := Extend(steps, Serve(PROBE, HEALTHY));
    ExpireFirst(w');
    steps := Extend(steps, ExpireOne(1));
  }

  /** All messages about the probe are lost, and the worker still remembers it. */
  ghost predicate Silent(s: System, res: ResourceResult) {
    && s.ledger == [PROBE_ENTRY] && s.world.requests == {} && s.world.replies == {}
    && s.world.manager == Some(FIRST_LEASE) && SpentProbe(s.world.worker, res)
  }

  lemma ForgetsProbe(s: System, res: ResourceResult)
    requires Silent(s, res)
    ensures Enabled(s, ForgetAnswer((1, 7)))
    ensures var t := Next(s, ForgetAnswer((1, 7)));
            Enabled(t, ForgetDecided((1, 7))) && Forgotten(Next(t, ForgetDecided((1, 7))))
  {
    var w := ForgetDecision(ForgetResponse(s.world.worker, (1, 7)), (1, 7));
    assert w.decisions == map[] && w.responses == map[];
  }

  lemma ReachSilent() returns (steps: seq<Step>, res: ResourceResult)
    ensures Run(INIT, steps) && TimesMade(INIT, steps, (1, 7)) >= 1
    ensures Silent(After(INIT, steps), res)
  {
    steps, res := ReachServed();
    steps := Extend(steps, LoseRequest(PROBE));
    steps := Extend(steps, LoseReply(Answer(PROBE, res)));
    var s := After(INIT, steps);
    assert s.world.requests == {} && s.world.replies == {};
  }

  lemma ReachForgotten() returns (steps: seq<Step>)
    ensures Run(INIT, steps) && Forgotten(After(INIT, steps)) && TimesMade(INIT, steps, (1, 7)) >= 1
  {
    var res;
    steps, res := ReachSilent();
    ForgetsProbe(After(INIT, steps), res);
    steps := Extend(steps, ForgetAnswer((1, 7)));
    steps := Extend(steps, ForgetDecided((1, 7)));
  }

  /** The reconnect replays the unresolved reserve. */
  lemma ReplayForgotten(s: System)
    requires Forgotten(s)
    ensures Enabled(s, BeginReconcile)
    ensures var t := Next(s, BeginReconcile); PROBE in t.world.requests && t.world.worker == s.world.worker
  {
    var l' := Reconnected([PROBE_ENTRY], FIRST_LEASE);
    assert Retain([PROBE_ENTRY], e => SurvivesReconnect(e, FIRST_LEASE)) == [PROBE_ENTRY];
    assert l' == [PROBE_ENTRY];
    assert PROBE in Replays(l', FIRST_LEASE);
  }

  lemma ReachReplayed() returns (steps: seq<Step>)
    ensures Run(INIT, steps) && TimesMade(INIT, steps, (1, 7)) >= 1
    ensures var world := After(INIT, steps).world;
            PROBE in world.requests && Blank(world.worker)
  {
    steps := ReachForgotten();
    ReplayForgotten(After(INIT, steps));
    steps := Extend(steps, BeginReconcile);
  }

  /** The probe finds a worker that has forgotten it. */
  lemma ProbeMakes(s: System)
    requires PROBE in s.world.requests && Blank(s.world.worker)
    ensures Enabled(s, Serve(PROBE, HEALTHY)) && Made(s, Serve(PROBE, HEALTHY), (1, 7))
  {
    ProbeGranted(s.world.worker);
    ServeProbe(s);
  }

  /** Once forgotten under a lease that lives on, the same request makes a second reservation. */
  lemma SecondReservation()
    ensures exists steps :: Run(INIT, steps) && TimesMade(INIT, steps, (1, 7)) >= 2
  {
    var steps := ReachReplayed();
    ProbeMakes(After(INIT, steps));
    steps := Extend(steps, Serve(PROBE, HEALTHY));
  }
}
