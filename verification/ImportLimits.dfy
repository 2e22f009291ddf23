/** How far an import can be ended, and a cancellation confirmed. */
module ImportLimits {
  import opened Basics
  import opened Imports
  import opened ImportProof
  import opened ImportRuns
  import opened ImportTheorems

  // ----- An entry that nobody can end ------------------------------------------------------------

  /** Marked as having a receiver, but there is none. */
  ghost predicate Stuck(s: Store, h: Handle) {
    h in s.live && s.live[h].phase.Receiving? && s.live[h].workerRunning && h !in s.receivers
  }

  lemma StuckStep(s: Store, step: Step, h: Handle)
    requires Inv(s) && Enabled(s, step) && Stuck(s, h)
    ensures Stuck(Next(s, step), h)
  {
    assert HandleOk(s, h);
    if About(step, h) {
      assert step.AskStatus? || step.AskCancel? || step.AskConsume?;
    } else {
      StepAgrees(s, step, h);
    }
  }

  /** A stuck entry keeps its quota in every run, and no cancellation is ever confirmed. */
  lemma {:induction false} StuckForever(s: Store, steps: seq<Step>, h: Handle, r: Requester, now: nat, io: Unlink)
    requires Inv(s) && Run(s, steps) && Stuck(s, h)
    ensures Stuck(After(s, steps), h)
    ensures var answer := CancelPass(After(s, steps), r, h, false, now, io).1;
            answer == None || answer == Some(Err(NotFound))
    decreases |steps|
  {
    if steps == [] {
      assert HandleOk(s, h);
      RetainMembers(s.tombstones, Young(now));
    } else {
      StuckStep(s, steps[0], h);
      StepKeeps(s, steps[0]);
      StuckForever(Next(s, steps[0]), steps[1..], h, r, now, io);
    }
  }

  lemma ExpiredUnstuck(s: Store, order: seq<Handle>, i: nat, now: nat, io: Handle -> Unlink)
    requires Listing(s.live, order, i) && i < |order| && s.live[order[i]].phase.Ready?
    ensures !Stuck(Expire(s, order, i, now, io).0, order[i])
  {
    if io(order[i]).Confirmed? {
      ExpireAgrees(ExpiredOne(s, order[i], now, io(order[i])), order, i + 1, now, io, order[i]);
    }
  }

  lemma {:induction false} ExpireUnstuck(s: Store, order: seq<Handle>, i: nat, now: nat, io: Handle -> Unlink, j: nat)
    requires Listing(s.live, order, i) && i <= j < |order| && s.live[order[j]].phase.Ready?
    ensures !Stuck(Expire(s, order, i, now, io).0, order[j])
    decreases |order| - i
  {
    var s1 := ExpiredOne(s, order[i], now, io(order[i]));
    if i == j {
      ExpiredUnstuck(s, order, i, now, io);
    } else if io(order[i]).Confirmed? {
      assert s1.live == s.live - {order[i]};
      ExpireUnstuck(s1, order, i + 1, now, io, j);
      assert Expire(s, order, i, now, io) == Expire(s1, order, i + 1, now, io);
    } else {
      assert Expire(s, order, i, now, io).0.live == s.live;
    }
  }

  lemma CancelStuck(s: Store, r: Requester, h: Handle, requested: bool, now: nat, io: Unlink)
    ensures Stuck(CancelPass(s, r, h, requested, now, io).0, h) <==> Stuck(s, h)
  {
  }

  lemma ConsumeStuck(s: Store, r: Requester, h: Handle, openable: bool, io: Unlink, now: nat)
    ensures Stuck(Consume(s, r, h, openable, io, now).0, h) <==> Stuck(s, h)
  {
  }

  lemma FinishStuck(s: Store, step: Step)
    requires Enabled(s, step) && (step.FinishReady? || step.FinishOther?)
    requires HandleOk(s, step.handle)
    ensures !Stuck(Next(s, step), step.handle)
  {
  }

  lemma CopyStuck(s: Store, step: Step)
    requires Enabled(s, step) && OfReceiver(step)
    requires !step.Abandon? && !step.FinishReady? && !step.FinishOther?
    ensures !Stuck(Next(s, step), step.handle)
  {
  }

  lemma RequestStuck(s: Store, step: Step, h: Handle)
    requires Inv(s) && Enabled(s, step) && About(step, h) && !OfReceiver(step) && !Stuck(s, h)
    ensures !Stuck(Next(s, step), h)
  {
    match step {
      case AskStatus(_, _, _) =>
      case AskCancel(r, _, now, io) => CancelStuck(s, r, h, false, now, io);
      case AskConsume(r, _, openable, io, now) => ConsumeStuck(s, r, h, openable, io, now);
      case ExpireReady(order, now, ios) =>
        var j :| 0 <= j < |order| && order[j] == h;
        ExpireUnstuck(Forgetting(s, now), order, 0, now, IoOf(ios), j);
    }
  }

  lemma AbandonStuck(s: Store, h: Handle, io: Unlink)
    requires HandleOk(s, h) && h in s.receivers
    ensures Stuck(FailedImport(Retired(s, h), h, io), h) <==> io.Refused? && h in s.live && s.live[h].workerRunning
  {
  }

  lemma StuckAbout(s: Store, step: Step, h: Handle)
    requires Inv(s) && Enabled(s, step) && About(step, h) && !Stuck(s, h)
    ensures Stuck(Next(s, step), h)
       <==> step.Abandon? && step.io.Refused? && h in s.live && s.live[h].workerRunning
  {
    assert HandleOk(s, h);
    if !OfReceiver(step) { RequestStuck(s, step, h); }
    else if step.Abandon? { AbandonStuck(s, h, step.io); }
    else if step.FinishReady? || step.FinishOther? { FinishStuck(s, step); }
    else { CopyStuck(s, step); }
  }

  /** The only way there: a start that could not open or validate its file and then could
      not unlink it. */
  lemma StuckExactly(s: Store, step: Step, h: Handle)
    requires Inv(s) && Enabled(s, step) && h < s.issued && !Stuck(s, h)
    ensures Stuck(Next(s, step), h)
       <==> step.Abandon? && step.handle == h && step.io.Refused? && h in s.live && s.live[h].workerRunning
  {
    assert HandleOk(s, h);
    if About(step, h) {
      StuckAbout(s, step, h);
    } else {
      StepAgrees(s, step, h);
    }
  }

  lemma StuckIsReachable(r: Requester)
    ensures var steps := [Start(r, 0, true), Open(0, true, false), Abandon(0, Refused(false))];
            Run(Empty(), steps) && Stuck(After(Empty(), steps), 0)
  {
    var s1 := Next(Empty(), Start(r, 0, true));
    assert OwnedBy(Empty().live, r) == {} && ReceivingFor(Empty().live, r) == {};
    assert OwnedByUid(Empty().live, r.uid) == {} && ReceivingForUid(Empty().live, r.uid) == {};
    assert At(s1, 0, Opening);
    var s2 := Next(s1, Open(0, true, false));
    var s3 := Next(s2, Abandon(0, Refused(false)));
    var steps := [Start(r, 0, true), Open(0, true, false), Abandon(0, Refused(false))];
    assert steps[1..] == [Open(0, true, false), Abandon(0, Refused(false))];
    assert steps[1..][1..] == [Abandon(0, Refused(false))];
    assert steps[1..][1..][1..] == [];
    assert Run(s3, []) && After(s3, []) == s3;
    assert Run(s2, steps[1..][1..]) && After(s2, steps[1..][1..]) == s3;
    assert Run(s1, steps[1..]) && After(s1, steps[1..]) == s3;
    assert Run(Empty(), steps) && After(Empty(), steps) == s3;
  }

  // ----- Every other entry can be ended -----------------------------------------------------------

  /** Some continuation ends the import and leaves nothing of it. */
  ghost predicate CanEnd(s: Store, h: Handle) { exists steps :: Run(s, steps) && Gone(After(s, steps), h) }

  lemma EndedAlready(s: Store, h: Handle)
    requires Gone(s, h)
    ensures CanEnd(s, h)
  {
    assert Run(s, []) && After(s, []) == s;
  }

  lemma OneStepMore(s: Store, step: Step, h: Handle)
    requires Enabled(s, step) && CanEnd(Next(s, step), h)
    ensures CanEnd(s, h)
  {
    var rest :| Run(Next(s, step), rest) && Gone(After(Next(s, step), rest), h);
    var steps := [step] + rest;
    assert steps[0] == step && steps[1..] == rest;
    assert Run(s, steps) && After(s, steps) == After(Next(s, step), rest);
  }

  /** An entry without a receiver at work: its requester cancels it. */
  lemma IdleCanEnd(s: Store, h: Handle)
    requires Inv(s) && h in s.live && !(s.live[h].phase.Receiving? && s.live[h].workerRunning)
    ensures CanEnd(s, h)
  {
    assert HandleOk(s, h);
    var r := s.live[h].requester;
    var step := AskCancel(r, h, 0, Unlink.Confirmed);
    RetainMembers(s.tombstones, Young(0));
    assert CancelPass(s, r, h, false, 0, Unlink.Confirmed).1 == Some(Ok(Cancellation(Cancelled, true)));
    CancelConfirmed(s, r, h, false, 0, Unlink.Confirmed);
    EndedAlready(Next(s, step), h);
    OneStepMore(s, step, h);
  }

  /** A receiver that has given up removes its file and ends its entry. */
  lemma LeavingCanEnd(s: Store, h: Handle)
    requires Inv(s) && h in s.receivers && (s.receivers[h].stage.Cancelling? || s.receivers[h].stage.Failing?)
    ensures CanEnd(s, h)
  {
    assert HandleOk(s, h);
    var step := FinishOther(h, Unlink.Confirmed, 0);
    StepKeeps(s, step);
    IssuedGrows(s, step);
    DeadIsGone(Next(s, step), h);
    EndedAlready(Next(s, step), h);
    OneStepMore(s, step, h);
  }

  /** A start that failed undoes itself. */
  lemma AbandonedCanEnd(s: Store, h: Handle)
    requires Inv(s) && h in s.receivers && s.receivers[h].stage.Abandoned?
    ensures CanEnd(s, h)
  {
    assert HandleOk(s, h);
    var step := Abandon(h, Unlink.Confirmed);
    StepKeeps(s, step);
    IssuedGrows(s, step);
    DeadIsGone(Next(s, step), h);
    EndedAlready(Next(s, step), h);
    OneStepMore(s, step, h);
  }

  /** A receiver in the middle of its work may fail at any time. */
  lemma CopyingCanEnd(s: Store, h: Handle)
    requires Inv(s) && At(s, h, Copying)
    ensures CanEnd(s, h)
  {
    StepKeeps(s, Trouble(h, Io));
    LeavingCanEnd(Next(s, Trouble(h, Io)), h);
    OneStepMore(s, Trouble(h, Io), h);
  }

  lemma WritingCanEnd(s: Store, h: Handle)
    requires Inv(s) && h in s.receivers && s.receivers[h].stage.Writing?
    ensures CanEnd(s, h)
  {
    StepKeeps(s, Write(h, 0, false));
    LeavingCanEnd(Next(s, Write(h, 0, false)), h);
    OneStepMore(s, Write(h, 0, false), h);
  }

  lemma ChargingCanEnd(s: Store, h: Handle)
    requires Inv(s) && h in s.receivers && s.receivers[h].stage.Charging?
    ensures CanEnd(s, h)
  {
    StepKeeps(s, Charge(h));
    var s1 := Next(s, Charge(h));
    if s1.receivers[h].stage.Writing? { WritingCanEnd(s1, h); } else { LeavingCanEnd(s1, h); }
    OneStepMore(s, Charge(h), h);
  }

  lemma FinishingCanEnd(s: Store, h: Handle)
    requires Inv(s) && At(s, h, Finishing)
    ensures CanEnd(s, h)
  {
    assert HandleOk(s, h);
    StepKeeps(s, FinishReady(h, false, 0));
    LeavingCanEnd(Next(s, FinishReady(h, false, 0)), h);
    OneStepMore(s, FinishReady(h, false, 0), h);
  }

  lemma StartingCanEnd(s: Store, h: Handle)
    requires Inv(s) && (At(s, h, Opening) || At(s, h, Spawning))
    ensures CanEnd(s, h)
  {
    var step := if At(s, h, Opening) then Open(h, false, false) else Spawn(h, true);
    StepKeeps(s, step);
    if At(s, h, Opening) { AbandonedCanEnd(Next(s, step), h); } else { CopyingCanEnd(Next(s, step), h); }
    OneStepMore(s, step, h);
  }

  lemma ReceiverCanEnd(s: Store, h: Handle)
    requires Inv(s) && h in s.receivers
    ensures CanEnd(s, h)
  {
    match s.receivers[h].stage
    case Opening => StartingCanEnd(s, h);
    case Spawning => StartingCanEnd(s, h);
    case Copying => CopyingCanEnd(s, h);
    case Charging(_) => ChargingCanEnd(s, h);
    case Writing(_) => WritingCanEnd(s, h);
    case Finishing => FinishingCanEnd(s, h);
    case Cancelling => LeavingCanEnd(s, h);
    case Failing(_) => LeavingCanEnd(s, h);
    case Abandoned(_) => AbandonedCanEnd(s, h);
  }

  /** A live import can be ended exactly if it is not stuck. */
  lemma CanEndExactly(s: Store, h: Handle)
    requires Inv(s) && h in s.live
    ensures CanEnd(s, h) <==> !Stuck(s, h)
  {
    if Stuck(s, h) {
      forall steps | Run(s, steps) ensures !Gone(After(s, steps), h) {
        StuckForever(s, steps, h, s.live[h].requester, 0, Unlink.Confirmed);
      }
    } else if h in s.receivers {
      ReceiverCanEnd(s, h);
    } else {
      IdleCanEnd(s, h);
    }
  }

  // ----- When a cancellation can be confirmed ------------------------------------------------------

  predicate Cancels(answer: Option<Result<Cancellation>>) {
    answer.Some? && answer.value.Ok? && answer.value.value.state == Cancelled
  }

  /** In some continuation a pass of the cancellation loop reports the import cancelled. */
  ghost predicate CanCancel(s: Store, r: Requester, h: Handle) {
    exists steps, requested, now, io ::
      Run(s, steps) && Cancels(CancelPass(After(s, steps), r, h, requested, now, io).1)
  }

  lemma CancelsNow(s: Store, r: Requester, h: Handle, requested: bool, now: nat, io: Unlink)
    requires Cancels(CancelPass(s, r, h, requested, now, io).1)
    ensures CanCancel(s, r, h)
  {
    assert Run(s, []) && After(s, []) == s;
  }

  lemma CancelsAfter(s: Store, step: Step, r: Requester, h: Handle)
    requires Enabled(s, step) && CanCancel(Next(s, step), r, h)
    ensures CanCancel(s, r, h)
  {
    var rest, requested, now, io :|
      Run(Next(s, step), rest) && Cancels(CancelPass(After(Next(s, step), rest), r, h, requested, now, io).1);
    var steps := [step] + rest;
    assert steps[0] == step && steps[1..] == rest;
    assert Run(s, steps) && After(s, steps) == After(Next(s, step), rest);
  }

  ghost predicate Owns(s: Store, r: Requester, h: Handle) { h in s.live && s.live[h].requester == r }

  lemma IdleCanCancel(s: Store, r: Requester, h: Handle)
    requires Inv(s) && Owns(s, r, h) && !(s.live[h].phase.Receiving? && s.live[h].workerRunning)
    ensures CanCancel(s, r, h)
  {
    assert HandleOk(s, h);
    RetainMembers(s.tombstones, Young(0));
    CancelsNow(s, r, h, false, 0, Unlink.Confirmed);
  }

  /** A new tombstone is not the one that is evicted. */
  lemma BuriedStays(l: seq<Tombstone>, t: Tombstone)
    ensures t in Buried(l, t)
  {
    var uid, young := t.requester.uid, Pruned(l, t.created);
    EvictedOf(young + [t], uid, uid);
    RetainAppend(young, t, Of(uid));
    var own := OfUid(Buried(l, t), uid);
    assert own[|own| - 1] == t;
    RetainMembers(Buried(l, t), Of(uid));
  }

  /** The receiver has seen the cancellation: it ends, and the next pass reports so. */
  lemma CancellingCanCancel(s: Store, r: Requester, h: Handle)
    requires Inv(s) && Owns(s, r, h) && At(s, h, Cancelling)
    ensures CanCancel(s, r, h)
  {
    assert HandleOk(s, h);
    var step := FinishOther(h, Unlink.Confirmed, 0);
    StepKeeps(s, step);
    var s1 := Next(s, step);
    BuriedStays(s.tombstones, Tombstone(h, r, Ended(Cancelled), 0));
    RetainMembers(s1.tombstones, Young(0));
    CancelsNow(s1, r, h, true, 0, Unlink.Confirmed);
    CancelsAfter(s, step, r, h);
  }

  /** A receiver that fails and cannot remove its file leaves an entry that can be cancelled. */
  lemma FailingCanCancel(s: Store, r: Requester, h: Handle)
    requires Inv(s) && Owns(s, r, h) && h in s.receivers && s.receivers[h].stage.Failing?
    ensures CanCancel(s, r, h)
  {
    assert HandleOk(s, h);
    var step := FinishOther(h, Refused(false), 0);
    StepKeeps(s, step);
    IdleCanCancel(Next(s, step), r, h);
    CancelsAfter(s, step, r, h);
  }

  /** A cancellation is asked for, and the receiver polls. */
  lemma PollingCanCancel(s: Store, r: Requester, h: Handle)
    requires Inv(s) && Owns(s, r, h) && (At(s, h, Copying) || At(s, h, Finishing))
    ensures CanCancel(s, r, h)
  {
    assert HandleOk(s, h);
    var ask := AskCancel(r, h, 0, Unlink.Confirmed);
    RetainMembers(s.tombstones, Young(0));
    StepKeeps(s, ask);
    var s1 := Next(s, ask);
    StepKeeps(s1, Poll(h));
    CancellingCanCancel(Next(s1, Poll(h)), r, h);
    CancelsAfter(s1, Poll(h), r, h);
    CancelsAfter(s, ask, r, h);
  }

  lemma WritingCanCancel(s: Store, r: Requester, h: Handle)
    requires Inv(s) && Owns(s, r, h) && h in s.receivers && s.receivers[h].stage.Writing?
    ensures CanCancel(s, r, h)
  {
    StepKeeps(s, Write(h, 0, true));
    PollingCanCancel(Next(s, Write(h, 0, true)), r, h);
    CancelsAfter(s, Write(h, 0, true), r, h);
  }

  lemma ChargingCanCancel(s: Store, r: Requester, h: Handle)
    requires Inv(s) && Owns(s, r, h) && h in s.receivers && s.receivers[h].stage.Charging?
    ensures CanCancel(s, r, h)
  {
    assert HandleOk(s, h);
    StepKeeps(s, Charge(h));
    var s1 := Next(s, Charge(h));
    match s1.receivers[h].stage
    case Writing(_) => WritingCanCancel(s1, r, h); CancelsAfter(s, Charge(h), r, h);
    case Cancelling => CancellingCanCancel(s1, r, h); CancelsAfter(s, Charge(h), r, h);
    case Failing(_) => FailingCanCancel(s1, r, h); CancelsAfter(s, Charge(h), r, h);
  }

  lemma SpawningCanCancel(s: Store, r: Requester, h: Handle)
    requires Inv(s) && Owns(s, r, h) && At(s, h, Spawning)
    ensures CanCancel(s, r, h)
  {
    StepKeeps(s, Spawn(h, true));
    PollingCanCancel(Next(s, Spawn(h, true)), r, h);
    CancelsAfter(s, Spawn(h, true), r, h);
  }

  lemma OpeningCanCancel(s: Store, r: Requester, h: Handle)
    requires Inv(s) && Owns(s, r, h) && At(s, h, Opening)
    ensures CanCancel(s, r, h)
  {
    StepKeeps(s, Open(h, true, true));
    SpawningCanCancel(Next(s, Open(h, true, true)), r, h);
    CancelsAfter(s, Open(h, true, true), r, h);
  }

  /** The entry claims a receiver, but there is none, or only a start that has failed. */
  ghost predicate Blocked(s: Store, h: Handle) {
    && h in s.live && s.live[h].phase.Receiving? && s.live[h].workerRunning
    && (h in s.receivers ==> s.receivers[h].stage.Abandoned?)
  }

  lemma ReceiverCanCancel(s: Store, r: Requester, h: Handle)
    requires Inv(s) && Owns(s, r, h) && h in s.receivers && !s.receivers[h].stage.Abandoned?
    ensures CanCancel(s, r, h)
  {
    match s.receivers[h].stage
    case Opening => OpeningCanCancel(s, r, h);
    case Spawning => SpawningCanCancel(s, r, h);
    case Copying => PollingCanCancel(s, r, h);
    case Charging(_) => ChargingCanCancel(s, r, h);
    case Writing(_) => WritingCanCancel(s, r, h);
    case Finishing => PollingCanCancel(s, r, h);
    case Cancelling => CancellingCanCancel(s, r, h);
    case Failing(_) => FailingCanCancel(s, r, h);
  }

  /** Blocked, or gone without an outcome. */
  ghost predicate Hopeless(s: Store, h: Handle) {
    h < s.issued && (Blocked(s, h) || (h !in s.live && h !in s.ended))
  }

  lemma HopelessAbandon(s: Store, h: Handle, io: Unlink)
    requires HandleOk(s, h) && Hopeless(s, h)
    ensures Hopeless(FailedImport(Retired(s, h), h, io), h)
  {
  }

  lemma HopelessCancel(s: Store, r: Requester, h: Handle, now: nat, io: Unlink)
    requires HandleOk(s, h) && Hopeless(s, h)
    ensures Hopeless(CancelPass(s, r, h, false, now, io).0, h)
  {
  }

  lemma HopelessConsume(s: Store, r: Requester, h: Handle, openable: bool, io: Unlink, now: nat)
    requires HandleOk(s, h) && Hopeless(s, h)
    ensures Hopeless(Consume(s, r, h, openable, io, now).0, h)
  {
  }

  lemma HopelessStep(s: Store, step: Step, h: Handle)
    requires Inv(s) && Enabled(s, step) && Hopeless(s, h)
    ensures Hopeless(Next(s, step), h)
  {
    assert HandleOk(s, h);
    if !About(step, h) {
      StepAgrees(s, step, h);
    } else {
      match step {
        case Abandon(_, io) => HopelessAbandon(s, h, io);
        case AskStatus(_, _, _) =>
        case AskCancel(r, _, now, io) => HopelessCancel(s, r, h, now, io);
        case AskConsume(r, _, openable, io, now) => HopelessConsume(s, r, h, openable, io, now);
      }
    }
  }

  lemma {:induction false} HopelessForever(s: Store, steps: seq<Step>, r: Requester, h: Handle,
                                           requested: bool, now: nat, io: Unlink)
    requires Inv(s) && Run(s, steps) && Hopeless(s, h)
    ensures !Cancels(CancelPass(After(s, steps), r, h, requested, now, io).1)
    decreases |steps|
  {
    if steps == [] {
      assert HandleOk(s, h);
      RetainMembers(s.tombstones, Young(now));
    } else {
      HopelessStep(s, steps[0], h);
      StepKeeps(s, steps[0]);
      HopelessForever(Next(s, steps[0]), steps[1..], r, h, requested, now, io);
    }
  }

  /** The owner's cancellation can be confirmed exactly if the entry is not blocked. */
  lemma CanCancelExactly(s: Store, h: Handle)
    requires Inv(s) && h in s.live
    ensures CanCancel(s, s.live[h].requester, h) <==> !Blocked(s, h)
  {
    assert HandleOk(s, h);
    var r := s.live[h].requester;
    if Blocked(s, h) {
      forall steps, requested, now, io | Run(s, steps)
        ensures !Cancels(CancelPass(After(s, steps), r, h, requested, now, io).1)
      {
        HopelessForever(s, steps, r, h, requested, now, io);
      }
    } else if s.live[h].phase.Receiving? && s.live[h].workerRunning {
      ReceiverCanCancel(s, r, h);
    } else {
      IdleCanCancel(s, r, h);
    }
  }
}
