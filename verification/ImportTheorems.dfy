/** What holds of the import store in every run. */
module ImportTheorems {
  import opened Basics
  import opened Imports
  import opened ImportProof
  import opened ImportRuns

  predicate Run(s: Store, steps: seq<Step>)
    decreases |steps|
  {
    steps == [] || (Enabled(s, steps[0]) && Run(Next(s, steps[0]), steps[1..]))
  }

  function After(s: Store, steps: seq<Step>): Store
    requires Run(s, steps)
    decreases |steps|
  {
    if steps == [] then s else After(Next(s, steps[0]), steps[1..])
  }

  lemma {:induction false} RunKeeps(s: Store, steps: seq<Step>)
    requires Inv(s) && Run(s, steps)
    ensures Inv(After(s, steps))
    decreases |steps|
  {
    if steps != [] {
      StepKeeps(s, steps[0]);
      RunKeeps(Next(s, steps[0]), steps[1..]);
    }
  }

  lemma {:induction false} NothingCharged(u: Uid, n: Handle)
    ensures Charged(map[], u, n) == 0
  {
    if n > 0 { NothingCharged(u, n - 1); }
  }

  lemma EmptyOk()
    ensures Inv(Empty())
  {
    var s := Empty();
    forall r ensures OwnedBy(s.live, r) == {} && ReceivingFor(s.live, r) == {} {}
    forall u ensures OwnedByUid(s.live, u) == {} && ReceivingForUid(s.live, u) == {} {}
    forall u ensures Charged(s.live, u, s.issued) == 0 { NothingCharged(u, s.issued); }
    assert forall h :: HandleOk(s, h);
  }

  /** Files and accounting agree in every reachable state. */
  lemma FilesAndAccountingAgree(steps: seq<Step>)
    requires Run(Empty(), steps)
    ensures var s := After(Empty(), steps);
            && QuotaOk(s.live, s.issued)
            && forall n | n in s.files ::
                 && n.handle in s.live
                 && n == PathOf(n.handle, s.live[n.handle].phase)
                 && |s.files[n]| <= s.live[n.handle].bytes
  {
    EmptyOk();
    RunKeeps(Empty(), steps);
    var s := After(Empty(), steps);
    forall n | n in s.files ensures FileOk(s, n) { assert HandleOk(s, n.handle); }
  }

  /** In every reachable state a receiver at work finds its entry. */
  lemma ReceiverFindsItsEntry(s: Store, h: Handle)
    requires Inv(s) && h in s.receivers && !s.receivers[h].stage.Abandoned?
    ensures ReceiverCancelled(s, s.receivers[h].requester, h).Ok?
  {
    assert HandleOk(s, h);
  }

  // ----- What a step leaves alone -----------------------------------------------------------

  /** The stores agree about the handle's entry, receiver, input and end. */
  ghost predicate Agrees(s: Store, s': Store, k: Handle) {
    && s.issued <= s'.issued
    && (k in s.live <==> k in s'.live) && (k in s.live ==> s.live[k] == s'.live[k])
    && (k in s.ended <==> k in s'.ended) && (k in s.ended ==> s.ended[k] == s'.ended[k])
    && (k in s.receivers <==> k in s'.receivers) && (k in s.receivers ==> s.receivers[k] == s'.receivers[k])
    && (k in s.received <==> k in s'.received) && (k in s.received ==> s.received[k] == s'.received[k])
  }

  /** The step is about this handle. */
  predicate About(step: Step, k: Handle) {
    match step
    case Start(_, _, _) => false
    case ExpireReady(order, _, _) => k in order
    case _ => step.handle == k
  }

  lemma {:induction false} ExpireAgrees(s: Store, order: seq<Handle>, i: nat, now: nat, io: Handle -> Unlink, k: Handle)
    requires Listing(s.live, order, i) && forall j | i <= j < |order| :: order[j] != k
    ensures Agrees(s, Expire(s, order, i, now, io).0, k)
    decreases |order| - i
  {
    if i < |order| && io(order[i]).Confirmed? {
      ExpireAgrees(ExpiredOne(s, order[i], now, io(order[i])), order, i + 1, now, io, k);
    }
  }

  lemma {:induction false} ExpireBystanders(s: Store, order: seq<Handle>, i: nat, now: nat, io: Handle -> Unlink)
    requires Listing(s.live, order, i)
    ensures Expire(s, order, i, now, io).0.receivers == s.receivers
    ensures Expire(s, order, i, now, io).0.received == s.received
    decreases |order| - i
  {
    if i < |order| && io(order[i]).Confirmed? {
      ExpireBystanders(ExpiredOne(s, order[i], now, io(order[i])), order, i + 1, now, io);
    }
  }

  lemma CancelAgrees(s: Store, r: Requester, h: Handle, requested: bool, now: nat, io: Unlink, k: Handle)
    requires h != k
    ensures Agrees(s, CancelPass(s, r, h, requested, now, io).0, k)
  {
  }

  lemma ConsumeAgrees(s: Store, r: Requester, h: Handle, openable: bool, io: Unlink, now: nat, k: Handle)
    requires h != k
    ensures Agrees(s, Consume(s, r, h, openable, io, now).0, k)
  {
  }

  lemma MovedAgrees(s: Store, h: Handle, stage: Stage, k: Handle)
    requires h in s.receivers && h != k
    ensures Agrees(s, Moved(s, h, stage), k)
  {
  }

  lemma OpenedAgrees(s: Store, h: Handle, created: bool, valid: bool, k: Handle)
    requires At(s, h, Opening) && h != k
    ensures Agrees(s, FileOpened(s, h, created, valid), k)
  {
  }

  lemma PolledAgrees(s: Store, h: Handle, k: Handle)
    requires h in s.receivers && h != k
    ensures Agrees(s, Polled(s, h), k)
  {
  }

  lemma ReadAgrees(s: Store, h: Handle, chunk: Bytes, k: Handle)
    requires h in s.receivers && h != k
    ensures Agrees(s, ChunkRead(s, h, chunk), k)
  {
  }

  lemma StatusAgrees(s: Store, r: Requester, h: Handle, now: nat, k: Handle)
    ensures Agrees(s, Status(s, r, h, now).0, k)
  {
  }

  lemma SpawnedAgrees(s: Store, h: Handle, ok: bool, k: Handle)
    requires At(s, h, Spawning) && h != k
    ensures Agrees(s, Spawned(s, h, ok), k)
  {
  }

  lemma ChargedAgrees(s: Store, h: Handle, k: Handle)
    requires h in s.receivers && s.receivers[h].stage.Charging? && h != k
    ensures Agrees(s, ChunkCharged(s, h), k)
  {
  }

  lemma WrittenAgrees(s: Store, h: Handle, n: nat, ok: bool, k: Handle)
    requires h in s.receivers && s.receivers[h].stage.Writing? && n <= |s.receivers[h].stage.chunk| && h != k
    ensures Agrees(s, ChunkWritten(s, h, n, ok), k)
  {
  }

  lemma FailedAgrees(s: Store, h: Handle, io: Unlink, k: Handle)
    requires h != k
    ensures Agrees(s, FailedImport(Retired(s, h), h, io), k)
  {
  }

  lemma ReadyAgrees(s: Store, h: Handle, renamed: bool, now: nat, k: Handle)
    requires h in s.receivers && h != k
    ensures Agrees(s, ReadyFinished(s, h, renamed, now), k)
  {
  }

  lemma OtherAgrees(s: Store, h: Handle, io: Unlink, now: nat, k: Handle)
    requires h in s.receivers && (s.receivers[h].stage.Cancelling? || s.receivers[h].stage.Failing?) && h != k
    ensures Agrees(s, OtherFinished(s, h, io, now), k)
  {
  }

  lemma StartedAgrees(s: Store, r: Requester, now: nat, entropy: bool, k: Handle)
    requires k != s.issued
    ensures Agrees(s, Started(s, r, now, entropy), k)
  {
  }

  lemma StepAgrees(s: Store, step: Step, k: Handle)
    requires Enabled(s, step) && !About(step, k) && (step.Start? ==> k != s.issued)
    ensures Agrees(s, Next(s, step), k)
  {
    match step {
      case Start(r, now, entropy) => StartedAgrees(s, r, now, entropy, k);
      case Open(h, created, valid) => OpenedAgrees(s, h, created, valid, k);
      case Spawn(h, ok) => SpawnedAgrees(s, h, ok, k);
      case Abandon(h, io) => FailedAgrees(s, h, io, k);
      case Poll(h) => PolledAgrees(s, h, k);
      case Read(h, chunk) => ReadAgrees(s, h, chunk, k);
      case EndOfInput(h) => MovedAgrees(s, h, Finishing, k);
      case Trouble(h, e) => MovedAgrees(s, h, Failing(e), k);
      case Charge(h) => ChargedAgrees(s, h, k);
      case Write(h, n, ok) => WrittenAgrees(s, h, n, ok, k);
      case FinishReady(h, renamed, now) => ReadyAgrees(s, h, renamed, now, k);
      case FinishOther(h, io, now) => OtherAgrees(s, h, io, now, k);
      case AskStatus(r, h, now) => StatusAgrees(s, r, h, now, k);
      case AskCancel(r, h, now, io) => CancelAgrees(s, r, h, false, now, io, k);
      case AskConsume(r, h, openable, io, now) => ConsumeAgrees(s, r, h, openable, io, now, k);
      case ExpireReady(order, now, ios) => ExpireAgrees(Forgetting(s, now), order, 0, now, IoOf(ios), k);
    }
  }

  // ----- The dead stay dead --------------------------------------------------------------------

  /** The handle was issued and is no longer live. */
  ghost predicate Dead(s: Store, h: Handle) { h < s.issued && h !in s.live }

  /** The handle stays dead, with the outcome it had. */
  ghost predicate StaysDead(s: Store, s': Store, h: Handle) {
    && Dead(s', h)
    && (h in s.ended <==> h in s'.ended)
    && (h in s.ended ==> s.ended[h] == s'.ended[h])
  }

  lemma StepDead(s: Store, step: Step, h: Handle)
    requires Inv(s) && Enabled(s, step) && Dead(s, h)
    ensures StaysDead(s, Next(s, step), h)
  {
    if About(step, h) {
      assert HandleOk(s, h);
      assert step.Abandon? || step.AskStatus? || step.AskCancel? || step.AskConsume?;
    } else {
      StepAgrees(s, step, h);
    }
  }

  lemma {:induction false} RunDead(s: Store, steps: seq<Step>, h: Handle)
    requires Inv(s) && Run(s, steps) && Dead(s, h)
    ensures StaysDead(s, After(s, steps), h)
    decreases |steps|
  {
    if steps != [] {
      StepDead(s, steps[0], h);
      StepKeeps(s, steps[0]);
      RunDead(Next(s, steps[0]), steps[1..], h);
    }
  }

  /** Gone for good: not live, no file, no receiver at work. */
  ghost predicate Gone(s: Store, h: Handle) { Dead(s, h) && NoFiles(s, h) && Unattended(s, h) }

  lemma DeadIsGone(s: Store, h: Handle)
    requires Inv(s) && Dead(s, h)
    ensures Gone(s, h)
  {
    assert HandleOk(s, h);
  }

  lemma IssuedGrows(s: Store, step: Step)
    requires Inv(s) && Enabled(s, step)
    ensures s.issued <= Next(s, step).issued
  {
    assert HandleOk(s, s.issued);
    match step {
      case Start(_, _, _) => StepAgrees(s, step, s.issued + 1);
      case ExpireReady(_, _, _) => StepAgrees(s, step, s.issued);
      case _ => StepAgrees(s, step, step.handle + 1);
    }
  }

  lemma LeavesDead(s: Store, step: Step, h: Handle)
    requires Inv(s) && Enabled(s, step) && h in s.live && h !in Next(s, step).live
    ensures Dead(Next(s, step), h)
  {
    assert HandleOk(s, h);
    IssuedGrows(s, step);
  }

  /** An entry leaves the live map at most once, and not before its files are confirmed
      gone; from then on nothing of it comes back. */
  lemma QuotaIsFreedOnce(s: Store, step: Step, steps: seq<Step>, h: Handle)
    requires Inv(s) && Enabled(s, step) && h in s.live && h !in Next(s, step).live
    requires Run(Next(s, step), steps)
    ensures Gone(Next(s, step), h) && Gone(After(Next(s, step), steps), h)
  {
    var s1 := Next(s, step);
    StepKeeps(s, step);
    LeavesDead(s, step, h);
    DeadIsGone(s1, h);
    RunKeeps(s1, steps);
    RunDead(s1, steps, h);
    DeadIsGone(After(s1, steps), h);
  }

  // ----- Whole calls: expiry, other threads, then the locked section -----------------------------

  /** A status call: what has lapsed expires first, and if that fails so does the call. */
  function StatusCall(s: Store, r: Requester, h: Handle, expiry: Step, between: seq<Step>, now: nat)
    : (Store, Result<ImportStatus>)
    requires expiry.ExpireReady? && Enabled(s, expiry) && Run(Next(s, expiry), between)
  {
    var failed := ExpireSection(s, expiry.order, expiry.now, IoOf(expiry.ios)).1;
    if failed.Err? then (Next(s, expiry), Err(failed.error)) else Status(After(Next(s, expiry), between), r, h, now)
  }

  function ConsumeCall(s: Store, r: Requester, h: Handle, expiry: Step, between: seq<Step>,
                       openable: bool, io: Unlink, now: nat): (Store, Result<Taken>)
    requires expiry.ExpireReady? && Enabled(s, expiry) && Run(Next(s, expiry), between)
  {
    var failed := ExpireSection(s, expiry.order, expiry.now, IoOf(expiry.ios)).1;
    if failed.Err? then (Next(s, expiry), Err(failed.error))
    else Consume(After(Next(s, expiry), between), r, h, openable, io, now)
  }

  lemma {:induction false} ExpiryFails(s: Store, order: seq<Handle>, i: nat, now: nat, io: Handle -> Unlink)
    requires Listing(s.live, order, i)
    ensures Expire(s, order, i, now, io).1.Err? ==> Expire(s, order, i, now, io).1.error == CleanupUnconfirmed
    decreases |order| - i
  {
    if i < |order| && io(order[i]).Confirmed? {
      ExpiryFails(ExpiredOne(s, order[i], now, io(order[i])), order, i + 1, now, io);
    }
  }

  /** A dead handle has no answer other than its outcome. */
  lemma DeadAnswer(s: Store, q: Requester, h: Handle, now: nat)
    requires Inv(s) && Dead(s, h)
    ensures var answer := Status(s, q, h, now).1;
            || answer == Err(NotFound)
            || (h in s.ended && s.ended[h].Ended? && answer == Ok(StatusTerminal(s.ended[h].state)))
            || (h in s.ended && s.ended[h].Failed? && answer == Err(s.ended[h].error))
  {
    RetainMembers(s.tombstones, Young(now));
  }

  /** A call about a dead handle gets its outcome, not found, or that a cleanup, of another
      import, could not be confirmed. */
  lemma DeadCall(s: Store, q: Requester, h: Handle, expiry: Step, between: seq<Step>, now: nat)
    requires Inv(s) && Dead(s, h) && h in s.ended && s.ended[h].Ended?
    requires expiry.ExpireReady? && Enabled(s, expiry) && Run(Next(s, expiry), between)
    ensures var answer := StatusCall(s, q, h, expiry, between, now).1;
            || answer == Ok(StatusTerminal(s.ended[h].state))
            || answer == Err(NotFound) || answer == Err(CleanupUnconfirmed)
  {
    var s1 := Next(s, expiry);
    StepDead(s, expiry, h);
    StepKeeps(s, expiry);
    RunDead(s1, between, h);
    RunKeeps(s1, between);
    DeadAnswer(After(s1, between), q, h, now);
    ExpiryFails(Forgetting(s, expiry.now), expiry.order, 0, expiry.now, IoOf(expiry.ios));
  }

  /** A terminal status names the outcome of a dead handle. */
  lemma TerminalIsDead(s: Store, r: Requester, h: Handle, now: nat)
    requires Inv(s) && Status(s, r, h, now).1.Ok? && Status(s, r, h, now).1.value.StatusTerminal?
    ensures var (s1, answer) := Status(s, r, h, now);
            Inv(s1) && Dead(s1, h) && h in s1.ended && s1.ended[h] == Ended(answer.value.state)
  {
    PruneKeeps(s, now);
    assert HandleOk(Status(s, r, h, now).0, h);
  }

  /** Once a status is terminal, no later call by anyone contradicts it. */
  lemma TerminalIsFinal(s: Store, r: Requester, h: Handle, now: nat, steps: seq<Step>,
                        q: Requester, expiry: Step, between: seq<Step>, later: nat)
    requires Inv(s) && Run(Status(s, r, h, now).0, steps)
    requires Status(s, r, h, now).1.Ok? && Status(s, r, h, now).1.value.StatusTerminal?
    requires expiry.ExpireReady? && Enabled(After(Status(s, r, h, now).0, steps), expiry)
    requires Run(Next(After(Status(s, r, h, now).0, steps), expiry), between)
    ensures var answer := StatusCall(After(Status(s, r, h, now).0, steps), q, h, expiry, between, later).1;
            answer == Status(s, r, h, now).1 || answer == Err(NotFound) || answer == Err(CleanupUnconfirmed)
  {
    var s1 := Status(s, r, h, now).0;
    TerminalIsDead(s, r, h, now);
    RunDead(s1, steps, h);
    RunKeeps(s1, steps);
    DeadCall(After(s1, steps), q, h, expiry, between, later);
  }

  // ----- Confirmed means clean ----------------------------------------------------------------

  lemma CancelConfirmed(s: Store, r: Requester, h: Handle, requested: bool, now: nat, io: Unlink)
    requires Inv(s) && CancelPass(s, r, h, requested, now, io).1.Some?
    requires CancelPass(s, r, h, requested, now, io).1.value.Ok?
    ensures Gone(CancelPass(s, r, h, requested, now, io).0, h)
  {
    CancelKeeps(s, r, h, requested, now, io);
    PruneKeeps(s, now);
    assert HandleOk(Forgetting(s, now), h);
    DeadIsGone(CancelPass(s, r, h, requested, now, io).0, h);
  }

  /** A consumer gets exactly the bytes the receiver read; nobody gets them again. */
  lemma ConsumedExactlyOnce(s: Store, r: Requester, h: Handle, openable: bool, io: Unlink, now: nat,
                            steps: seq<Step>, q: Requester, openable': bool, io': Unlink, later: nat)
    requires Inv(s) && Consume(s, r, h, openable, io, now).1.Ok?
    requires Run(Consume(s, r, h, openable, io, now).0, steps)
    ensures var taken := Consume(s, r, h, openable, io, now).1.value;
            h in s.received && taken.content == s.received[h] && taken.bytes == |taken.content|
    ensures Consume(After(Consume(s, r, h, openable, io, now).0, steps), q, h, openable', io', later).1 == Err(NotFound)
  {
    assert HandleOk(s, h);
    var s1 := Consume(s, r, h, openable, io, now).0;
    ConsumeKeeps(s, r, h, openable, io, now);
    RunDead(s1, steps, h);
  }

  lemma CancelIsSeen(s: Store, r: Requester, h: Handle, requested: bool, now: nat,
                     io: Unlink, bytes: nat, renamed: bool)
    requires CancelPass(s, r, h, requested, now, io).1.None?
    ensures var s' := CancelPass(s, r, h, requested, now, io).0;
            && ReceiverCancelled(s', r, h) == Ok(true)
            && ReserveBytes(s', r, h, bytes) == (s', Err(NotFound))
            && FinishedReady(s', r, h, renamed, now) == (s', Some(Cancelling))
  {
  }

  /** A cancellation of the receiving import has been asked for. */
  ghost predicate Doomed(s: Store, h: Handle) {
    h < s.issued && (h in s.live ==> s.live[h].phase.Receiving? && s.live[h].cancelRequested)
  }

  lemma CopyDoomed(s: Store, step: Step)
    requires Enabled(s, step) && OfReceiver(step) && HandleOk(s, step.handle) && Doomed(s, step.handle)
    ensures Doomed(Next(s, step), step.handle)
  {
  }

  lemma CancelDoomed(s: Store, r: Requester, h: Handle, now: nat, io: Unlink)
    requires Inv(s) && Doomed(s, h)
    ensures Doomed(CancelPass(s, r, h, false, now, io).0, h)
  {
  }

  lemma ConsumeDoomed(s: Store, r: Requester, h: Handle, openable: bool, io: Unlink, now: nat)
    requires Inv(s) && Doomed(s, h)
    ensures Doomed(Consume(s, r, h, openable, io, now).0, h)
  {
  }

  lemma RequestDoomed(s: Store, step: Step)
    requires Inv(s) && Enabled(s, step) && (step.AskStatus? || step.AskCancel? || step.AskConsume?)
    requires Doomed(s, step.handle)
    ensures Doomed(Next(s, step), step.handle)
  {
    match step {
      case AskStatus(_, _, _) =>
      case AskCancel(r, h, now, io) => CancelDoomed(s, r, h, now, io);
      case AskConsume(r, h, openable, io, now) => ConsumeDoomed(s, r, h, openable, io, now);
    }
  }

  predicate OfReceiver(step: Step) {
    !step.Start? && !step.AskStatus? && !step.AskCancel? && !step.AskConsume? && !step.ExpireReady?
  }

  lemma DoomedStep(s: Store, step: Step, h: Handle)
    requires Inv(s) && Enabled(s, step) && Doomed(s, h)
    ensures Doomed(Next(s, step), h)
  {
    assert HandleOk(s, h);
    if !About(step, h) { StepAgrees(s, step, h); }
    else if OfReceiver(step) { CopyDoomed(s, step); }
    else if !step.ExpireReady? { RequestDoomed(s, step); }
  }

  /** What is being cancelled is never published. */
  lemma {:induction false} CancelledIsNeverPublished(s: Store, steps: seq<Step>, h: Handle)
    requires Inv(s) && Run(s, steps) && Doomed(s, h)
    ensures Doomed(After(s, steps), h)
    decreases |steps|
  {
    if steps != [] {
      DoomedStep(s, steps[0], h);
      StepKeeps(s, steps[0]);
      CancelledIsNeverPublished(Next(s, steps[0]), steps[1..], h);
    }
  }

  lemma {:induction false} ExpiredAllGone(s: Store, order: seq<Handle>, i: nat, now: nat, io: Handle -> Unlink, j: nat)
    requires Listing(s.live, order, i) && Expire(s, order, i, now, io).1.Ok? && i <= j < |order|
    ensures var s' := Expire(s, order, i, now, io).0;
            order[j] !in s'.live && order[j] in s'.ended && s'.ended[order[j]] == Ended(Expired)
    decreases |order| - i
  {
    var s1 := ExpiredOne(s, order[i], now, io(order[i]));
    if i == j {
      ExpireAgrees(s1, order, i + 1, now, io, order[j]);
    } else {
      ExpiredAllGone(s1, order, i + 1, now, io, j);
    }
  }

  // ----- Handles are bound to their requester ---------------------------------------------------

  /** Nothing in the store is the requester's under this handle. */
  ghost predicate Foreign(s: Store, r: Requester, h: Handle) {
    && (h in s.live ==> s.live[h].requester != r)
    && (forall t | t in s.tombstones :: t.handle != h || t.requester != r)
  }

  lemma NeverIssuedIsForeign(s: Store, r: Requester, h: Handle)
    requires Inv(s) && h >= s.issued
    ensures Foreign(s, r, h)
  {
    assert HandleOk(s, h);
  }

  /** Someone else's handle and a handle that never existed are told apart by no locked
      section: same answer, same store. */
  lemma ForeignHandlesLookAlike(s: Store, r: Requester, h: Handle, k: Handle, requested: bool, now: nat,
                                io: Unlink, openable: bool)
    requires Foreign(s, r, h) && Foreign(s, r, k)
    ensures Status(s, r, h, now) == Status(s, r, k, now)
    ensures CancelPass(s, r, h, requested, now, io) == CancelPass(s, r, k, requested, now, io)
    ensures Consume(s, r, h, openable, io, now) == Consume(s, r, k, openable, io, now)
    ensures Status(s, r, h, now).1 == Err(NotFound)
    ensures Status(s, r, h, now).0.live == s.live && Status(s, r, h, now).0.files == s.files
  {
    RetainMembers(s.tombstones, Young(now));
    assert FindTombstone(Pruned(s.tombstones, now), r, h).None?;
    assert FindTombstone(Pruned(s.tombstones, now), r, k).None?;
  }

  /** What there is of the handle belongs to whom it did. */
  ghost predicate SameOwner(s: Store, s': Store, h: Handle) {
    && (h in s'.live ==> h in s.live && s'.live[h].requester == s.live[h].requester)
    && (forall t | t in s'.tombstones && t.handle == h ::
          t in s.tombstones || (h in s.live && t.requester == s.live[h].requester))
  }

  lemma PrunedOwner(s: Store, now: nat, h: Handle)
    ensures SameOwner(s, Forgetting(s, now), h)
  {
    RetainMembers(s.tombstones, Young(now));
  }

  lemma EntombedOwner(s: Store, g: Handle, outcome: Outcome, now: nat, h: Handle)
    requires g in s.live
    ensures SameOwner(s, Entombed(s, g, outcome, now), h)
  {
    var t := Tombstone(g, s.live[g].requester, outcome, now);
    RetainMembers(s.tombstones, Young(now));
    EvictedMembers(Pruned(s.tombstones, now) + [t], t.requester.uid);
  }

  lemma {:induction false} ExpiredOwner(s: Store, order: seq<Handle>, i: nat, now: nat, io: Handle -> Unlink, h: Handle)
    requires Listing(s.live, order, i)
    ensures SameOwner(s, Expire(s, order, i, now, io).0, h)
    decreases |order| - i
  {
    if i < |order| && io(order[i]).Confirmed? {
      EntombedOwner(Unlinked(s, ReadyName(order[i]), io(order[i])), order[i], Ended(Expired), now, h);
      ExpiredOwner(ExpiredOne(s, order[i], now, io(order[i])), order, i + 1, now, io, h);
    }
  }

  lemma CancelOwner(s: Store, r: Requester, g: Handle, now: nat, io: Unlink, h: Handle)
    ensures SameOwner(s, CancelPass(s, r, g, false, now, io).0, h)
  {
    var s0 := Forgetting(s, now);
    PrunedOwner(s, now, h);
    if g in s.live { EntombedOwner(Unlinked(s0, PathOf(g, s.live[g].phase), io), g, Ended(Cancelled), now, h); }
  }

  lemma ConsumeOwner(s: Store, r: Requester, g: Handle, openable: bool, io: Unlink, now: nat, h: Handle)
    ensures SameOwner(s, Consume(s, r, g, openable, io, now).0, h)
  {
    if g in s.live { EntombedOwner(Unlinked(s, ReadyName(g), io), g, Ended(Consumed), now, h); }
  }

  lemma FinishedOwner(s: Store, r: Requester, g: Handle, outcome: Outcome, io: Unlink, now: nat, h: Handle)
    ensures SameOwner(s, FinishedWith(s, r, g, outcome, io, now), h)
  {
    if g in s.live { EntombedOwner(Unlinked(s, PathOf(g, s.live[g].phase), io), g, outcome, now, h); }
  }

  lemma OtherOwner(s: Store, g: Handle, io: Unlink, now: nat, h: Handle)
    requires g in s.receivers && (s.receivers[g].stage.Cancelling? || s.receivers[g].stage.Failing?)
    ensures SameOwner(s, OtherFinished(s, g, io, now), h)
  {
    var rc := s.receivers[g];
    var outcome := if rc.stage.Cancelling? then Ended(Cancelled) else Failed(rc.stage.error);
    FinishedOwner(Retired(s, g), rc.requester, g, outcome, io, now, h);
  }

  lemma MovingOwner(s: Store, step: Step)
    requires Enabled(s, step) && (step.Open? || step.Poll? || step.Read? || step.EndOfInput? || step.Trouble?)
    ensures Next(s, step).tombstones == s.tombstones && Next(s, step).live == s.live
  {
  }

  lemma SpawnedOwner(s: Store, h: Handle, ok: bool)
    requires At(s, h, Spawning)
    ensures Spawned(s, h, ok).tombstones == s.tombstones && SameOwner(s, Spawned(s, h, ok), h)
  {
  }

  lemma ChargedOwner(s: Store, h: Handle)
    requires h in s.receivers && s.receivers[h].stage.Charging?
    ensures ChunkCharged(s, h).tombstones == s.tombstones && SameOwner(s, ChunkCharged(s, h), h)
  {
  }

  lemma WrittenOwner(s: Store, h: Handle, n: nat, ok: bool)
    requires h in s.receivers && s.receivers[h].stage.Writing? && n <= |s.receivers[h].stage.chunk|
    ensures ChunkWritten(s, h, n, ok).tombstones == s.tombstones && ChunkWritten(s, h, n, ok).live == s.live
  {
  }

  lemma FailedOwner(s: Store, h: Handle, io: Unlink)
    ensures var s' := FailedImport(Retired(s, h), h, io); s'.tombstones == s.tombstones && SameOwner(s, s', h)
  {
  }

  lemma ReadyOwner(s: Store, h: Handle, renamed: bool, now: nat)
    requires h in s.receivers
    ensures var s' := ReadyFinished(s, h, renamed, now); s'.tombstones == s.tombstones && SameOwner(s, s', h)
  {
  }

  lemma ReceiverOwner(s: Store, step: Step, h: Handle)
    requires Enabled(s, step) && OfReceiver(step) && !step.FinishOther?
    ensures SameOwner(s, Next(s, step), h)
  {
    match step {
      case Spawn(g, ok) => SpawnedOwner(s, g, ok);
      case Abandon(g, io) => FailedOwner(s, g, io);
      case Charge(g) => ChargedOwner(s, g);
      case Write(g, n, ok) => WrittenOwner(s, g, n, ok);
      case FinishReady(g, renamed, now) => ReadyOwner(s, g, renamed, now);
      case _ => MovingOwner(s, step);
    }
    if !About(step, h) { StepAgrees(s, step, h); }
  }

  lemma StepOwner(s: Store, step: Step, h: Handle)
    requires Enabled(s, step) && (step.Start? ==> h != s.issued)
    ensures SameOwner(s, Next(s, step), h)
  {
    match step {
      case Start(_, now, _) => PrunedOwner(s, now, h);
      case AskStatus(_, _, now) => PrunedOwner(s, now, h);
      case AskCancel(r, g, now, io) => CancelOwner(s, r, g, now, io, h);
      case AskConsume(r, g, openable, io, now) => ConsumeOwner(s, r, g, openable, io, now, h);
      case ExpireReady(order, now, ios) =>
        PrunedOwner(s, now, h);
        ExpiredOwner(Forgetting(s, now), order, 0, now, IoOf(ios), h);
      case FinishOther(g, io, now) => OtherOwner(s, g, io, now, h);
      case _ => ReceiverOwner(s, step, h);
    }
  }

  lemma {:induction false} ForeignStays(s: Store, steps: seq<Step>, r: Requester, h: Handle)
    requires Inv(s) && Run(s, steps) && Foreign(s, r, h) && (h < s.issued || h >= After(s, steps).issued)
    ensures Foreign(After(s, steps), r, h)
    decreases |steps|
  {
    if h >= After(s, steps).issued {
      RunKeeps(s, steps);
      NeverIssuedIsForeign(After(s, steps), r, h);
    } else if steps != [] {
      StepOwner(s, steps[0], h);
      StepKeeps(s, steps[0]);
      IssuedGrows(s, steps[0]);
      ForeignStays(Next(s, steps[0]), steps[1..], r, h);
    }
  }

  /** Nor by any call as a whole, as long as a handle that never existed has not come to exist
      while the call ran. */
  lemma ForeignCallsLookAlike(s: Store, r: Requester, h: Handle, k: Handle, expiry: Step, between: seq<Step>,
                              openable: bool, io: Unlink, now: nat)
    requires Inv(s) && Foreign(s, r, h) && Foreign(s, r, k)
    requires expiry.ExpireReady? && Enabled(s, expiry) && Run(Next(s, expiry), between)
    requires h < s.issued || h >= After(Next(s, expiry), between).issued
    requires k < s.issued || k >= After(Next(s, expiry), between).issued
    ensures StatusCall(s, r, h, expiry, between, now) == StatusCall(s, r, k, expiry, between, now)
    ensures ConsumeCall(s, r, h, expiry, between, openable, io, now)
         == ConsumeCall(s, r, k, expiry, between, openable, io, now)
  {
    var s1 := Next(s, expiry);
    StepKeeps(s, expiry);
    IssuedGrows(s, expiry);
    StepOwner(s, expiry, h);
    StepOwner(s, expiry, k);
    ForeignStays(s1, between, r, h);
    ForeignStays(s1, between, r, k);
    ForeignHandlesLookAlike(After(s1, between), r, h, k, false, now, io, openable);
  }
}
