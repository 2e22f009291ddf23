/** Every interleaving of starts, receivers, cancellations, consumption and expiry, with
    failing file operations, as runs of one step system. */
module ImportRuns {
  import opened Basics
  import opened Imports
  import opened ImportProof

  datatype Step =
    | Start(requester: Requester, now: nat, entropy: bool)
    | Open(handle: Handle, created: bool, valid: bool)
    | Spawn(handle: Handle, ok: bool)
    | Abandon(handle: Handle, io: Unlink)
    | Poll(handle: Handle)
    | Read(handle: Handle, chunk: Bytes)
    | EndOfInput(handle: Handle)
    | Trouble(handle: Handle, error: StoreError)
    | Charge(handle: Handle)
    | Write(handle: Handle, written: nat, ok: bool)
    | FinishReady(handle: Handle, renamed: bool, now: nat)
    | FinishOther(handle: Handle, io: Unlink, now: nat)
    | AskStatus(requester: Requester, handle: Handle, now: nat)
    | AskCancel(requester: Requester, handle: Handle, now: nat, io: Unlink)
    | AskConsume(requester: Requester, handle: Handle, openable: bool, io: Unlink, now: nat)
    | ExpireReady(order: seq<Handle>, now: nat, ios: map<Handle, Unlink>)

  predicate At(s: Store, h: Handle, stage: Stage) { h in s.receivers && s.receivers[h].stage == stage }

  function Moved(s: Store, h: Handle, stage: Stage): Store
    requires h in s.receivers
  {
    s.(receivers := s.receivers[h := s.receivers[h].(stage := stage)])
  }

  function Retired(s: Store, h: Handle): Store { s.(receivers := s.receivers - {h}) }

  /** The order is one listing of the ready imports that have lapsed. */
  predicate ListsLapsed(s: Store, order: seq<Handle>, now: nat) {
    && (forall i | 0 <= i < |order| :: order[i] in s.live && Lapsed(s.live[order[i]], now))
    && (forall h | h in s.live && Lapsed(s.live[h], now) :: h in order)
    && (forall i, j | 0 <= i < j < |order| :: order[i] != order[j])
  }

  predicate Enabled(s: Store, step: Step) {
    match step
    case Start(_, _, _) => true
    case Open(h, _, _) => At(s, h, Opening)
    case Spawn(h, _) => At(s, h, Spawning)
    case Abandon(h, _) => h in s.receivers && s.receivers[h].stage.Abandoned?
    case Poll(h) => At(s, h, Copying) || At(s, h, Finishing)
    case Read(h, chunk) => At(s, h, Copying) && 0 < |chunk| <= IMPORT_COPY_CHUNK_BYTES
    case EndOfInput(h) => At(s, h, Copying)
    case Trouble(h, _) => At(s, h, Copying)
    case Charge(h) => h in s.receivers && s.receivers[h].stage.Charging?
    case Write(h, n, _) => h in s.receivers && s.receivers[h].stage.Writing? && n <= |s.receivers[h].stage.chunk|
    case FinishReady(h, _, _) => At(s, h, Finishing)
    case FinishOther(h, _, _) => h in s.receivers && (s.receivers[h].stage.Cancelling? || s.receivers[h].stage.Failing?)
    case AskStatus(_, _, _) => true
    case AskCancel(_, _, _, _) => true
    case AskConsume(_, _, _, _, _) => true
    case ExpireReady(order, now, ios) => ListsLapsed(s, order, now)
  }

  function Started(s: Store, r: Requester, now: nat, entropy: bool): Store {
    var (s1, answer) := Reserve(s, r, now, entropy);
    if answer.Ok? then s1.(receivers := s1.receivers[answer.value := Receiver(r, Opening)]) else s1
  }

  function FileOpened(s: Store, h: Handle, created: bool, valid: bool): Store
    requires At(s, h, Opening)
  {
    if !created then Moved(s, h, Abandoned(Io))
    else
      var s1 := s.(files := s.files[ReceivingName(h) := []]);
      Moved(s1, h, if valid then Spawning else Abandoned(UnsafeDirectory))
  }

  function Spawned(s: Store, h: Handle, ok: bool): Store
    requires At(s, h, Spawning)
  {
    if ok then Moved(s, h, Copying)
    else
      var s1 := Moved(s, h, Abandoned(Io));
      if h in s.live && s.live[h].requester == s.receivers[h].requester then Stopped(s1, h, Some(Io)) else s1
  }

  function Polled(s: Store, h: Handle): Store
    requires h in s.receivers
  {
    var c := ReceiverCancelled(s, s.receivers[h].requester, h);
    if c.Err? then Moved(s, h, Failing(c.error)) else if c.value then Moved(s, h, Cancelling) else s
  }

  function ChunkRead(s: Store, h: Handle, chunk: Bytes): Store
    requires h in s.receivers
  {
    Moved(s, h, Charging(chunk)).(received := s.received[h := (if h in s.received then s.received[h] else []) + chunk])
  }

  function ChunkCharged(s: Store, h: Handle): Store
    requires h in s.receivers && s.receivers[h].stage.Charging?
  {
    var rc := s.receivers[h];
    var (s1, answer) := ReserveBytes(s, rc.requester, h, |rc.stage.chunk|);
    if answer.Ok? then Moved(s1, h, Writing(rc.stage.chunk))
    else if ReceiverCancelled(s, rc.requester, h) == Ok(true) then Moved(s, h, Cancelling)
    else Moved(s, h, Failing(answer.error))
  }

  /** A failed write may have stored any part of the chunk. */
  function ChunkWritten(s: Store, h: Handle, n: nat, ok: bool): Store
    requires h in s.receivers && s.receivers[h].stage.Writing? && n <= |s.receivers[h].stage.chunk|
  {
    var chunk := s.receivers[h].stage.chunk;
    var name := ReceivingName(h);
    var content := if name in s.files then s.files[name] else [];
    var stored := if ok then chunk else chunk[..n];
    var s1 := if name in s.files then s.(files := s.files[name := content + stored]) else s;
    Moved(s1, h, if ok then Copying else Failing(Io))
  }

  function ReadyFinished(s: Store, h: Handle, renamed: bool, now: nat): Store
    requires h in s.receivers
  {
    var (s1, next) := FinishedReady(s, s.receivers[h].requester, h, renamed, now);
    if next.Some? then Moved(s1, h, next.value) else Retired(s1, h)
  }

  function OtherFinished(s: Store, h: Handle, io: Unlink, now: nat): Store
    requires h in s.receivers && (s.receivers[h].stage.Cancelling? || s.receivers[h].stage.Failing?)
  {
    var rc := s.receivers[h];
    FinishedWith(Retired(s, h), rc.requester, h,
                 if rc.stage.Cancelling? then Ended(Cancelled) else Failed(rc.stage.error), io, now)
  }

  function IoOf(ios: map<Handle, Unlink>): Handle -> Unlink { h => if h in ios then ios[h] else Confirmed }

  function Next(s: Store, step: Step): Store
    requires Enabled(s, step)
  {
    match step
    case Start(r, now, entropy) => Started(s, r, now, entropy)
    case Open(h, created, valid) => FileOpened(s, h, created, valid)
    case Spawn(h, ok) => Spawned(s, h, ok)
    case Abandon(h, io) => FailedImport(Retired(s, h), h, io)
    case Poll(h) => Polled(s, h)
    case Read(h, chunk) => ChunkRead(s, h, chunk)
    case EndOfInput(h) => Moved(s, h, Finishing)
    case Trouble(h, e) => Moved(s, h, Failing(e))
    case Charge(h) => ChunkCharged(s, h)
    case Write(h, n, ok) => ChunkWritten(s, h, n, ok)
    case FinishReady(h, renamed, now) => ReadyFinished(s, h, renamed, now)
    case FinishOther(h, io, now) => OtherFinished(s, h, io, now)
    case AskStatus(r, h, now) => Status(s, r, h, now).0
    case AskCancel(r, h, now, io) => CancelPass(s, r, h, false, now, io).0
    case AskConsume(r, h, openable, io, now) => Consume(s, r, h, openable, io, now).0
    case ExpireReady(order, now, ios) => ExpireSection(s, order, now, IoOf(ios)).0
  }

  // ----- One step ----------------------------------------------------------------------------

  lemma AdmittedKeeps(s: Store, r: Requester)
    requires Inv(s) && Admission(s.live, r).None?
    ensures Inv(Admitted(s, r))
    ensures ReceiverOk(Admitted(s, r), s.issued, Receiver(r, Opening))
  {
    assert HandleOk(s, s.issued);
    QuotaAdmits(s.live, r, s.issued);
    LocalKeeps(s, Admitted(s, r), s.issued);
  }

  lemma StartedKeeps(s: Store, r: Requester, now: nat, entropy: bool)
    requires Inv(s)
    ensures Inv(Started(s, r, now, entropy))
  {
    PruneKeeps(s, now);
    if Admission(s.live, r).None? && entropy {
      var s0 := Forgetting(s, now);
      AdmittedKeeps(s0, r);
      StageKeeps(Admitted(s0, r), s.issued, Receiver(r, Opening));
    }
  }

  lemma OpenedKeeps(s: Store, h: Handle, created: bool, valid: bool)
    requires Inv(s) && At(s, h, Opening)
    ensures Inv(FileOpened(s, h, created, valid))
  {
    assert HandleOk(s, h);
    LocalKeeps(s, FileOpened(s, h, created, valid), h);
  }

  lemma SpawnedKeeps(s: Store, h: Handle, ok: bool)
    requires Inv(s) && At(s, h, Spawning)
    ensures Inv(Spawned(s, h, ok))
  {
    assert HandleOk(s, h);
    var rc := s.receivers[h];
    if ok {
      StageKeeps(s, h, rc.(stage := Copying));
    } else {
      StageKeeps(s, h, rc.(stage := Abandoned(Io)));
      FlagKeeps(Moved(s, h, Abandoned(Io)), h, s.live[h].(workerRunning := false, failure := Some(Io)));
    }
  }

  lemma AbandonedKeeps(s: Store, h: Handle, io: Unlink)
    requires Inv(s)
    ensures Inv(FailedImport(Retired(s, h), h, io))
  {
    RetireKeeps(s, h);
    var s1 := Retired(s, h);
    if h in s.live {
      UnlinkKeeps(s1, h, io);
      if io.Confirmed? { DropKeeps(Unlinked(s1, PathOf(h, s.live[h].phase), io), h); }
    }
  }

  lemma PolledKeeps(s: Store, h: Handle)
    requires Inv(s) && h in s.receivers && !s.receivers[h].stage.Abandoned?
    ensures Inv(Polled(s, h))
  {
    assert HandleOk(s, h);
    StageKeeps(s, h, s.receivers[h].(stage := Cancelling));
  }

  lemma ReadKeeps(s: Store, h: Handle, chunk: Bytes)
    requires Inv(s) && At(s, h, Copying)
    ensures Inv(ChunkRead(s, h, chunk))
  {
    assert HandleOk(s, h);
    LocalKeeps(s, ChunkRead(s, h, chunk), h);
  }

  lemma ChargedKeeps(s: Store, h: Handle)
    requires Inv(s) && h in s.receivers && s.receivers[h].stage.Charging?
    ensures Inv(ChunkCharged(s, h))
  {
    var rc := s.receivers[h];
    assert HandleOk(s, h);
    var (s1, answer) := ReserveBytes(s, rc.requester, h, |rc.stage.chunk|);
    if answer.Ok? {
      QuotaCharges(s.live, h, |rc.stage.chunk|, s.issued);
      LocalKeeps(s, ChunkCharged(s, h), h);
    } else {
      StageKeeps(s, h, rc.(stage := Cancelling));
      StageKeeps(s, h, rc.(stage := Failing(answer.error)));
    }
  }

  lemma WrittenKeeps(s: Store, h: Handle, n: nat, ok: bool)
    requires Inv(s) && h in s.receivers && s.receivers[h].stage.Writing? && n <= |s.receivers[h].stage.chunk|
    ensures Inv(ChunkWritten(s, h, n, ok))
  {
    assert HandleOk(s, h);
    LocalKeeps(s, ChunkWritten(s, h, n, ok), h);
  }

  lemma ReadyKeeps(s: Store, h: Handle, renamed: bool, now: nat)
    requires Inv(s) && At(s, h, Finishing)
    ensures Inv(ReadyFinished(s, h, renamed, now))
  {
    var rc := s.receivers[h];
    assert HandleOk(s, h);
    var (s1, next) := FinishedReady(s, rc.requester, h, renamed, now);
    if next.Some? {
      StageKeeps(s, h, rc.(stage := next.value));
    } else {
      QuotaShrinks(s.live, s1.live, s.issued);
      LocalKeeps(s, ReadyFinished(s, h, renamed, now), h);
    }
  }

  lemma OtherKeeps(s: Store, h: Handle, io: Unlink, now: nat)
    requires Inv(s) && h in s.receivers && (s.receivers[h].stage.Cancelling? || s.receivers[h].stage.Failing?)
    ensures Inv(OtherFinished(s, h, io, now))
  {
    assert HandleOk(s, h);
    RetireKeeps(s, h);
    var s1 := Retired(s, h);
    UnlinkKeeps(s1, h, io);
    var s2 := Unlinked(s1, ReceivingName(h), io);
    var outcome := if s.receivers[h].stage.Cancelling? then Ended(Cancelled) else Failed(s.receivers[h].stage.error);
    if io.Confirmed? {
      EntombKeeps(s2, h, outcome, now);
    } else {
      FlagKeeps(s2, h, s.live[h].(workerRunning := false, failure := Some(CleanupUnconfirmed)));
    }
  }

  lemma CancelKeeps(s: Store, r: Requester, h: Handle, requested: bool, now: nat, io: Unlink)
    requires Inv(s)
    ensures Inv(CancelPass(s, r, h, requested, now, io).0)
  {
    PruneKeeps(s, now);
    var s0 := Forgetting(s, now);
    if h in s.live {
      if s.live[h].phase.Receiving? && s.live[h].workerRunning {
        FlagKeeps(s0, h, s.live[h].(cancelRequested := true));
      } else {
        assert HandleOk(s, h);
        UnlinkKeeps(s0, h, io);
        if io.Confirmed? { EntombKeeps(Unlinked(s0, PathOf(h, s.live[h].phase), io), h, Ended(Cancelled), now); }
      }
    }
  }

  lemma ConsumeKeeps(s: Store, r: Requester, h: Handle, openable: bool, io: Unlink, now: nat)
    requires Inv(s)
    ensures Inv(Consume(s, r, h, openable, io, now).0)
  {
    if h in s.live && s.live[h].phase.Ready? {
      assert HandleOk(s, h);
      UnlinkKeeps(s, h, io);
      if io.Confirmed? { EntombKeeps(Unlinked(s, ReadyName(h), io), h, Ended(Consumed), now); }
    }
  }

  lemma {:induction false} ExpireKeeps(s: Store, order: seq<Handle>, i: nat, now: nat, io: Handle -> Unlink)
    requires Inv(s) && Listing(s.live, order, i)
    requires forall j | i <= j < |order| :: s.live[order[j]].phase.Ready?
    ensures Inv(Expire(s, order, i, now, io).0)
    decreases |order| - i
  {
    if i < |order| {
      var h := order[i];
      assert HandleOk(s, h);
      UnlinkKeeps(s, h, io(h));
      if io(h).Confirmed? {
        EntombKeeps(Unlinked(s, ReadyName(h), io(h)), h, Ended(Expired), now);
        ExpireKeeps(ExpiredOne(s, h, now, io(h)), order, i + 1, now, io);
      }
    }
  }

  lemma StepKeeps(s: Store, step: Step)
    requires Inv(s) && Enabled(s, step)
    ensures Inv(Next(s, step))
  {
    match step {
      case Start(r, now, entropy) => StartedKeeps(s, r, now, entropy);
      case Open(h, created, valid) => OpenedKeeps(s, h, created, valid);
      case Spawn(h, ok) => SpawnedKeeps(s, h, ok);
      case Abandon(h, io) => AbandonedKeeps(s, h, io);
      case Poll(h) => PolledKeeps(s, h);
      case Read(h, chunk) => ReadKeeps(s, h, chunk);
      case EndOfInput(h) => MovedKeeps(s, h, Finishing);
      case Trouble(h, e) => MovedKeeps(s, h, Failing(e));
      case Charge(h) => ChargedKeeps(s, h);
      case Write(h, n, ok) => WrittenKeeps(s, h, n, ok);
      case FinishReady(h, renamed, now) => ReadyKeeps(s, h, renamed, now);
      case FinishOther(h, io, now) => OtherKeeps(s, h, io, now);
      case AskStatus(r, h, now) => PruneKeeps(s, now);
      case AskCancel(r, h, now, io) => CancelKeeps(s, r, h, false, now, io);
      case AskConsume(r, h, openable, io, now) => ConsumeKeeps(s, r, h, openable, io, now);
      case ExpireReady(order, now, ios) =>
        PruneKeeps(s, now);
        ExpireKeeps(Forgetting(s, now), order, 0, now, IoOf(ios));
    }
  }

  lemma MovedKeeps(s: Store, h: Handle, stage: Stage)
    requires Inv(s) && At(s, h, Copying) && (stage == Finishing || stage.Failing?)
    ensures Inv(Moved(s, h, stage))
  {
    assert HandleOk(s, h);
    StageKeeps(s, h, s.receivers[h].(stage := stage));
  }
}
