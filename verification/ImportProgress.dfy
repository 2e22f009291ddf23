/** That imports succeed: when a start is admitted, when a chunk is paid for, when an import
    becomes ready, and that one received whole does; and what each request is answered. */
module ImportProgress {
  import opened Basics
  import opened Imports
  import opened ImportProof
  import opened ImportRuns
  import opened ImportTheorems

  const MIB: nat := 1024 * 1024

  // ----- Admission ---------------------------------------------------------------------------

  /** A start is admitted exactly with fewer than four imports of the requester and eight of its
      UID, none of them receiving for the requester and fewer than two for the UID; else the
      first limit in this order is the answer. */
  lemma StartExactly(s: Store, r: Requester, now: nat, entropy: bool)
    ensures var answer := Reserve(s, r, now, entropy).1;
            var own, uid := |OwnedBy(s.live, r)|, |OwnedByUid(s.live, r.uid)|;
            var receiving, uidReceiving := |ReceivingFor(s.live, r)|, |ReceivingForUid(s.live, r.uid)|;
            && (answer.Ok? <==> own < 4 && uid < 8 && receiving < 1 && uidReceiving < 2 && entropy)
            && (answer == Err(RequesterObjectLimit) <==> own >= 4)
            && (answer == Err(UidObjectLimit) <==> own < 4 && uid >= 8)
            && (answer == Err(RequesterReceiverLimit) <==> own < 4 && uid < 8 && receiving >= 1)
            && (answer == Err(UidReceiverLimit) <==> own < 4 && uid < 8 && receiving < 1 && uidReceiving >= 2)
            && (answer.Ok? ==> answer.value == s.issued)
  {
  }

  /** An admitted start opens a new, empty, receiving import of the requester, and no other. */
  lemma StartOpens(s: Store, r: Requester, now: nat, entropy: bool)
    requires Reserve(s, r, now, entropy).1.Ok?
    ensures var s' := Next(s, Start(r, now, entropy));
            && s'.live == s.live[s.issued := Import(r, 0, Receiving, false, true, None)]
            && At(s', s.issued, Opening) && s.issued in s'.received && s'.received[s.issued] == []
            && s'.issued == s.issued + 1 && s'.files == s.files
  {
  }

  // ----- Paying for a chunk --------------------------------------------------------------------

  /** A chunk read is paid for exactly if the import is not being cancelled, has at most 128 MiB
      with it, and its UID at most 256 MiB; else the receiver leaves with the reason. */
  lemma ChargeExactly(s: Store, h: Handle)
    requires Inv(s) && h in s.receivers && s.receivers[h].stage.Charging?
    ensures h in s.live && h in s.received
    ensures var e, c, stage := s.live[h], s.receivers[h].stage.chunk, Next(s, Charge(h)).receivers[h].stage;
            var size, uid := |s.received[h]|, Charged(s.live, e.requester.uid, s.issued) + |c|;
            if e.cancelRequested then stage == Cancelling
            else if size > 128 * MIB then stage == Failing(ObjectTooLarge)
            else if uid > 256 * MIB then stage == Failing(UidByteLimit)
            else stage == Writing(c)
  {
    assert HandleOk(s, h);
  }

  // ----- Becoming ready --------------------------------------------------------------------------

  /** A finished receiver publishes exactly if the rename succeeds and nobody asked to cancel:
      then the import is ready with the file that was received, and the receiver is gone. */
  lemma ReadyExactly(s: Store, h: Handle, renamed: bool, now: nat)
    requires Inv(s) && At(s, h, Finishing)
    ensures h in s.live && h in s.received
    ensures var s' := Next(s, FinishReady(h, renamed, now));
            && (renamed && !s.live[h].cancelRequested <==>
                  h in s'.live && s'.live[h].phase == Ready(now))
            && (renamed && !s.live[h].cancelRequested ==>
                  && ReadyName(h) in s'.files && s'.files[ReadyName(h)] == s.received[h]
                  && s'.live[h].bytes == |s.received[h]| && !s'.live[h].workerRunning
                  && ReceivingName(h) !in s'.files && h !in s'.receivers)
            && (s.live[h].cancelRequested ==> At(s', h, Cancelling))
            && (!s.live[h].cancelRequested && !renamed ==> At(s', h, Failing(Io)))
  {
    assert HandleOk(s, h);
  }

  /** A receiver that gave up ends its import with its own outcome exactly if its file is gone. */
  lemma LeavesExactly(s: Store, h: Handle, io: Unlink, now: nat)
    requires Inv(s) && h in s.receivers && (s.receivers[h].stage.Cancelling? || s.receivers[h].stage.Failing?)
    ensures var s', stage := Next(s, FinishOther(h, io, now)), s.receivers[h].stage;
            && (io.Confirmed? <==> h !in s'.live)
            && (io.Confirmed? ==>
                  h in s'.ended && s'.ended[h] == if stage.Cancelling? then Ended(Cancelled) else Failed(stage.error))
            && (io.Refused? ==> !s'.live[h].workerRunning && s'.live[h].failure == Some(CleanupUnconfirmed))
  {
    assert HandleOk(s, h);
  }

  // ----- A whole import ----------------------------------------------------------------------------

  function Flat(chunks: seq<Bytes>): Bytes {
    if chunks == [] then [] else chunks[0] + Flat(chunks[1..])
  }

  /** What a receiver can read at once. */
  predicate Readable(chunks: seq<Bytes>) { forall i | 0 <= i < |chunks| :: 0 < |chunks[i]| <= 65_536 }

  function CopySteps(h: Handle, chunks: seq<Bytes>): seq<Step> {
    if chunks == [] then [] else [Read(h, chunks[0]), Charge(h), Write(h, 0, true)] + CopySteps(h, chunks[1..])
  }

  lemma {:induction false} RunsOn(s: Store, a: seq<Step>, b: seq<Step>)
    requires Run(s, a) && Run(After(s, a), b)
    ensures Run(s, a + b) && After(s, a + b) == After(After(s, a), b)
    decreases |a|
  {
    if a == [] {
      assert a + b == b;
    } else {
      assert (a + b)[1..] == a[1..] + b;
      RunsOn(Next(s, a[0]), a[1..], b);
    }
  }

  lemma OneStep(s: Store, step: Step)
    requires Enabled(s, step)
    ensures Run(s, [step]) && After(s, [step]) == Next(s, step)
  {
    assert [step][1..] == [];
    assert Run(Next(s, step), []);
  }

  lemma ThreeSteps(s: Store, a: Step, b: Step, c: Step)
    requires Enabled(s, a) && Enabled(Next(s, a), b) && Enabled(Next(Next(s, a), b), c)
    ensures Run(s, [a, b, c]) && After(s, [a, b, c]) == Next(Next(Next(s, a), b), c)
  {
    OneStep(Next(Next(s, a), b), c);
    assert [a, b, c][1..] == [b, c] && [b, c][1..] == [c];
    assert Run(Next(s, a), [b, c]) && After(Next(s, a), [b, c]) == Next(Next(Next(s, a), b), c);
  }

  /** The requester's import is in good order. */
  predicate Good(e: Import, r: Requester) { e.requester == r && !e.cancelRequested && e.failure.None? }

  /** The receiver of the requester's import copies, and nobody asked to cancel. */
  ghost predicate Copies(s: Store, r: Requester, h: Handle) {
    Inv(s) && At(s, h, Copying) && h in s.live && Good(s.live[h], r) && h in s.received
  }

  /** The room left for `n` more bytes. */
  ghost predicate Room(s: Store, r: Requester, h: Handle, n: nat)
    requires h in s.received
  {
    |s.received[h]| + n <= 128 * MIB && Charged(s.live, r.uid, s.issued) + n <= 256 * MIB
  }

  lemma ReadChunk(s: Store, r: Requester, h: Handle, chunk: Bytes)
    requires Copies(s, r, h) && Readable([chunk])
    ensures Enabled(s, Read(h, chunk))
    ensures var s' := Next(s, Read(h, chunk));
            && Inv(s') && s'.live == s.live && s'.issued == s.issued && At(s', h, Charging(chunk))
            && h in s'.received && s'.received[h] == s.received[h] + chunk
  {
    assert [chunk][0] == chunk;
    StepKeeps(s, Read(h, chunk));
  }

  lemma ChargeChunk(s: Store, r: Requester, h: Handle, chunk: Bytes)
    requires Inv(s) && At(s, h, Charging(chunk)) && h in s.live && h in s.received
    requires Good(s.live[h], r)
    requires |s.received[h]| <= 128 * MIB && Charged(s.live, r.uid, s.issued) + |chunk| <= 256 * MIB
    ensures var s' := Next(s, Charge(h));
            && Inv(s') && At(s', h, Writing(chunk)) && s'.received == s.received && s'.issued == s.issued
            && h in s'.live && Good(s'.live[h], r)
            && Charged(s'.live, r.uid, s'.issued) == Charged(s.live, r.uid, s.issued) + |chunk|
  {
    assert HandleOk(s, h);
    ChargeExactly(s, h);
    StepKeeps(s, Charge(h));
    ChargedUpdate(s.live, h, s.live[h].(bytes := s.live[h].bytes + |chunk|), r.uid, s.issued);
  }

  lemma WriteChunk(s: Store, h: Handle, chunk: Bytes)
    requires Inv(s) && At(s, h, Writing(chunk))
    ensures var s' := Next(s, Write(h, 0, true));
            Inv(s') && At(s', h, Copying) && s'.live == s.live && s'.issued == s.issued && s'.received == s.received
  {
    StepKeeps(s, Write(h, 0, true));
  }

  /** One chunk within the limits: read, paid for, written. */
  lemma CopyOne(s: Store, r: Requester, h: Handle, chunk: Bytes)
    requires Copies(s, r, h) && Readable([chunk]) && Room(s, r, h, |chunk|)
    ensures var steps := [Read(h, chunk), Charge(h), Write(h, 0, true)];
            Run(s, steps) && Copies(After(s, steps), r, h) &&
            (var s' := After(s, steps);
             && s'.received[h] == s.received[h] + chunk && s'.issued == s.issued
             && Charged(s'.live, r.uid, s'.issued) == Charged(s.live, r.uid, s.issued) + |chunk|)
  {
    ReadChunk(s, r, h, chunk);
    var s1 := Next(s, Read(h, chunk));
    ChargeChunk(s1, r, h, chunk);
    var s2 := Next(s1, Charge(h));
    WriteChunk(s2, h, chunk);
    ThreeSteps(s, Read(h, chunk), Charge(h), Write(h, 0, true));
  }

  /** Any chunks within the limits. */
  lemma {:induction false} CopyAll(s: Store, r: Requester, h: Handle, chunks: seq<Bytes>)
    requires Copies(s, r, h) && Readable(chunks) && Room(s, r, h, |Flat(chunks)|)
    ensures Run(s, CopySteps(h, chunks)) && Copies(After(s, CopySteps(h, chunks)), r, h)
    ensures After(s, CopySteps(h, chunks)).received[h] == s.received[h] + Flat(chunks)
    decreases |chunks|
  {
    if chunks != [] {
      var chunk, rest := chunks[0], chunks[1..];
      var steps := [Read(h, chunk), Charge(h), Write(h, 0, true)];
      CopyOne(s, r, h, chunk);
      var s1 := After(s, steps);
      CopyAll(s1, r, h, rest);
      RunsOn(s, steps, CopySteps(h, rest));
      assert CopySteps(h, chunks) == steps + CopySteps(h, rest);
      assert s.received[h] + chunk + Flat(rest) == s.received[h] + (chunk + Flat(rest));
    }
  }

  lemma BeginStates(s: Store, r: Requester, now: nat)
    requires Inv(s) && Reserve(s, r, now, true).1.Ok?
    ensures var s1 := Next(s, Start(r, now, true));
            && Inv(s1) && s.issued in s1.live && Good(s1.live[s.issued], r) && At(s1, s.issued, Opening)
            && s.issued in s1.received && s1.received[s.issued] == []
            && Charged(s1.live, r.uid, s1.issued) == Charged(s.live, r.uid, s.issued)
  {
    StartOpens(s, r, now, true);
    StepKeeps(s, Start(r, now, true));
    ChargedBelow(s.live, s.issued, Import(r, 0, Receiving, false, true, None), r.uid, s.issued);
  }

  lemma OpensAndSpawns(s: Store, h: Handle)
    requires Inv(s) && At(s, h, Opening)
    ensures Enabled(s, Open(h, true, true)) && Enabled(Next(s, Open(h, true, true)), Spawn(h, true))
    ensures var s' := Next(Next(s, Open(h, true, true)), Spawn(h, true));
            Inv(s') && At(s', h, Copying) && s'.live == s.live && s'.received == s.received && s'.issued == s.issued
  {
    StepKeeps(s, Open(h, true, true));
    StepKeeps(Next(s, Open(h, true, true)), Spawn(h, true));
  }

  /** An admitted start without a failing operation copies. */
  lemma Begin(s: Store, r: Requester, now: nat)
    requires Inv(s) && Reserve(s, r, now, true).1.Ok?
    ensures var h, steps := s.issued, [Start(r, now, true), Open(s.issued, true, true), Spawn(s.issued, true)];
            && Run(s, steps) && Copies(After(s, steps), r, h) && After(s, steps).received[h] == []
            && Charged(After(s, steps).live, r.uid, After(s, steps).issued) == Charged(s.live, r.uid, s.issued)
  {
    BeginStates(s, r, now);
    OpensAndSpawns(Next(s, Start(r, now, true)), s.issued);
    ThreeSteps(s, Start(r, now, true), Open(s.issued, true, true), Spawn(s.issued, true));
  }

  /** The end of the input and a rename that succeeds make it ready. */
  lemma Conclude(s: Store, r: Requester, h: Handle, now: nat)
    requires Copies(s, r, h)
    ensures var steps := [EndOfInput(h), FinishReady(h, true, now)];
            Run(s, steps) && ReadyWith(After(s, steps), r, h, s.received[h], now)
  {
    assert HandleOk(s, h);
    StepKeeps(s, EndOfInput(h));
    var s1 := Next(s, EndOfInput(h));
    ReadyExactly(s1, h, true, now);
    StepKeeps(s1, FinishReady(h, true, now));
    OneStep(s, EndOfInput(h));
    OneStep(s1, FinishReady(h, true, now));
    RunsOn(s, [EndOfInput(h)], [FinishReady(h, true, now)]);
    assert [EndOfInput(h)] + [FinishReady(h, true, now)] == [EndOfInput(h), FinishReady(h, true, now)];
  }

  /** The requester's import is ready, and its file is exactly this. */
  ghost predicate ReadyWith(s: Store, r: Requester, h: Handle, content: Bytes, now: nat) {
    && Inv(s) && h in s.live && s.live[h].requester == r && s.live[h].phase == Ready(now) && s.live[h].failure.None?
    && s.live[h].bytes == |content| && ReadyName(h) in s.files && s.files[ReadyName(h)] == content
  }

  function ImportSteps(r: Requester, h: Handle, chunks: seq<Bytes>, now: nat, later: nat): seq<Step> {
    [Start(r, now, true), Open(h, true, true), Spawn(h, true)] + CopySteps(h, chunks)
    + [EndOfInput(h), FinishReady(h, true, later)]
  }

  /** From an admitted start, for any input within the two byte limits, however it is read:
      without a failing operation and a cancellation the import becomes ready with all of it. */
  lemma ImportSucceeds(s: Store, r: Requester, chunks: seq<Bytes>, now: nat, later: nat)
    requires Inv(s) && Reserve(s, r, now, true).1.Ok? && Readable(chunks)
    requires |Flat(chunks)| <= 128 * MIB && Charged(s.live, r.uid, s.issued) + |Flat(chunks)| <= 256 * MIB
    ensures Run(s, ImportSteps(r, s.issued, chunks, now, later))
    ensures ReadyWith(After(s, ImportSteps(r, s.issued, chunks, now, later)), r, s.issued, Flat(chunks), later)
  {
    var h := s.issued;
    var first := [Start(r, now, true), Open(h, true, true), Spawn(h, true)];
    Begin(s, r, now);
    var s1 := After(s, first);
    CopyAll(s1, r, h, chunks);
    assert [] + Flat(chunks) == Flat(chunks);
    RunsOn(s, first, CopySteps(h, chunks));
    var s2 := After(s1, CopySteps(h, chunks));
    Conclude(s2, r, h, later);
    RunsOn(s, first + CopySteps(h, chunks), [EndOfInput(h), FinishReady(h, true, later)]);
  }

  // ----- What requests are answered --------------------------------------------------------------

  /** A tombstone is kept for exactly three hundred seconds. */
  lemma TombstonesLast(s: Store, now: nat, t: Tombstone)
    ensures t in Forgetting(s, now).tombstones <==> t in s.tombstones && now < t.created + 300
  {
    RetainMembers(s.tombstones, Young(now));
    assert Young(now)(t) <==> now < t.created + 300;
  }

  /** Of a live import its owner is told its failure, or whether it is receiving or ready and then
      how much was received; a cancellation waits for its receiver, or ends it. */
  lemma OwnerIsTold(s: Store, r: Requester, h: Handle, requested: bool, now: nat, io: Unlink)
    requires Inv(s) && h in s.live && s.live[h].requester == r
    ensures h in s.received
    ensures var e, answer := s.live[h], Status(s, r, h, now).1;
            && (e.failure.Some? ==> answer == Err(e.failure.value))
            && (e.failure.None? && e.phase.Receiving? ==> answer == Ok(StatusReceiving))
            && (e.failure.None? && e.phase.Ready? ==> answer == Ok(StatusReady(e.bytes)))
            && (e.phase.Ready? && ReadyName(h) in s.files ==> e.bytes == |s.received[h]|)
    ensures var e, answer := s.live[h], CancelPass(s, r, h, requested, now, io).1;
            && (answer.None? <==> e.phase.Receiving? && e.workerRunning)
            && (answer.Some? ==>
                  answer.value == if io.Confirmed? then Ok(Cancellation(Cancelled, true)) else Err(CleanupUnconfirmed))
  {
    assert HandleOk(s, h);
    RetainMembers(s.tombstones, Young(now));
    assert FindTombstone(Pruned(s.tombstones, now), r, h).None?;
  }

  /** Of an ended import its owner is told how it ended, for three hundred seconds; a cancellation
      is told the same, and that it changed it only if it asked for it and it was cancelled. */
  lemma EndIsTold(s: Store, t: Tombstone, requested: bool, now: nat, io: Unlink)
    requires Inv(s) && t in s.tombstones && now < t.created + 300
    ensures var told := Status(s, t.requester, t.handle, now).1;
            var cancelled := CancelPass(s, t.requester, t.handle, requested, now, io).1;
            match t.outcome
            case Ended(state) =>
              && told == Ok(StatusTerminal(state))
              && cancelled == Some(Ok(Cancellation(state, requested && state == Cancelled)))
            case Failed(error) => told == Err(error) && cancelled == Some(Err(error))
  {
    TombstonesLast(s, now, t);
    var l := Pruned(s.tombstones, now);
    RetainDistinct(s.tombstones, Young(now));
    var found := FindTombstone(l, t.requester, t.handle);
    var i :| 0 <= i < |l| && l[i] == t;
    var j :| 0 <= j < |l| && l[j] == found.value;
    assert i == j;
  }

  /** A consumer is served exactly its own ready import whose file opens and can be unlinked. */
  lemma ConsumeExactly(s: Store, r: Requester, h: Handle, openable: bool, io: Unlink, now: nat)
    requires Inv(s)
    ensures var answer := Consume(s, r, h, openable, io, now).1;
            var mine := h in s.live && s.live[h].requester == r;
            && (answer == Err(NotFound) <==> !mine)
            && (answer == Err(NotReady) <==> mine && s.live[h].phase.Receiving?)
            && (answer.Ok? <==>
                  mine && s.live[h].phase.Ready? && openable && ReadyName(h) in s.files && io.Confirmed?)
            && (answer.Ok? ==> h in s.received && answer.value == Taken(s.received[h], |s.received[h]|))
  {
    assert HandleOk(s, h);
  }

  /** When every unlink is confirmed, exactly the ready imports of at least three hundred seconds
      are expired. */
  lemma ExpiryExactly(s: Store, step: Step, h: Handle)
    requires Inv(s) && step.ExpireReady? && Enabled(s, step) && h in s.live
    requires forall k :: IoOf(step.ios)(k) == Unlink.Confirmed
    ensures var s' := Next(s, step);
            var lapsed := s.live[h].phase.Ready? && s.live[h].phase.since + 300 <= step.now;
            && (h in s'.live <==> !lapsed) && (h in s'.live ==> s'.live[h] == s.live[h])
            && (lapsed ==> h in s'.ended && s'.ended[h] == Ended(Expired))
  {
    var s0, io := Forgetting(s, step.now), IoOf(step.ios);
    AllExpire(s0, step.order, 0, step.now, io);
    if Lapsed(s.live[h], step.now) {
      var j :| 0 <= j < |step.order| && step.order[j] == h;
      ExpiredAllGone(s0, step.order, 0, step.now, io, j);
    } else {
      ExpireAgrees(s0, step.order, 0, step.now, io, h);
    }
  }

  lemma {:induction false} AllExpire(s: Store, order: seq<Handle>, i: nat, now: nat, io: Handle -> Unlink)
    requires Listing(s.live, order, i) && forall k :: io(k) == Unlink.Confirmed
    ensures Expire(s, order, i, now, io).1 == Ok(|order|)
    decreases |order| - i
  {
    if i < |order| { AllExpire(ExpiredOne(s, order[i], now, io(order[i])), order, i + 1, now, io); }
  }
}
