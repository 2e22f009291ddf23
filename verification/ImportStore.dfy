/** The import store as the host runs it: fields changed under a lock, loops, a receiver
    thread, and a cancellation that waits for it. Between two locked sections the other
    threads take any steps. */
module ImportStore {
  import opened Basics
  import opened Imports
  import opened ImportProof
  import opened ImportRuns
  import opened ImportTheorems

  /** Removing the entry at the first position of the UID removes the UID's oldest. */
  lemma {:induction false} RemoveAt(l: seq<Tombstone>, i: nat, uid: Uid)
    requires i < |l| && l[i].requester.uid == uid && forall j | 0 <= j < i :: l[j].requester.uid != uid
    ensures l[..i] + l[i + 1..] == WithoutOldest(l, uid)
  {
    if i > 0 {
      RemoveAt(l[1..], i - 1, uid);
      assert l[..i] + l[i + 1..] == [l[0]] + (l[1..][..i - 1] + l[1..][i..]);
    } else {
      assert l[..0] + l[1..] == l[1..];
    }
  }

  lemma {:induction false} NoneOfUid(l: seq<Tombstone>, uid: Uid)
    requires forall t | t in l :: t.requester.uid != uid
    ensures OfUid(l, uid) == []
  {
    if l != [] { NoneOfUid(l[1..], uid); }
  }

  /** The store keeps its invariant and never forgets that a handle is gone. */
  ghost predicate Later(s: Store, s': Store) {
    Inv(s') && s.issued <= s'.issued && forall k :: Gone(s, k) ==> Gone(s', k)
  }

  lemma LaterTrans(s: Store, s': Store, s'': Store)
    requires Later(s, s') && Later(s', s'')
    ensures Later(s, s'')
  {
  }

  lemma StepLater(s: Store, step: Step)
    requires Inv(s) && Enabled(s, step)
    ensures Later(s, Next(s, step))
  {
    StepKeeps(s, step);
    IssuedGrows(s, step);
    forall k | Gone(s, k) ensures Gone(Next(s, step), k) {
      StepDead(s, step, k);
      DeadIsGone(Next(s, step), k);
    }
  }

  /** The steps of the other threads, as one receiver sees them. */
  predicate Outside(step: Step, h: Handle) {
    step.Start? || step.AskStatus? || step.AskCancel? || step.AskConsume? || step.ExpireReady? || step.handle != h
  }

  /** The receiver of the handle is where it was and has read what it had. */
  ghost predicate Undisturbed(s: Store, s': Store, h: Handle) {
    && h in s.receivers && h in s'.receivers && s'.receivers[h] == s.receivers[h]
    && h in s.received && h in s'.received && s'.received[h] == s.received[h]
  }

  lemma CancelLeaves(s: Store, r: Requester, g: Handle, now: nat, io: Unlink)
    ensures CancelPass(s, r, g, false, now, io).0.receivers == s.receivers
    ensures CancelPass(s, r, g, false, now, io).0.received == s.received
  {
  }

  lemma ConsumeLeaves(s: Store, r: Requester, g: Handle, openable: bool, io: Unlink, now: nat)
    ensures Consume(s, r, g, openable, io, now).0.receivers == s.receivers
    ensures Consume(s, r, g, openable, io, now).0.received == s.received
  {
  }

  /** Requests and expiry leave all receivers alone. */
  lemma RequestLeaves(s: Store, step: Step)
    requires Enabled(s, step) && (step.AskStatus? || step.AskCancel? || step.AskConsume? || step.ExpireReady?)
    ensures Next(s, step).receivers == s.receivers && Next(s, step).received == s.received
  {
    match step {
      case AskStatus(_, _, _) =>
      case AskCancel(r, g, now, io) => CancelLeaves(s, r, g, now, io);
      case AskConsume(r, g, openable, io, now) => ConsumeLeaves(s, r, g, openable, io, now);
      case ExpireReady(order, now, ios) => ExpireBystanders(Forgetting(s, now), order, 0, now, IoOf(ios));
    }
  }

  lemma OutsideLeaves(s: Store, step: Step, h: Handle)
    requires Inv(s) && Enabled(s, step) && Outside(step, h) && Undisturbed(s, s, h)
    ensures Undisturbed(s, Next(s, step), h)
  {
    assert HandleOk(s, h);
    if step.AskStatus? || step.AskCancel? || step.AskConsume? || step.ExpireReady? {
      RequestLeaves(s, step);
    } else {
      StepAgrees(s, step, h);
    }
  }

  /** The first `n` chunks of an input, joined. */
  function Joined(input: nat -> Bytes, n: nat): Bytes {
    if n == 0 then [] else Joined(input, n - 1) + input(n - 1)
  }

  datatype Turn = More | Drained | Left

  /** The copy is over. */
  predicate Leaving(stage: Stage) { stage.Finishing? || stage.Cancelling? || stage.Failing? }

  /** How a receiver may leave its handle: ended, ready with all it read, or stopped with
      its quota kept. */
  ghost predicate Settled(s: Store, h: Handle) {
    && h !in s.receivers
    && (h in s.live && s.live[h].phase.Ready? ==> h in s.received && Complete(s, h, ReadyName(h)))
    && (h in s.live && s.live[h].phase.Receiving? ==>
          !s.live[h].workerRunning && s.live[h].failure == Some(CleanupUnconfirmed))
  }

  /** The expiry from a position on, by its first import. */
  lemma ExpireFrom(s: Store, order: seq<Handle>, i: nat, now: nat, io: Handle -> Unlink)
    requires Listing(s.live, order, i) && i < |order|
    ensures var s1 := ExpiredOne(s, order[i], now, io(order[i]));
            && (io(order[i]).Refused? ==> Expire(s, order, i, now, io) == (s1, Err(CleanupUnconfirmed)))
            && (io(order[i]).Confirmed? ==>
                  Listing(s1.live, order, i + 1) && Expire(s, order, i, now, io) == Expire(s1, order, i + 1, now, io))
  {
  }

  lemma PrunedTwice(l: seq<Tombstone>, now: nat)
    ensures Pruned(Pruned(l, now), now) == Pruned(l, now)
  {
    RetainMembers(l, Young(now));
    RetainAll(Pruned(l, now), Young(now));
  }

  class ImportStore {
    var live: Live
    var tombstones: seq<Tombstone>
    var files: map<Name, Bytes>
    var receivers: map<Handle, Receiver>
    var issued: Handle
    var received: map<Handle, Bytes>
    var ended: map<Handle, Outcome>

    function View(): Store
      reads this
    {
      Store(live, tombstones, files, receivers, issued, received, ended)
    }

    ghost predicate Valid()
      reads this
    {
      Inv(View())
    }

    constructor ()
      ensures Valid() && View() == Empty()
    {
      live, tombstones, files, receivers, issued, received, ended := map[], [], map[], map[], 0, map[], map[];
      new;
      EmptyOk();
    }

    method Become(s: Store)
      modifies this
      ensures View() == s
    {
      live, tombstones, files, receivers := s.live, s.tombstones, s.files, s.receivers;
      issued, received, ended := s.issued, s.received, s.ended;
    }

    /** Adds a tombstone, then drops this UID's oldest ones until it is within its limit. */
    method PushTombstone(t: Tombstone)
      modifies this`tombstones
      ensures tombstones == Buried(old(tombstones), t)
    {
      var uid := t.requester.uid;
      tombstones := Pruned(tombstones, t.created) + [t];
      while |OfUid(tombstones, uid)| > MAXIMUM_TOMBSTONES_PER_UID
        invariant Evicted(tombstones, uid) == Buried(old(tombstones), t)
        decreases |tombstones|
      {
        var i := 0;
        while i < |tombstones| && tombstones[i].requester.uid != uid
          invariant 0 <= i <= |tombstones|
          invariant forall j | 0 <= j < i :: tombstones[j].requester.uid != uid
        {
          i := i + 1;
        }
        if i == |tombstones| { NoneOfUid(tombstones, uid); }
        RemoveAt(tombstones, i, uid);
        tombstones := tombstones[..i] + tombstones[i + 1..];
      }
    }

    /** Ends an entry whose files are gone. */
    method Entomb(h: Handle, outcome: Outcome, now: nat)
      requires h in live
      modifies this
      ensures View() == Entombed(old(View()), h, outcome, now)
    {
      PushTombstone(Tombstone(h, live[h].requester, outcome, now));
      live, ended := live - {h}, ended[h := outcome];
    }

    /** Lists the lapsed imports in some order. */
    method Listed(now: nat) returns (order: seq<Handle>)
      ensures ListsLapsed(View(), order, now)
    {
      var left := set h | h in live && Lapsed(live[h], now);
      order := [];
      while left != {}
        invariant forall h :: h in live && Lapsed(live[h], now) <==> h in left || h in order
        invariant forall h | h in order :: h !in left
        invariant forall i, j | 0 <= i < j < |order| :: order[i] != order[j]
        decreases left
      {
        var h :| h in left;
        order := order + [h];
        left := left - {h};
      }
    }

    method ExpireEntry(h: Handle, now: nat, io: Unlink) returns (ok: bool)
      requires h in live
      modifies this
      ensures ok == io.Confirmed? && View() == ExpiredOne(old(View()), h, now, io)
    {
      files := Unlinked(View(), ReadyName(h), io).files;
      ok := io.Confirmed?;
      if ok { Entomb(h, Ended(Expired), now); }
    }

    /** Expires the listed imports up to the first file it cannot remove. */
    method ExpireListed(order: seq<Handle>, now: nat, io: Handle -> Unlink) returns (result: Result<nat>)
      requires Listing(live, order, 0)
      modifies this
      ensures (View(), result) == Expire(old(View()), order, 0, now, io)
    {
      var i := 0;
      while i < |order|
        invariant Listing(live, order, i)
        invariant Expire(old(View()), order, 0, now, io) == Expire(View(), order, i, now, io)
      {
        ExpireFrom(View(), order, i, now, io);
        var ok := ExpireEntry(order[i], now, io(order[i]));
        if !ok { return Err(CleanupUnconfirmed); }
        i := i + 1;
      }
      result := Ok(|order|);
    }

    /** Drops old tombstones, then expires what has lapsed, in some order. */
    method ExpireReadyAt(now: nat, io: Handle -> Unlink) returns (order: seq<Handle>, result: Result<nat>)
      modifies this
      ensures ListsLapsed(old(View()), order, now)
      ensures (View(), result) == ExpireSection(old(View()), order, now, io)
    {
      tombstones := Pruned(tombstones, now);
      order := Listed(now);
      result := ExpireListed(order, now, io);
    }

    // ----- Requests -------------------------------------------------------------------------

    /** The other threads take any number of steps; with a handle, none of its receiver's. */
    method Interfere(h: Option<Handle>)
      requires Valid()
      requires h.Some? ==> Undisturbed(View(), View(), h.value)
      modifies this
      ensures Later(old(View()), View())
      ensures h.Some? ==> Undisturbed(old(View()), View(), h.value)
    {
      var steps: seq<Step> := *;
      for i := 0 to |steps|
        invariant Later(old(View()), View())
        invariant h.Some? ==> Undisturbed(old(View()), View(), h.value)
      {
        if Enabled(View(), steps[i]) && (h.None? || Outside(steps[i], h.value)) {
          if h.Some? { OutsideLeaves(View(), steps[i], h.value); }
          Take(steps[i]);
        }
      }
    }

    method Take(step: Step)
      requires Valid() && Enabled(View(), step)
      modifies this
      ensures View() == Next(old(View()), step) && Later(old(View()), View())
    {
      StepLater(View(), step);
      Become(Next(View(), step));
    }

    method SomeUnlink() returns (io: Unlink) {
      var failed: bool, removed: bool := *, *;
      io := if failed then Refused(removed) else Confirmed;
    }

    /** One pass of the cancellation loop, with an unlink that may be refused. */
    method CancelTurn(r: Requester, h: Handle, requested: bool, now: nat)
      returns (answer: Option<Result<Cancellation>>, ghost refused: bool)
      requires Valid()
      modifies this
      ensures Later(old(View()), View())
      ensures answer.Some? && answer.value.Ok? ==> Gone(View(), h)
      ensures !refused ==> answer == CancelPass(old(View()), r, h, requested, now, Unlink.Confirmed).1
      ensures answer.None? <==> CancelPass(old(View()), r, h, requested, now, Unlink.Confirmed).1.None?
    {
      var io := SomeUnlink();
      refused := io.Refused?;
      answer := CancelPass(View(), r, h, requested, now, io).1;
      if answer.Some? && answer.value.Ok? { CancelConfirmed(View(), r, h, requested, now, io); }
      Take(AskCancel(r, h, now, io));
    }

    /** Cancels an import, waiting for its receiver at most until the deadline. A confirmed
        cancellation leaves neither entry nor file nor receiver; and unless an unlink is refused,
        what can be answered at once is. */
    method Cancel(r: Requester, h: Handle, now: nat, deadline: nat)
      returns (result: Result<Cancellation>, ghost refused: bool)
      requires Valid()
      modifies this
      ensures Later(old(View()), View())
      ensures result.Ok? ==> Gone(View(), h)
      ensures var atOnce := CancelPass(old(View()), r, h, false, now, Unlink.Confirmed).1;
              !refused && atOnce.Some? ==> result == atOnce.value
    {
      var answer;
      answer, refused := CancelTurn(r, h, false, now);
      if answer.Some? { return answer.value, refused; }
      for waited := 1 to deadline + 1
        invariant Later(old(View()), View())
      {
        var timedOut: bool := *;
        if timedOut { return Err(CleanupUnconfirmed), refused; }
        ghost var before := View();
        Interfere(None);
        LaterTrans(old(View()), before, View());
        ghost var between := View();
        answer, refused := CancelTurn(r, h, true, now + waited);
        LaterTrans(old(View()), between, View());
        if answer.Some? { return answer.value, refused; }
      }
      result := Err(CleanupUnconfirmed);
    }

    /** Ends all of a requester's imports; success means all those it had are gone. */
    method Disconnect(r: Requester, now: nat, deadline: nat) returns (failure: Option<StoreError>)
      requires Valid()
      modifies this
      ensures Later(old(View()), View())
      ensures failure.None? ==> forall h | h in old(live) && old(live)[h].requester == r :: Gone(View(), h)
    {
      var left := OwnedBy(live, r);
      ghost var done: set<Handle> := {};
      failure := None;
      while left != {}
        invariant Later(old(View()), View())
        invariant left + done == OwnedBy(old(live), r)
        invariant failure.None? ==> forall h | h in done :: Gone(View(), h)
        decreases left
      {
        var h :| h in left;
        var result, _ := Cancel(r, h, now, deadline);
        if result.Err? && failure.None? { failure := Some(result.error); }
        left, done := left - {h}, done + {h};
      }
    }

    /** The status of an import as it is at the end of the call, unless its expiry fails. */
    method StatusOf(r: Requester, h: Handle, now: nat, io: Handle -> Unlink) returns (result: Result<ImportStatus>)
      requires Valid()
      modifies this
      ensures Valid()
      ensures result == Err(CleanupUnconfirmed) || result == Status(View(), r, h, now).1
      ensures result.Ok? && result.value.StatusTerminal? ==> Gone(View(), h)
      ensures result.Ok? && !result.value.StatusTerminal? ==> h in live && live[h].requester == r
    {
      var order, expired := ExpireReadyAt(now, io);
      PruneKeeps(old(View()), now);
      ExpireKeeps(Forgetting(old(View()), now), order, 0, now, io);
      ExpiryFails(Forgetting(old(View()), now), order, 0, now, io);
      if expired.Err? { return Err(expired.error); }
      Interfere(None);
      PruneKeeps(View(), now);
      result := Status(View(), r, h, now).1;
      PrunedTwice(tombstones, now);
      tombstones := Pruned(tombstones, now);
      assert HandleOk(View(), h);
    }

    /** Success hands over exactly what the receiver read, and ends the import. */
    method ConsumeOf(r: Requester, h: Handle, now: nat, io: Handle -> Unlink, openable: bool)
      returns (result: Result<Taken>)
      requires Valid()
      modifies this
      ensures Valid()
      ensures result.Ok? ==>
                && h in received && result.value.content == received[h] && result.value.bytes == |received[h]|
                && Gone(View(), h) && h in ended && ended[h] == Ended(Consumed)
    {
      var order, expired := ExpireReadyAt(now, io);
      PruneKeeps(old(View()), now);
      ExpireKeeps(Forgetting(old(View()), now), order, 0, now, io);
      if expired.Err? { return Err(expired.error); }
      Interfere(None);
      assert HandleOk(View(), h);
      result := Consume(View(), r, h, openable, io(h), now).1;
      Take(AskConsume(r, h, openable, io(h), now));
      if result.Ok? { DeadIsGone(View(), h); }
    }

    // ----- The receiver thread ------------------------------------------------------------------

    /** Polls the cancellation flag; true to go on. */
    method KeepGoing(h: Handle) returns (on: bool)
      requires Valid() && At(View(), h, Copying) && h in received
      modifies this
      ensures Later(old(View()), View()) && h in receivers && h in received && received[h] == old(received)[h]
      ensures if on then At(View(), h, Copying) else receivers[h].stage.Cancelling?
    {
      Interfere(Some(h));
      ReceiverFindsItsEntry(View(), h);
      Take(Poll(h));
      on := receivers[h].stage == Copying;
    }

    /** Gives up for a reason of its own. */
    method GiveUp(h: Handle, error: StoreError)
      requires Valid() && At(View(), h, Copying) && h in received
      modifies this
      ensures Later(old(View()), View()) && h in receivers && receivers[h].stage.Failing?
      ensures h in received && received[h] == old(received)[h]
    {
      Take(Trouble(h, error));
    }

    /** Before each read and after it: has the import been cancelled, or run out of time? */
    method MayRead(h: Handle) returns (on: bool)
      requires Valid() && At(View(), h, Copying) && h in received
      modifies this
      ensures Later(old(View()), View()) && h in receivers && h in received && received[h] == old(received)[h]
      ensures if on then At(View(), h, Copying) else receivers[h].stage.Cancelling? || receivers[h].stage.Failing?
    {
      on := KeepGoing(h);
      if !on { return; }
      var late: bool, broken: bool := *, *;
      if late || broken {
        GiveUp(h, if late then ReceivingTimedOut else Io);
        return false;
      }
      on := KeepGoing(h);
    }

    method ReadChunk(h: Handle, chunk: Bytes)
      requires Valid() && At(View(), h, Copying) && h in received && 0 < |chunk| <= IMPORT_COPY_CHUNK_BYTES
      modifies this
      ensures Later(old(View()), View()) && h in receivers && receivers[h].stage == Charging(chunk)
      ensures h in received && received[h] == old(received)[h] + chunk
    {
      Take(Read(h, chunk));
      Interfere(Some(h));
    }

    /** Pays for a chunk just read; true if it may be written. */
    method Pay(h: Handle, chunk: Bytes) returns (on: bool)
      requires Valid() && h in receivers && receivers[h].stage == Charging(chunk) && h in received
      modifies this
      ensures Later(old(View()), View()) && h in receivers && h in received && received[h] == old(received)[h]
      ensures if on then receivers[h].stage == Writing(chunk)
              else receivers[h].stage.Cancelling? || receivers[h].stage.Failing?
    {
      Take(Charge(h));
      on := receivers[h].stage.Writing?;
    }

    /** Writes a chunk that was paid for. */
    method Append(h: Handle) returns (on: bool)
      requires Valid() && h in receivers && receivers[h].stage.Writing? && h in received
      modifies this
      ensures Later(old(View()), View()) && h in receivers && h in received && received[h] == old(received)[h]
      ensures if on then At(View(), h, Copying) && |received[h]| <= MAXIMUM_IMPORT_BYTES
              else receivers[h].stage.Failing?
    {
      Interfere(Some(h));
      on := *;
      Take(Write(h, 0, on));
      assert HandleOk(View(), h);
    }

    method CopyChunk(h: Handle, chunk: Bytes) returns (on: bool)
      requires Valid() && At(View(), h, Copying) && h in received && 0 < |chunk| <= IMPORT_COPY_CHUNK_BYTES
      modifies this
      ensures Later(old(View()), View()) && h in receivers && h in received
      ensures if on then At(View(), h, Copying) && received[h] == old(received)[h] + chunk
                    && |received[h]| <= MAXIMUM_IMPORT_BYTES
              else receivers[h].stage.Cancelling? || receivers[h].stage.Failing?
    {
      ReadChunk(h, chunk);
      on := Pay(h, chunk);
      if on { on := Append(h); }
    }

    method Close(h: Handle)
      requires Valid() && At(View(), h, Copying) && h in received
      modifies this
      ensures Later(old(View()), View()) && At(View(), h, Finishing)
      ensures h in received && received[h] == old(received)[h]
    {
      Take(EndOfInput(h));
    }

    /** One turn of the copy loop: `More` after a chunk, `Drained` at the end of the input. */
    method CopyTurn(h: Handle, chunk: Bytes) returns (turn: Turn)
      requires Valid() && At(View(), h, Copying) && h in received && |chunk| <= IMPORT_COPY_CHUNK_BYTES
      modifies this
      ensures Later(old(View()), View()) && h in receivers && h in received
      ensures turn.More? ==> At(View(), h, Copying) && chunk != [] && received[h] == old(received)[h] + chunk
      ensures turn.More? ==> |received[h]| <= MAXIMUM_IMPORT_BYTES
      ensures turn.Drained? ==> At(View(), h, Finishing) && chunk == [] && received[h] == old(received)[h]
      ensures turn.Left? ==> receivers[h].stage.Cancelling? || receivers[h].stage.Failing?
    {
      var on := MayRead(h);
      if !on { return Left; }
      if chunk == [] {
        Close(h);
        return Drained;
      }
      on := CopyChunk(h, chunk);
      turn := if on then More else Left;
    }

    /** Copies the input into the file, chunk by chunk; the byte quota bounds the loop. */
    method CopyAsync(h: Handle, input: nat -> Bytes) returns (chunks: nat)
      requires Valid() && At(View(), h, Copying) && h in received && received[h] == []
      requires forall i :: |input(i)| <= IMPORT_COPY_CHUNK_BYTES
      modifies this
      ensures Later(old(View()), View()) && h in receivers && h in received
      ensures Leaving(receivers[h].stage)
      ensures receivers[h].stage.Finishing? ==> received[h] == Joined(input, chunks) && input(chunks) == []
    {
      chunks := 0;
      var turn := More;
      while turn.More?
        invariant Later(old(View()), View()) && h in receivers && h in received
        invariant turn.More? ==> At(View(), h, Copying) && |received[h]| <= MAXIMUM_IMPORT_BYTES
        invariant turn.Left? ==> receivers[h].stage.Cancelling? || receivers[h].stage.Failing?
        invariant turn.Drained? ==> At(View(), h, Finishing) && input(chunks) == []
        invariant !turn.Left? ==> received[h] == Joined(input, chunks)
        decreases turn.More?, if turn.More? then MAXIMUM_IMPORT_BYTES - |received[h]| else 0
      {
        ghost var before := View();
        turn := CopyTurn(h, input(chunks));
        LaterTrans(old(View()), before, View());
        if turn.More? { chunks := chunks + 1; }
      }
    }

    /** Makes the finished file ready; true if that ended the receiver. */
    method Publish(h: Handle, now: nat) returns (done: bool)
      requires Valid() && At(View(), h, Finishing) && h in received
      modifies this
      ensures Later(old(View()), View()) && h in received && received[h] == old(received)[h]
      ensures if done then Settled(View(), h)
              else h in receivers && (receivers[h].stage.Cancelling? || receivers[h].stage.Failing?)
    {
      var renamed: bool := *;
      assert HandleOk(View(), h);
      Take(FinishReady(h, renamed, now));
      done := h !in receivers;
    }

    /** Undoes an import that did not succeed. */
    method Undo(h: Handle, now: nat)
      requires Valid() && h in receivers && (receivers[h].stage.Cancelling? || receivers[h].stage.Failing?)
      modifies this
      ensures Later(old(View()), View()) && Settled(View(), h) && (h in live ==> live[h].phase.Receiving?)
    {
      assert HandleOk(View(), h);
      var io := SomeUnlink();
      Take(FinishOther(h, io, now));
    }

    /** A receiver thread from its first read to its end. */
    method ReceiveAsync(h: Handle, input: nat -> Bytes, now: nat)
      requires Valid() && At(View(), h, Copying) && h in received && received[h] == []
      requires forall i :: |input(i)| <= IMPORT_COPY_CHUNK_BYTES
      modifies this
      ensures Later(old(View()), View()) && Settled(View(), h)
      ensures h in live && live[h].phase.Ready? ==>
                exists n :: received[h] == Joined(input, n) && input(n) == []
    {
      var chunks := CopyAsync(h, input);
      Interfere(Some(h));
      if receivers[h].stage.Finishing? {
        var done := Publish(h, now);
        if done { return; }
        Interfere(Some(h));
      }
      Undo(h, now);
    }
  }
}
