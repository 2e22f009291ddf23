/** Hashing on the worker with a local fallback. Requests are answered by an honest worker
    over a session that may lose any request or reply; the input may fail to read at any
    point; buffers, reservation ids and request ids are fresh. */
module RemoteExecution {
  import opened Basics
  import opened Wire
  import opened HostView
  import opened Ledger
  import opened RemoteBuffer

  const MAX_PUT_BODY: nat := 4 * 1024 * 1024 - 64
  const SCRATCH_BYTES: nat := 1024
  const LOCAL_DIGEST_CHUNK_BYTES: nat := 65_536
  const HASH_CHUNK_BYTES: nat := 1024 * 1024
  const MAX_COMPUTE_INPUT_BYTES: nat := 128 * 1024 * 1024

  type Digest = Bytes
  type JobId = nat

  // ----- Ledger edits of a new target leave the older entries alone ---------------------------

  ghost predicate FreshIn(l: Entries, t: Target) { forall e | e in l :: e.target != t }

  lemma {:induction false} FindPast(base: Entries, tail: Entries, t: Target, lease: Lease)
    requires FreshIn(base, t)
    ensures Find(base + tail, t, lease) == |base| + Find(tail, t, lease)
  {
    if base == [] {
      assert base + tail == tail;
    } else {
      assert (base + tail)[1..] == base[1..] + tail;
      FindPast(base[1..], tail, t, lease);
    }
  }

  lemma {:induction false} RemovePast(base: Entries, tail: Entries, t: Target, lease: Lease)
    requires FreshIn(base, t)
    ensures Removed(base + tail, t, lease) == base + Removed(tail, t, lease)
  {
    if base == [] {
      assert base + tail == tail;
    } else {
      assert (base + tail)[1..] == base[1..] + tail;
      RemovePast(base[1..], tail, t, lease);
    }
  }

  /** Removing a new target that sits at the end restores the older entries. */
  lemma RemoveLast(base: Entries, e: Obligation)
    requires FreshIn(base, e.target)
    ensures Removed(base + [e], e.target, e.lease) == base
  {
    RemovePast(base, [e], e.target, e.lease);
    var left := Removed([e], e.target, e.lease);
    RetainMembers([e], d => !Matches(d, e.target, e.lease));
    assert forall d :: d !in left;
  }

  lemma ReplacePast(base: Entries, tail: Entries, from: Target, to: Target, lease: Lease, origin: nat)
    requires FreshIn(base, from)
    ensures Replaced(base + tail, from, to, lease, origin) == base + Replaced(tail, from, to, lease, origin)
  {
    FindPast(base, tail, from, lease);
  }

  lemma MarkPast(base: Entries, tail: Entries, t: Target, lease: Lease)
    requires FreshIn(base, t)
    ensures MarkedAmbiguous(base + tail, t, lease) == base + MarkedAmbiguous(tail, t, lease)
  {
    FindPast(base, tail, t, lease);
  }

  // ----- Input and hashing -------------------------------------------------------------------

  /** A seekable reader whose calls may fail; after a failed read the position is anywhere. */
  class Reader {
    const data: Bytes
    var pos: nat

    constructor (data: Bytes)
      ensures this.data == data && pos == 0
    {
      this.data, pos := data, 0;
    }

    method SeekStart() returns (ok: bool)
      modifies this
      ensures ok ==> pos == 0
    {
      ok := *;
      if ok { pos := 0; }
    }

    /** `fault` tells a failing device from an input that is too short. */
    method ReadExact(n: nat) returns (chunk: Option<Bytes>, ghost fault: bool)
      modifies this
      ensures chunk.Some? <==> !fault && old(pos) + n <= |data|
      ensures chunk.Some? ==> chunk.value == data[old(pos)..old(pos) + n] && pos == old(pos) + n
    {
      var fails: bool := *;
      fault := fails;
      if fails || pos + n > |data| {
        pos := *;
        return None, fault;
      }
      chunk := Some(data[pos..pos + n]);
      pos := pos + n;
    }
  }

  /** BLAKE3 as an incremental hasher. */
  datatype Hasher<!S(!new)> = Hasher(start: S, update: (S, Bytes) -> S, finish: S -> Digest)
  {
    ghost predicate Lawful() {
      && (forall s :: update(s, []) == s)
      && (forall s, a, b, c {:trigger update(update(s, a), b), update(s, c)} ::
            c == a + b ==> update(update(s, a), b) == update(s, c))
    }

    function Hash(input: Bytes): Digest { finish(update(start, input)) }
  }

  // ----- The worker's side of one execution ---------------------------------------------------

  /** One remote buffer on the worker. */
  class WorkerBuffer {
    const size: nat
    var backing: Bytes
    var ranges: Ranges

    ghost predicate Valid()
      reads this
    {
      |backing| == size && Merged(ranges) && forall at: nat | Written(ranges, at) :: at < size
    }

    constructor (size: nat)
      ensures Valid() && this.size == size && ranges == []
    {
      this.size := size;
      backing := seq(size, _ => 0);
      ranges := [];
    }

    predicate Ready()
      reads this
    {
      ranges == [Range(0, size)]
    }

    /** Stores the bytes and the range they fill, or refuses the range. */
    method Put(offset: nat, data: Bytes) returns (ok: bool)
      requires Valid()
      modifies this
      ensures Valid() && (ok <==> data != [] && offset + |data| <= size)
      ensures !ok ==> backing == old(backing) && ranges == old(ranges)
      ensures ok ==> backing == old(backing)[..offset] + data + old(backing)[offset + |data|..]
      ensures ok ==> Union(ranges, old(ranges), Range(offset, offset + |data|))
    {
      if data == [] || offset + |data| > size { return false; }
      backing := backing[..offset] + data + backing[offset + |data|..];
      ranges := MergeRange(ranges, Range(offset, offset + |data|));
      ok := true;
    }
  }

  // ----- The host's side -----------------------------------------------------------------------

  /** How a remote attempt ends: with a digest, with a remote failure, or because the
      input could not be read. */
  datatype Attempt =
    | Hashed(digest: Digest)
    | RemoteFailed(ambiguous: bool, transportLost: bool)
    | InputFailed

  datatype ComputeReply =
    | JobResult(echoed: bool, job: Option<JobId>, completed: bool, digest: Option<Digest>)
    | JobStatus(echoed: bool, job: Option<JobId>)
    | JobCancel

  /** What the host must still give back at the end of an attempt. */
  datatype Resources =
    Resources(classOne: Option<ReservationId>, buffer: Option<BufferId>, scratch: Option<ReservationId>)

  datatype Source = RemoteSuccess | LocalAfterUnavailable | LocalAfterAmbiguous

  datatype Execution = Execution(digest: Digest, source: Source)

  /** The answer an execution hopes for. */
  predicate Favourable(q: ResourceRequest, lease: Lease, class_: ResourceClass, bytes: nat, res: ResourceResult) {
    match q
    case Reserve(_, _, _, _) => SuccessfulReservation(res, lease, class_, bytes).Some?
    case Commit(_, _, id) => CommitConfirmed(res, lease, id, class_, bytes)
    case Release(_, _, id) => ReleaseTerminal(res, lease, id)
  }

  /** A compute reply that is about the admitted job and brings it forward. */
  predicate Promising(reply: ComputeReply, admitted: Option<JobId>) {
    match reply
    case JobResult(echoed, job, completed, digest) =>
      echoed && job.Some? && (admitted.None? || admitted == job) && completed && digest.Some?
    case JobStatus(echoed, job) => echoed && job.Some? && (admitted.None? || admitted == job)
    case JobCancel => false
  }

  /** The methods report in a ghost result whether anything outside the host went wrong: a call
      lost or refused, a device that failed, time that ran out. */
  class RemoteHost<S(!new)> {
    const ledger: CleanupLedger
    const lease: Lease
    const session: nat
    const hasher: Hasher<S>

    constructor (ledger: CleanupLedger, lease: Lease, session: nat, hasher: Hasher<S>)
      ensures this.ledger == ledger && this.lease == lease && this.session == session && this.hasher == hasher
    {
      this.ledger, this.lease, this.session, this.hasher := ledger, lease, session, hasher;
    }

    function Entry(t: Target): Obligation { Obligation(lease, session, t, Known) }

    /** A random request id, distinct from those the ledger still names. */
    method FreshRequestId() returns (id: RequestId)
      ensures id != 0
      ensures forall e | e in ledger.entries && e.target.UnresolvedReserve? :: e.target.request != id
    {
      var drawn: int := *;
      id := if drawn > 0 then drawn else 1;
      for i := 0 to |ledger.entries|
        invariant id != 0
        invariant forall j | 0 <= j < i && ledger.entries[j].target.UnresolvedReserve? ::
                    ledger.entries[j].target.request < id
      {
        var t := ledger.entries[i].target;
        if t.UnresolvedReserve? && t.request >= id { id := t.request + 1; }
      }
    }

    /** The answer to a C08 call, if it arrives. A grant names a new reservation. */
    method Resource(q: ResourceRequest, class_: ResourceClass, bytes: nat)
      returns (reply: Option<ResourceResult>, ghost fault: bool)
      ensures fault <==> !(reply.Some? && Favourable(q, lease, class_, bytes, reply.value))
      ensures reply.Some? && q.Reserve? ==>
                (var r := SuccessfulReservation(reply.value, lease, class_, bytes);
                 r.Some? ==> FreshIn(ledger.entries, ReservationTarget(r.value)))
    {
      reply := *;
      if reply.Some? && q.Reserve? {
        var r := SuccessfulReservation(reply.value, lease, class_, bytes);
        if r.Some? && exists e | e in ledger.entries :: e.target == ReservationTarget(r.value) {
          reply := None;
        }
      }
      fault := !(reply.Some? && Favourable(q, lease, class_, bytes, reply.value));
    }

    /** A reservation exactly if the ledger has room and the worker grants it. */
    method ReserveWithCleanup(class_: ResourceClass, bytes: nat) returns (id: Option<ReservationId>, ghost fault: bool)
      modifies ledger
      ensures id.Some? <==> |old(ledger.entries)| < MAX_CLEANUP_OBLIGATIONS && !fault
      ensures old(ledger.entries) <= ledger.entries
      ensures id.Some? ==> ledger.entries == old(ledger.entries) + [Entry(ReservationTarget(id.value))]
      ensures id.Some? ==> FreshIn(old(ledger.entries), ReservationTarget(id.value))
    {
      var base := ledger.entries;
      if |base| >= MAX_CLEANUP_OBLIGATIONS { return None, false; }
      var requestId := FreshRequestId();
      var unresolved := UnresolvedReserve(requestId, class_, bytes);
      var o := Obligation(lease, session, unresolved, Ambiguous);
      assert FreshIn(base, unresolved);
      var tracked := ledger.Track(o);
      assert ledger.entries == base + [o];
      var reply;
      reply, fault := Resource(Reserve(lease, requestId, class_, bytes), class_, bytes);
      if reply.None? { return None, fault; }
      id := SuccessfulReservation(reply.value, lease, class_, bytes);
      if id.Some? {
        ReplacePast(base, [o], unresolved, ReservationTarget(id.value), lease, session);
        ledger.Replace(unresolved, ReservationTarget(id.value), lease, session);
        assert FreshIn(base + [o], ReservationTarget(id.value));
      } else if RefusalProvesAbsence(reply.value, lease) {
        RemovePast(base, [o], unresolved, lease);
        ledger.Remove(unresolved, lease);
      }
    }

    method ReserveAndCommit(class_: ResourceClass, bytes: nat) returns (id: Option<ReservationId>, ghost fault: bool)
      modifies ledger
      ensures id.Some? <==> |old(ledger.entries)| < MAX_CLEANUP_OBLIGATIONS && !fault
      ensures old(ledger.entries) <= ledger.entries
      ensures id.Some? ==> ledger.entries == old(ledger.entries) + [Entry(ReservationTarget(id.value))]
      ensures id.Some? ==> FreshIn(old(ledger.entries), ReservationTarget(id.value))
    {
      var base := ledger.entries;
      id, fault := ReserveWithCleanup(class_, bytes);
      if id.None? { return; }
      var target := ReservationTarget(id.value);
      MarkPast(base, [Entry(target)], target, lease);
      RemovePast(base, [Entry(target)], target, lease);
      var requestId := FreshRequestId();
      var commit;
      commit, fault := Resource(Commit(lease, requestId, id.value), class_, bytes);
      if commit.None? {
        ledger.MarkAmbiguous(target, lease);
        return None, fault;
      }
      var c := commit.value;
      if !CommitConfirmed(c, lease, id.value, class_, bytes) {
        var releaseId := FreshRequestId();
        var release, _ := Resource(Release(lease, releaseId, id.value), class_, bytes);
        if release.Some? && ReleaseTerminal(release.value, lease, id.value) {
          ledger.Remove(target, lease);
        }
        return None, fault;
      }
    }

    /** Any failure a call can end with: only a lost session leaves its outcome open. */
    method Failure() returns (failure: Attempt)
      ensures failure.RemoteFailed? && (failure.ambiguous ==> failure.transportLost)
    {
      var ambiguous: bool, lost: bool := *, *;
      failure := RemoteFailed(ambiguous, lost || ambiguous);
    }

    /** The upload: chunk by chunk until the buffer is full. On success the buffer is ready
        and holds exactly the first `n` bytes of the input. */
    method Upload(input: Reader, n: nat, buffer: WorkerBuffer) returns (result: Option<Attempt>, ghost fault: bool)
      requires buffer.Valid() && buffer.size == n && buffer.ranges == [] && n > 0 && input.pos == 0
      requires input as object != buffer
      modifies input, buffer
      ensures buffer.Valid()
      ensures result.Some? ==> !result.value.Hashed?
      ensures result.None? <==> !fault && n <= |input.data|
      ensures result.None? ==> n <= |input.data| && buffer.backing == input.data[..n] && buffer.Ready()
    {
      fault := false;
      var offset := 0;
      while offset < n
        invariant 0 <= offset <= n && buffer.Valid() && !fault
        invariant offset <= |input.data| && input.pos == offset
        invariant buffer.backing[..offset] == input.data[..offset]
        invariant forall at: nat :: Written(buffer.ranges, at) <==> at < offset
      {
        var len := if n - offset < MAX_PUT_BODY then n - offset else MAX_PUT_BODY;
        var chunk;
        chunk, fault := input.ReadExact(len);
        if chunk.None? { return Some(InputFailed), fault; }
        var lost: bool, executed: bool := *, *;
        if lost {
          // Lost on the way there or on the way back, or refused.
          if executed { var _ := buffer.Put(offset, chunk.value); }
          var failure := Failure();
          return Some(failure), true;
        }
        ghost var before := buffer.backing;
        var stored := buffer.Put(offset, chunk.value);
        assert buffer.backing[..offset + len] == before[..offset] + chunk.value;
        offset := offset + len;
      }
      ReadyIffComplete(buffer.ranges, n);
      assert buffer.backing[..n] == buffer.backing;
      result := None;
    }

    /** The worker's provider: hashes its input chunk by chunk, unless the session is lost or
        its time runs out. */
    method WorkerDigest(bytes: Bytes) returns (digest: Option<Digest>, ghost fault: bool)
      requires hasher.Lawful()
      ensures digest.Some? <==> !fault
      ensures digest.Some? ==> digest.value == hasher.Hash(bytes)
    {
      var state := hasher.start;
      var at := 0;
      assert bytes[..0] == [];
      while at < |bytes|
        invariant 0 <= at <= |bytes| && state == hasher.update(hasher.start, bytes[..at])
      {
        var live: bool, inTime: bool := *, *;
        if !live || !inTime { return None, true; }
        var end := if at + HASH_CHUNK_BYTES < |bytes| then at + HASH_CHUNK_BYTES else |bytes|;
        state := hasher.update(state, bytes[at..end]);
        assert bytes[..at] + bytes[at..end] == bytes[..end];
        at := end;
      }
      assert bytes[..|bytes|] == bytes;
      var live: bool, inTime: bool := *, *;
      fault := !(live && inTime);
      digest := if live && inTime then Some(hasher.finish(state)) else None;
    }

    /** A compute reply. Whatever else it says, a digest in it is what the provider computed
        from the READY buffer. */
    method Compute(buffer: WorkerBuffer, admitted: Option<JobId>)
      returns (reply: Option<ComputeReply>, ghost fault: bool)
      requires buffer.Ready() && hasher.Lawful()
      ensures reply.Some? && reply.value.JobResult? && reply.value.digest.Some? ==>
                reply.value.digest.value == hasher.Hash(buffer.backing)
      ensures fault <==> !(reply.Some? && Promising(reply.value, admitted))
    {
      reply := *;
      if reply.Some? && reply.value.JobResult? && reply.value.digest.Some? {
        var digest, _ := WorkerDigest(buffer.backing);
        reply := Some(reply.value.(digest := digest));
      }
      fault := !(reply.Some? && Promising(reply.value, admitted));
    }

    /** Submit and poll until a result, a failure or the deadline after `polls` polls. */
    method RunJob(buffer: WorkerBuffer, scratch: ReservationId, polls: nat, ghost base: Entries)
      returns (result: Attempt, kept: Option<ReservationId>, ghost fault: bool)
      requires hasher.Lawful() && buffer.Ready() && FreshIn(base, ReservationTarget(scratch))
      requires ledger.entries == base + [Entry(ReservationTarget(scratch))]
      modifies ledger
      ensures base <= ledger.entries && (kept.None? ==> ledger.entries == base)
      ensures result.Hashed? ==> result.digest == hasher.Hash(buffer.backing) && kept.None?
      ensures kept.Some? ==> kept.value == scratch
      ensures (result.Hashed? <==> !fault) && !result.InputFailed?
    {
      var target := ReservationTarget(scratch);
      RemoveLast(base, Entry(target));
      MarkPast(base, [Entry(target)], target, lease);
      RetainAll(base, e => !Matches(e, target, lease));
      kept := Some(scratch);
      var reply;
      reply, fault := Compute(buffer, None);
      if reply.None? {
        ledger.MarkAmbiguous(target, lease);
        result := Failure();
        return;
      }
      var admitted: Option<JobId> := None;
      var left := polls;
      while true
        invariant reply.Some? && reply.value.JobResult? && reply.value.digest.Some? ==>
                    reply.value.digest.value == hasher.Hash(buffer.backing)
        invariant reply.Some? && (fault <==> !Promising(reply.value, admitted))
        invariant kept.None? || kept == Some(scratch)
        invariant ledger.entries == if kept.None? then base else base + [Entry(target)]
        decreases left
      {
        match reply.value
        case JobResult(echoed, job, completed, digest) =>
          if !echoed || (job.Some? && admitted.Some? && admitted.value != job.value) {
            return RemoteFailed(false, false), kept, fault;
          }
          if job.Some? {
            kept := None;
            ledger.Remove(target, lease);
          }
          if completed && job.Some? && digest.Some? { return Hashed(digest.value), kept, fault; }
          return RemoteFailed(false, false), kept, fault;
        case JobStatus(echoed, job) =>
          if !echoed || job.None? || (admitted.Some? && admitted.value != job.value) {
            return RemoteFailed(false, false), kept, fault;
          }
          admitted := job;
          kept := None;
          ledger.Remove(target, lease);
          if left == 0 { return RemoteFailed(true, true), kept, true; }
          left := left - 1;
          reply, fault := Compute(buffer, admitted);
          if reply.None? {
            result := Failure();
            return;
          }
        case JobCancel => return RemoteFailed(false, false), kept, fault;
      }
    }

    /** Settles one target: gone once its end is confirmed, else ambiguous. */
    method Settle(target: Target, confirmed: bool, ghost base: Entries)
      requires base <= ledger.entries && FreshIn(base, target)
      modifies ledger
      ensures base <= ledger.entries
      ensures ledger.entries == if confirmed then Removed(old(ledger.entries), target, lease)
                                else MarkedAmbiguous(old(ledger.entries), target, lease)
      ensures Handed(ledger.entries, target, lease) && (confirmed ==> Absent(ledger.entries, target, lease))
    {
      ghost var tail := ledger.entries[|base|..];
      assert ledger.entries == base + tail;
      RemovePast(base, tail, target, lease);
      MarkPast(base, tail, target, lease);
      RemovedAbsent(ledger.entries, target, lease);
      MarkedHanded(ledger.entries, target, lease);
      if confirmed { ledger.Remove(target, lease); } else { ledger.MarkAmbiguous(target, lease); }
    }

    /** Gives back one reservation; true once its end is confirmed and nothing names it. */
    method GiveBack(id: ReservationId, ghost base: Entries) returns (ok: bool, ghost fault: bool)
      requires base <= ledger.entries && FreshIn(base, ReservationTarget(id))
      modifies ledger
      ensures base <= ledger.entries
      ensures ledger.entries == if ok then Removed(old(ledger.entries), ReservationTarget(id), lease)
                                else MarkedAmbiguous(old(ledger.entries), ReservationTarget(id), lease)
      ensures Handed(ledger.entries, ReservationTarget(id), lease)
      ensures ok ==> Absent(ledger.entries, ReservationTarget(id), lease)
      ensures ok <==> !fault
    {
      var requestId := FreshRequestId();
      var release;
      release, fault := Resource(Release(lease, requestId, id), RemoteBufferBytes, 0);
      ok := release.Some? && ReleaseTerminal(release.value, lease, id);
      Settle(ReservationTarget(id), ok, base);
    }

    ghost predicate Returnable(res: Resources, base: Entries) {
      && (res.classOne.Some? ==> FreshIn(base, ReservationTarget(res.classOne.value)))
      && (res.buffer.Some? ==> FreshIn(base, BufferTarget(res.buffer.value)))
      && (res.scratch.Some? ==> FreshIn(base, ReservationTarget(res.scratch.value)))
    }

    /** All that is left to give back is one buffer, and the ledger says so. */
    ghost predicate OnlyBuffer(res: Resources, entries: Entries, base: Entries) {
      && res.classOne.None? && res.scratch.None? && res.buffer.Some?
      && entries == base + [Entry(BufferTarget(res.buffer.value))]
    }

    /** What the attempt still held. */
    function Targets(res: Resources): seq<Target> {
      (if res.buffer.Some? then [BufferTarget(res.buffer.value)] else [])
      + (if res.scratch.Some? then [ReservationTarget(res.scratch.value)] else [])
      + (if res.classOne.Some? then [ReservationTarget(res.classOne.value)] else [])
    }

    /** The cleanup at the end of every attempt. Whatever the attempt still held is gone from
        the ledger if the cleanup is clean, and gone or ambiguous in any case. */
    method CleanupRemote(res: Resources, ghost base: Entries) returns (ok: bool, ghost fault: bool)
      requires base <= ledger.entries && Returnable(res, base)
      modifies ledger
      ensures base <= ledger.entries
      ensures ok <==> !fault
      ensures ok && OnlyBuffer(res, old(ledger.entries), base) ==> ledger.entries == base
      ensures forall t | t in Targets(res) ::
                Handed(ledger.entries, t, lease) && (ok ==> Absent(ledger.entries, t, lease))
    {
      ok, fault := true, false;
      if res.buffer.Some? {
        var target := BufferTarget(res.buffer.value);
        RemoveLast(base, Entry(target));
        var freed: bool := *;
        ok, fault := freed, !freed;
        Settle(target, ok, base);
      }
      if res.scratch.Some? {
        ghost var before := ledger.entries;
        var done;
        ghost var lost;
        done, lost := GiveBack(res.scratch.value, base);
        OthersKept(before, ReservationTarget(res.scratch.value), Targets(res));
        ok, fault := ok && done, fault || lost;
      }
      if res.classOne.Some? {
        ghost var before := ledger.entries;
        var done;
        ghost var lost;
        done, lost := GiveBack(res.classOne.value, base);
        OthersKept(before, ReservationTarget(res.classOne.value), Targets(res));
        ok, fault := ok && done, fault || lost;
      }
    }

    lemma OthersKept(l: Entries, other: Target, targets: seq<Target>)
      ensures forall t | t in targets && Absent(l, t, lease) ::
                Absent(Removed(l, other, lease), t, lease) && Absent(MarkedAmbiguous(l, other, lease), t, lease)
      ensures forall t | t in targets && Handed(l, t, lease) ::
                Handed(Removed(l, other, lease), t, lease) && Handed(MarkedAmbiguous(l, other, lease), t, lease)
    {
      forall t | t in targets
        ensures Absent(l, t, lease) ==>
                  Absent(Removed(l, other, lease), t, lease) && Absent(MarkedAmbiguous(l, other, lease), t, lease)
        ensures Handed(l, t, lease) ==>
                  Handed(Removed(l, other, lease), t, lease) && Handed(MarkedAmbiguous(l, other, lease), t, lease)
      {
        RemovedKeeps(l, t, other, lease);
        MarkedKeeps(l, t, other, lease);
      }
    }

    /** Room for the two obligations an attempt may have at a time. */
    predicate Roomy(entries: Entries) { |entries| + 1 < MAX_CLEANUP_OBLIGATIONS }

    /** A buffer on the worker for a committed reservation; `None` if refused, lost or not new. */
    method Allocate() returns (placed: Option<BufferId>)
      ensures placed.Some? ==> FreshIn(ledger.entries, BufferTarget(placed.value))
    {
      placed := *;
      if placed.Some? && exists e | e in ledger.entries :: e.target == BufferTarget(placed.value) { placed := None; }
    }

    /** The attempt proper, up to its cleanup: a digest exactly if the ledger has room, the input
        is long enough and nothing goes wrong outside. */
    method Attempted(input: Reader, n: nat, polls: nat) returns (result: Attempt, res: Resources, ghost fault: bool)
      requires hasher.Lawful() && input.pos == 0 && n > 0 && input as object != ledger
      modifies input, ledger
      ensures old(ledger.entries) <= ledger.entries && Returnable(res, old(ledger.entries))
      ensures result.Hashed? ==>
                && n <= |input.data| && result.digest == hasher.Hash(input.data[..n])
                && OnlyBuffer(res, ledger.entries, old(ledger.entries))
      ensures result.Hashed? <==> !fault && n <= |input.data| && Roomy(old(ledger.entries))
      ensures result.InputFailed? ==> fault || n > |input.data|
      ensures !fault && !Roomy(old(ledger.entries)) && n <= |input.data| ==> result.RemoteFailed?
    {
      var base := ledger.entries;
      res := Resources(None, None, None);
      var classOne;
      classOne, fault := ReserveAndCommit(RemoteBufferBytes, n);
      if classOne.None? {
        result := Failure();
        return;
      }
      var target := ReservationTarget(classOne.value);
      res := res.(classOne := classOne);
      var placed := Allocate();
      if placed.None? {
        fault := true;
        var answered: bool := *;
        if answered { return RemoteFailed(false, false), res, fault; }
        MarkPast(base, [Entry(target)], target, lease);
        ledger.MarkAmbiguous(target, lease);
        result := Failure();
        return;
      }
      res := Resources(None, placed, None);
      var owned := BufferTarget(placed.value);
      ReplacePast(base, [Entry(target)], target, owned, lease, session);
      ledger.Replace(target, owned, lease, session);
      assert ledger.entries == base + [Entry(owned)];
      result, res, fault := UploadAndRun(input, n, polls, placed.value, base);
    }

    /** From the new buffer on. */
    method UploadAndRun(input: Reader, n: nat, polls: nat, placed: BufferId, ghost base: Entries)
      returns (result: Attempt, res: Resources, ghost fault: bool)
      requires hasher.Lawful() && input.pos == 0 && n > 0 && input as object != ledger
      requires ledger.entries == base + [Entry(BufferTarget(placed))] && FreshIn(base, BufferTarget(placed))
      modifies input, ledger
      ensures base <= ledger.entries && Returnable(res, base)
      ensures result.Hashed? ==>
                && n <= |input.data| && result.digest == hasher.Hash(input.data[..n])
                && OnlyBuffer(res, ledger.entries, base)
      ensures result.Hashed? <==> !fault && n <= |input.data| && Roomy(base)
      ensures result.InputFailed? ==> fault || n > |input.data|
      ensures !fault && n <= |input.data| && !Roomy(base) ==> result.RemoteFailed?
    {
      ghost var withBuffer := ledger.entries;
      res := Resources(None, Some(placed), None);
      var buffer := new WorkerBuffer(n);
      var failed;
      failed, fault := Upload(input, n, buffer);
      if failed.Some? { return failed.value, res, fault; }
      var confirmed: bool := *;
      if !confirmed {
        fault := true;
        result := Failure();
        return;
      }
      var scratch;
      scratch, fault := ReserveAndCommit(NativeOpScratchBytes, SCRATCH_BYTES);
      assert base <= ledger.entries;
      if scratch.None? {
        result := Failure();
        return;
      }
      var kept;
      result, kept, fault := RunJob(buffer, scratch.value, polls, withBuffer);
      res := res.(scratch := kept);
      assert base <= ledger.entries;
    }

    /** A digest from the worker is the hash of the whole input, and the ledger is exactly
        what it was; whatever happens, no older obligation is touched. There is a digest exactly
        if the ledger has room, the input is long enough and nothing goes wrong outside. */
    method ExecuteRemote(input: Reader, n: nat, polls: nat) returns (result: Attempt, ghost fault: bool)
      requires hasher.Lawful() && input.pos == 0 && n > 0 && input as object != ledger
      modifies input, ledger
      ensures old(ledger.entries) <= ledger.entries
      ensures result.Hashed? ==> n <= |input.data| && result.digest == hasher.Hash(input.data[..n])
      ensures result.Hashed? ==> ledger.entries == old(ledger.entries)
      ensures result.Hashed? <==> !fault && n <= |input.data| && Roomy(old(ledger.entries))
      ensures result.InputFailed? ==> fault || n > |input.data|
    {
      ghost var base := ledger.entries;
      var res;
      result, res, fault := Attempted(input, n, polls);
      var clean;
      ghost var lost;
      clean, lost := CleanupRemote(res, base);
      fault := fault || lost;
      if !result.InputFailed? && !clean { result := RemoteFailed(true, true); }
    }

    /** The local digest: from offset 0, in chunks, whatever was read before; there is one exactly
        if the input is long enough and its device works. */
    method LocalDigest(input: Reader, n: nat) returns (digest: Option<Digest>, ghost fault: bool)
      requires hasher.Lawful()
      modifies input
      ensures digest.Some? <==> !fault && n <= |input.data|
      ensures digest.Some? ==> digest.value == hasher.Hash(input.data[..n])
    {
      var ok := input.SeekStart();
      fault := !ok;
      if !ok { return None, fault; }
      var state := hasher.start;
      var remaining := n;
      while remaining > 0
        invariant 0 <= remaining <= n && n - remaining <= |input.data| && !fault
        invariant input.pos == n - remaining
        invariant state == hasher.update(hasher.start, input.data[..n - remaining])
      {
        var len := if remaining < LOCAL_DIGEST_CHUNK_BYTES then remaining else LOCAL_DIGEST_CHUNK_BYTES;
        ghost var done := n - remaining;
        var chunk;
        chunk, fault := input.ReadExact(len);
        if chunk.None? { return None, fault; }
        state := hasher.update(state, chunk.value);
        assert input.data[..done] + chunk.value == input.data[..done + len];
        remaining := remaining - len;
      }
      digest := Some(hasher.finish(state));
    }

    /** The whole operation: remote if available and worthwhile, else local. Any execution
        returned carries the hash of the whole input and says how it came about; a remote success
        leaves no debt. Without a fault outside there is one for every input, and from the worker
        whenever it is tried and the ledger has room. */
    method Execute(available: bool, worthwhile: bool, input: Reader, n: nat, polls: nat)
      returns (execution: Option<Execution>, attempt: Option<Attempt>, ghost fault: bool)
      requires hasher.Lawful() && input as object != ledger
      modifies input, ledger
      ensures old(ledger.entries) <= ledger.entries
      ensures execution.Some? ==> n <= |input.data| && execution.value.digest == hasher.Hash(input.data[..n])
      ensures execution.Some? && execution.value.source == RemoteSuccess ==> ledger.entries == old(ledger.entries)
      ensures attempt.Some? ==> available && worthwhile && 0 < n <= 128 * 1024 * 1024
      ensures !fault ==> (attempt.Some? <==> available && worthwhile && 0 < n <= 128 * 1024 * 1024)
      ensures execution.Some? ==>
                && (execution.value.source == RemoteSuccess <==> attempt.Some? && attempt.value.Hashed?)
                && (execution.value.source == LocalAfterAmbiguous <==>
                      attempt.Some? && attempt.value.RemoteFailed? && attempt.value.ambiguous)
      ensures !fault && n <= |input.data| ==> execution.Some?
      ensures !fault && n <= |input.data| && attempt.Some? && Roomy(old(ledger.entries)) ==>
                execution.value.source == RemoteSuccess
    {
      var source := LocalAfterUnavailable;
      ghost var troubled := false;
      attempt := None;
      if available && 0 < n <= MAX_COMPUTE_INPUT_BYTES && worthwhile {
        var ok := input.SeekStart();
        if !ok { return None, None, true; }
        var tried;
        tried, troubled := ExecuteRemote(input, n, polls);
        attempt := Some(tried);
        match tried
        case Hashed(digest) => return Some(Execution(digest, RemoteSuccess)), attempt, troubled;
        case InputFailed => return None, attempt, troubled;
        case RemoteFailed(ambiguous, _) => source := if ambiguous then LocalAfterAmbiguous else LocalAfterUnavailable;
      }
      var digest;
      digest, fault := LocalDigest(input, n);
      fault := fault || troubled;
      execution := if digest.Some? then Some(Execution(digest.value, source)) else None;
    }
  }
}
