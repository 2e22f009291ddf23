/** The bounded ledger of what the host may still owe on the worker. The functions say
    what each locked edit does to the vector of entries; `CleanupLedger` performs the
    edits in place. */
module Ledger {
  import opened Basics
  import opened Wire

  const MAX_CLEANUP_OBLIGATIONS: nat := 64

  datatype Target =
    | ReservationTarget(reservation: ReservationId)
    | BufferTarget(buffer: BufferId)
    | UnresolvedReserve(request: RequestId, class_: ResourceClass, bytes: nat)

  datatype Knowledge = Known | Ambiguous | AwaitingPurgeProof

  /** `origin` is the serial of the session that recorded the entry. */
  datatype Obligation =
    Obligation(lease: Lease, origin: nat, target: Target, knowledge: Knowledge)

  type Entries = seq<Obligation>

  predicate Matches(e: Obligation, target: Target, lease: Lease) {
    e.target == target && e.lease == lease
  }

  function Each(l: Entries, f: Obligation -> Obligation): Entries {
    seq(|l|, i requires 0 <= i < |l| => f(l[i]))
  }

  /** Position of the first entry for the target, or the length. */
  function Find(l: Entries, target: Target, lease: Lease): (i: nat)
    ensures i <= |l|
    ensures i < |l| ==> Matches(l[i], target, lease)
    ensures forall j | 0 <= j < i :: !Matches(l[j], target, lease)
  {
    if l == [] then 0
    else if Matches(l[0], target, lease) then 0
    else 1 + Find(l[1..], target, lease)
  }

  function Tracked(l: Entries, o: Obligation): Entries {
    if o in l || |l| >= MAX_CLEANUP_OBLIGATIONS then l else l + [o]
  }

  function Removed(l: Entries, target: Target, lease: Lease): Entries {
    Retain(l, e => !Matches(e, target, lease))
  }

  function Resolved(e: Obligation, to: Target, origin: nat): Obligation {
    e.(target := to, origin := origin, knowledge := Known)
  }

  function Replaced(l: Entries, from: Target, to: Target, lease: Lease, origin: nat): Entries {
    var i := Find(l, from, lease);
    if i < |l| then l[i := Resolved(l[i], to, origin)] else l
  }

  function MarkedAmbiguous(l: Entries, target: Target, lease: Lease): Entries {
    var i := Find(l, target, lease);
    if i < |l| then l[i := l[i].(knowledge := Ambiguous)] else l
  }

  /** Buffers die with their session, everything else with its incarnation. */
  predicate SurvivesReconnect(e: Obligation, lease: Lease) {
    !e.target.BufferTarget? && e.lease.incarnation == lease.incarnation
  }

  function Reclassified(e: Obligation, lease: Lease): Obligation {
    if e.lease.id == lease.id then
      (if e.knowledge == AwaitingPurgeProof then e.(knowledge := Ambiguous) else e)
    else e.(knowledge := AwaitingPurgeProof)
  }

  function Reconnected(l: Entries, lease: Lease): Entries {
    Each(Retain(l, e => SurvivesReconnect(e, lease)), e => Reclassified(e, lease))
  }

  /** The obligations a reconciliation under `lease` works through. */
  predicate Due(e: Obligation, lease: Lease) {
    e.lease.id == lease.id && e.knowledge != AwaitingPurgeProof
  }

  predicate PurgeSettles(e: Obligation, lease: Lease) {
    && e.lease.incarnation == lease.incarnation
    && e.knowledge == AwaitingPurgeProof
    && e.lease.id != lease.id
  }

  function Purged(l: Entries, lease: Lease): Entries {
    Retain(l, e => !PurgeSettles(e, lease))
  }

  // ----- Membership ---------------------------------------------------------------------

  lemma EachMembers(l: Entries, f: Obligation -> Obligation)
    ensures forall e | e in l :: f(e) in Each(l, f)
    ensures forall d | d in Each(l, f) :: exists e :: e in l && d == f(e)
  {
    forall e | e in l ensures f(e) in Each(l, f) {
      var i :| 0 <= i < |l| && l[i] == e;
      assert Each(l, f)[i] == f(e);
    }
  }

  /** A replacement keeps every other entry. */
  lemma ReplacedMembers(l: Entries, from: Target, to: Target, lease: Lease, origin: nat)
    ensures |Replaced(l, from, to, lease, origin)| == |l|
    ensures forall e | e in l ::
      || e in Replaced(l, from, to, lease, origin)
      || (Matches(e, from, lease) && Resolved(e, to, origin) in Replaced(l, from, to, lease, origin))
    ensures forall d | d in Replaced(l, from, to, lease, origin) ::
      d in l || exists e :: e in l && Matches(e, from, lease) && d == Resolved(e, to, origin)
  {
    var l' := Replaced(l, from, to, lease, origin);
    var i := Find(l, from, lease);
    forall e | e in l
      ensures e in l' || (Matches(e, from, lease) && Resolved(e, to, origin) in l')
    {
      var j :| 0 <= j < |l| && l[j] == e;
      if j == i { assert l'[i] == Resolved(e, to, origin); } else { assert l'[j] == e; }
    }
  }

  lemma MarkedMembers(l: Entries, target: Target, lease: Lease)
    ensures |MarkedAmbiguous(l, target, lease)| == |l|
    ensures forall e | e in l ::
      || e in MarkedAmbiguous(l, target, lease)
      || e.(knowledge := Ambiguous) in MarkedAmbiguous(l, target, lease)
    ensures forall d | d in MarkedAmbiguous(l, target, lease) ::
      d in l || exists e :: e in l && d == e.(knowledge := Ambiguous)
  {
    var l' := MarkedAmbiguous(l, target, lease);
    var i := Find(l, target, lease);
    forall e | e in l ensures e in l' || e.(knowledge := Ambiguous) in l' {
      var j :| 0 <= j < |l| && l[j] == e;
      if j == i { assert l'[i] == e.(knowledge := Ambiguous); } else { assert l'[j] == e; }
    }
  }

  // ----- A reconnect, and the purge proof after it ----------------------------------------

  /** After a reconnect no buffer and nothing of another incarnation is left; what is left is of
      the lease and not waiting, or of another lease and waiting for the purge proof. */
  predicate Classified(e: Obligation, lease: Lease) {
    && !e.target.BufferTarget? && e.lease.incarnation == lease.incarnation
    && (e.knowledge == AwaitingPurgeProof <==> e.lease.id != lease.id)
  }

  /** The same debt, recorded by the same session. */
  predicate SameEntry(d: Obligation, e: Obligation) {
    d.lease == e.lease && d.target == e.target && d.origin == e.origin
  }

  /** A reconnect classifies the entries of the incarnation, other than buffers, and keeps each, with
      what is known of an entry of the lease, unless that was only awaited. */
  lemma ReconnectedExactly(l: Entries, lease: Lease)
    ensures forall d | d in Reconnected(l, lease) ::
              Classified(d, lease) && exists e :: e in l && SameEntry(d, e)
    ensures forall e | e in l && !e.target.BufferTarget? && e.lease.incarnation == lease.incarnation ::
              exists d :: d in Reconnected(l, lease) && SameEntry(d, e)
                          && (e.lease.id == lease.id && e.knowledge != AwaitingPurgeProof ==> d == e)
  {
    var keep := (e: Obligation) => SurvivesReconnect(e, lease);
    var mark := (e: Obligation) => Reclassified(e, lease);
    var kept, l' := Retain(l, keep), Reconnected(l, lease);
    RetainMembers(l, keep);
    EachMembers(kept, mark);
    assert l' == Each(kept, mark);
    forall d | d in l'
      ensures Classified(d, lease) && exists e :: e in l && SameEntry(d, e)
    {
      var e :| e in kept && d == mark(e);
    }
    forall e | e in l && !e.target.BufferTarget? && e.lease.incarnation == lease.incarnation
      ensures exists d :: d in l' && SameEntry(d, e)
                          && (e.lease.id == lease.id && e.knowledge != AwaitingPurgeProof ==> d == e)
    {
      assert e in kept && mark(e) in l';
    }
  }

  /** The proof settles exactly what awaited it in the lease's incarnation. */
  lemma PurgedExactly(l: Entries, lease: Lease)
    ensures forall e :: e in Purged(l, lease) <==>
              e in l && !(&& e.knowledge == AwaitingPurgeProof && e.lease.id != lease.id
                          && e.lease.incarnation == lease.incarnation)
  {
    RetainMembers(l, e => !PurgeSettles(e, lease));
  }

  /** So a reconnect and a purge proof leave the debt of the lease, all of it, and no other. */
  lemma SupersededDebtEnds(l: Entries, lease: Lease)
    ensures forall e | e in Purged(Reconnected(l, lease), lease) :: e.lease.id == lease.id
    ensures forall e | e in Reconnected(l, lease) && e.lease.id == lease.id :: e in Purged(Reconnected(l, lease), lease)
  {
    ReconnectedExactly(l, lease);
    PurgedExactly(Reconnected(l, lease), lease);
  }

  /** A replacement makes the first entry for the target a known one for the new target. */
  lemma ReplacedFirst(l: Entries, from: Target, to: Target, lease: Lease, origin: nat)
    ensures var i := Find(l, from, lease);
            var l' := Replaced(l, from, to, lease, origin);
            && |l'| == |l| && (forall j | 0 <= j < |l| && j != i :: l'[j] == l[j])
            && (i < |l| ==> l'[i] == Obligation(lease, origin, to, Known))
  {
  }

  // ----- What became of a target ----------------------------------------------------------

  /** The first entry for the target. */
  function FirstFor(l: Entries, target: Target, lease: Lease): Option<Obligation> {
    if l == [] then None
    else if Matches(l[0], target, lease) then Some(l[0])
    else FirstFor(l[1..], target, lease)
  }

  predicate Absent(l: Entries, target: Target, lease: Lease) { FirstFor(l, target, lease).None? }

  /** Nothing names the target any more, or what does is marked ambiguous. */
  predicate Handed(l: Entries, target: Target, lease: Lease) {
    Absent(l, target, lease) || FirstFor(l, target, lease).value.knowledge == Ambiguous
  }

  lemma {:induction false} FirstIsFound(l: Entries, target: Target, lease: Lease)
    ensures var i := Find(l, target, lease);
            FirstFor(l, target, lease) == if i < |l| then Some(l[i]) else None
  {
    if l != [] { FirstIsFound(l[1..], target, lease); }
  }

  lemma RemovedAbsent(l: Entries, target: Target, lease: Lease)
    ensures Absent(Removed(l, target, lease), target, lease)
  {
    RetainMembers(l, e => !Matches(e, target, lease));
    FirstIsFound(Removed(l, target, lease), target, lease);
    assert forall e | e in Removed(l, target, lease) :: !Matches(e, target, lease);
  }

  /** Removing one target leaves the first entry for another as it was. */
  lemma {:induction false} RemovedFirst(l: Entries, target: Target, other: Target, lease: Lease)
    requires target != other
    ensures FirstFor(Removed(l, other, lease), target, lease) == FirstFor(l, target, lease)
  {
    if l != [] {
      var rest := Removed(l[1..], other, lease);
      RemovedFirst(l[1..], target, other, lease);
      if Matches(l[0], other, lease) {
        assert Removed(l, other, lease) == rest;
      } else {
        assert Removed(l, other, lease) == [l[0]] + rest && ([l[0]] + rest)[1..] == rest;
      }
    }
  }

  lemma RemovedKeeps(l: Entries, target: Target, other: Target, lease: Lease)
    ensures Absent(l, target, lease) ==> Absent(Removed(l, other, lease), target, lease)
    ensures Handed(l, target, lease) ==> Handed(Removed(l, other, lease), target, lease)
  {
    if target == other { RemovedAbsent(l, other, lease); } else { RemovedFirst(l, target, other, lease); }
  }

  /** Marking changes no target: the first entry for one is the same or now ambiguous. */
  lemma MarkedFirst(l: Entries, target: Target, other: Target, lease: Lease)
    ensures var f, f' := FirstFor(l, target, lease), FirstFor(MarkedAmbiguous(l, other, lease), target, lease);
            && (f.None? <==> f'.None?)
            && (f.Some? ==> f'.value == f.value || f'.value == f.value.(knowledge := Ambiguous))
            && (f.Some? && target == other ==> f'.value.knowledge == Ambiguous)
  {
    var l' := MarkedAmbiguous(l, other, lease);
    FirstIsFound(l, target, lease);
    FirstIsFound(l', target, lease);
    assert forall j | 0 <= j < |l| :: Matches(l'[j], target, lease) == Matches(l[j], target, lease);
    assert Find(l', target, lease) == Find(l, target, lease);
  }

  lemma MarkedHanded(l: Entries, target: Target, lease: Lease)
    ensures Handed(MarkedAmbiguous(l, target, lease), target, lease)
  {
    MarkedFirst(l, target, target, lease);
  }

  lemma MarkedKeeps(l: Entries, target: Target, other: Target, lease: Lease)
    ensures Absent(l, target, lease) ==> Absent(MarkedAmbiguous(l, other, lease), target, lease)
    ensures Handed(l, target, lease) ==> Handed(MarkedAmbiguous(l, other, lease), target, lease)
  {
    MarkedFirst(l, target, other, lease);
  }

  // ----- The ledger itself --------------------------------------------------------------

  class CleanupLedger {
    var entries: Entries

    constructor ()
      ensures entries == []
    {
      entries := [];
    }

    method Track(o: Obligation) returns (ok: bool)
      modifies this
      ensures entries == Tracked(old(entries), o)
      ensures ok <==> o in entries
      ensures |old(entries)| <= MAX_CLEANUP_OBLIGATIONS ==> |entries| <= MAX_CLEANUP_OBLIGATIONS
    {
      if o in entries { return true; }
      if |entries| >= MAX_CLEANUP_OBLIGATIONS { return false; }
      entries := entries + [o];
      ok := true;
    }

    /** `Vec::retain`: one pass that keeps the order. */
    method RetainOnly(keep: Obligation -> bool)
      modifies this
      ensures entries == Retain(old(entries), keep)
    {
      var kept: Entries := [];
      for i := 0 to |entries|
        invariant entries == old(entries)
        invariant kept == Retain(entries[..i], keep)
      {
        RetainAppend(entries[..i], entries[i], keep);
        assert entries[..i + 1] == entries[..i] + [entries[i]];
        if keep(entries[i]) { kept := kept + [entries[i]]; }
      }
      assert entries[..|entries|] == entries;
      entries := kept;
    }

    method Remove(target: Target, lease: Lease)
      modifies this
      ensures entries == Removed(old(entries), target, lease)
    {
      RetainOnly(e => !Matches(e, target, lease));
    }

    method First(target: Target, lease: Lease) returns (i: nat)
      ensures i == Find(entries, target, lease)
    {
      i := 0;
      while i < |entries| && !Matches(entries[i], target, lease)
        invariant 0 <= i <= |entries|
        invariant forall j | 0 <= j < i :: !Matches(entries[j], target, lease)
      {
        i := i + 1;
      }
    }

    method Replace(from: Target, to: Target, lease: Lease, origin: nat)
      modifies this
      ensures entries == Replaced(old(entries), from, to, lease, origin)
    {
      var i := First(from, lease);
      if i < |entries| { entries := entries[i := Resolved(entries[i], to, origin)]; }
    }

    method MarkAmbiguous(target: Target, lease: Lease)
      modifies this
      ensures entries == MarkedAmbiguous(old(entries), target, lease)
    {
      var i := First(target, lease);
      if i < |entries| { entries := entries[i := entries[i].(knowledge := Ambiguous)]; }
    }

    /** The locked first part of a reconciliation; `due` is what it will work through. */
    method Reconnect(lease: Lease) returns (due: Entries)
      modifies this
      ensures entries == Reconnected(old(entries), lease)
      ensures due == Retain(entries, e => Due(e, lease))
      ensures forall e | e in entries :: Classified(e, lease) && (e in due <==> e.lease.id == lease.id)
    {
      RetainOnly(e => SurvivesReconnect(e, lease));
      var marked: Entries := [];
      for i := 0 to |entries|
        invariant entries == Retain(old(entries), e => SurvivesReconnect(e, lease))
        invariant |marked| == i
        invariant forall j | 0 <= j < i :: marked[j] == Reclassified(entries[j], lease)
      {
        marked := marked + [Reclassified(entries[i], lease)];
      }
      assert marked == Each(entries, e => Reclassified(e, lease));
      entries := marked;
      due := Retain(entries, e => Due(e, lease));
      ReconnectedExactly(old(entries), lease);
      RetainMembers(entries, e => Due(e, lease));
    }

    method ResolveSuperseded(lease: Lease)
      modifies this
      ensures entries == Purged(old(entries), lease)
      ensures (forall e | e in old(entries) :: Classified(e, lease)) ==>
                forall e | e in entries :: e.lease.id == lease.id
    {
      PurgedExactly(entries, lease);
      RetainOnly(e => !PurgeSettles(e, lease));
    }
  }
}
