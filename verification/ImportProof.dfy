/** What every locked section and file operation of the import store keeps. */
module ImportProof {
  import opened Basics
  import opened Imports

  // ----- The invariant ---------------------------------------------------------------------

  /** A file belongs to a live entry of its phase, and was paid for. */
  ghost predicate FileOk(s: Store, n: Name) {
    n in s.files ==>
      && n.handle in s.live
      && n == PathOf(n.handle, s.live[n.handle].phase)
      && |s.files[n]| <= s.live[n.handle].bytes
  }

  /** A file holds what was received, and the entry's size says so. */
  ghost predicate Complete(s: Store, h: Handle, n: Name)
    requires h in s.live && h in s.received
  {
    n in s.files && s.files[n] == s.received[h] && s.live[h].bytes == |s.received[h]|
  }

  ghost predicate EntryOk(s: Store, h: Handle)
    requires h in s.live
  {
    && h < s.issued && h in s.received && h !in s.ended
    && (s.live[h].phase.Ready? ==>
          && !s.live[h].workerRunning
          && (ReadyName(h) in s.files ==> Complete(s, h, ReadyName(h))))
  }

  /** What a receiver's file and charge look like at each stage. */
  ghost predicate StageOk(s: Store, h: Handle, stage: Stage)
    requires h in s.live && h in s.received
  {
    var n := ReceivingName(h);
    match stage
    case Opening => n !in s.files && s.received[h] == [] && s.live[h].bytes == 0
    case Spawning => Complete(s, h, n)
    case Copying => Complete(s, h, n)
    case Finishing => Complete(s, h, n)
    case Charging(c) => n in s.files && s.received[h] == s.files[n] + c && s.live[h].bytes == |s.files[n]|
    case Writing(c) => n in s.files && s.received[h] == s.files[n] + c && s.live[h].bytes == |s.received[h]|
    case Cancelling => true
    case Failing(_) => true
    case Abandoned(_) => true
  }

  /** While a receiver is at work nobody else ends its entry. */
  ghost predicate ReceiverOk(s: Store, h: Handle, rc: Receiver) {
    && h < s.issued && h in s.received
    && (h in s.live || rc.stage.Abandoned?)
    && (h in s.live ==> s.live[h].requester == rc.requester && s.live[h].phase.Receiving?)
    && (h in s.live && !rc.stage.Abandoned? ==> s.live[h].workerRunning && StageOk(s, h, rc.stage))
  }

  ghost predicate HandleOk(s: Store, h: Handle) {
    && FileOk(s, ReceivingName(h)) && FileOk(s, ReadyName(h))
    && (h in s.live ==> EntryOk(s, h))
    && (h in s.receivers ==> ReceiverOk(s, h, s.receivers[h]))
    && (h in s.ended ==> h < s.issued)
  }

  ghost predicate QuotaOk(live: Live, n: Handle) {
    && (forall r :: |OwnedBy(live, r)| <= MAXIMUM_IMPORTS_PER_REQUESTER)
    && (forall u :: |OwnedByUid(live, u)| <= MAXIMUM_IMPORTS_PER_UID)
    && (forall r :: |ReceivingFor(live, r)| <= MAXIMUM_RECEIVING_PER_REQUESTER)
    && (forall u :: |ReceivingForUid(live, u)| <= MAXIMUM_RECEIVING_PER_UID)
    && (forall u :: Charged(live, u, n) <= MAXIMUM_AGGREGATE_BYTES_PER_UID)
    && (forall h | h in live :: live[h].bytes <= MAXIMUM_IMPORT_BYTES)
  }

  /** Tombstones, one at most per handle, tell how their handles ended. */
  ghost predicate TombsOk(l: seq<Tombstone>, ended: map<Handle, Outcome>) {
    && (forall t | t in l :: t.handle in ended && ended[t.handle] == t.outcome)
    && DistinctHandles(l)
    && (forall u :: |OfUid(l, u)| <= MAXIMUM_TOMBSTONES_PER_UID)
  }

  ghost predicate Inv(s: Store) {
    && (forall h :: HandleOk(s, h))
    && QuotaOk(s.live, s.issued)
    && TombsOk(s.tombstones, s.ended)
  }

  // ----- Tombstones ----------------------------------------------------------------------

  ghost predicate DistinctHandles(l: seq<Tombstone>) {
    forall i, j | 0 <= i < j < |l| :: l[i].handle != l[j].handle
  }

  lemma DistinctRest(l: seq<Tombstone>, rest: seq<Tombstone>)
    requires l != [] && DistinctHandles(l) && (DistinctHandles(l[1..]) ==> DistinctHandles(rest))
    requires forall t | t in rest :: t in l[1..]
    ensures DistinctHandles(rest) && DistinctHandles([l[0]] + rest)
  {
    assert DistinctHandles(l[1..]);
    forall j | 0 <= j < |rest| ensures l[0].handle != rest[j].handle { assert rest[j] in l[1..]; }
  }

  lemma {:induction false} RetainDistinct(l: seq<Tombstone>, keep: Tombstone -> bool)
    requires DistinctHandles(l)
    ensures DistinctHandles(Retain(l, keep))
  {
    if l != [] {
      RetainDistinct(l[1..], keep);
      RetainMembers(l[1..], keep);
      DistinctRest(l, Retain(l[1..], keep));
      assert [] + Retain(l[1..], keep) == Retain(l[1..], keep);
    }
  }

  lemma {:induction false} RetainTwice(l: seq<Tombstone>, keep: Tombstone -> bool, u: Uid)
    ensures |OfUid(Retain(l, keep), u)| <= |OfUid(l, u)|
  {
    if l != [] {
      RetainTwice(l[1..], keep, u);
      var rest := Retain(l[1..], keep);
      assert ([l[0]] + rest)[1..] == rest;
      assert [] + rest == rest;
    }
  }

  /** Dropping a UID's oldest tombstone leaves the others, in order. */
  lemma {:induction false} WithoutOldestOf(l: seq<Tombstone>, uid: Uid, u: Uid)
    requires |OfUid(l, uid)| > 0
    ensures OfUid(WithoutOldest(l, uid), u) == if u == uid then OfUid(l, u)[1..] else OfUid(l, u)
  {
    if l != [] && l[0].requester.uid != uid {
      WithoutOldestOf(l[1..], uid, u);
      var rest := WithoutOldest(l[1..], uid);
      assert ([l[0]] + rest)[1..] == rest;
    }
  }

  lemma {:induction false} WithoutOldestMembers(l: seq<Tombstone>, uid: Uid)
    ensures forall t | t in WithoutOldest(l, uid) :: t in l
    ensures DistinctHandles(l) ==> DistinctHandles(WithoutOldest(l, uid))
  {
    if l != [] && l[0].requester.uid != uid {
      WithoutOldestMembers(l[1..], uid);
      if DistinctHandles(l) { DistinctRest(l, WithoutOldest(l[1..], uid)); }
    }
  }

  function Last(l: seq<Tombstone>, n: nat): seq<Tombstone> { if |l| <= n then l else l[|l| - n..] }

  /** Eviction keeps exactly the UID's newest 256 tombstones, and all of everybody else's. */
  lemma {:induction false} EvictedOf(l: seq<Tombstone>, uid: Uid, u: Uid)
    ensures OfUid(Evicted(l, uid), u) == if u == uid then Last(OfUid(l, u), MAXIMUM_TOMBSTONES_PER_UID) else OfUid(l, u)
    decreases |l|
  {
    if |OfUid(l, uid)| > MAXIMUM_TOMBSTONES_PER_UID {
      EvictedOf(WithoutOldest(l, uid), uid, u);
      WithoutOldestOf(l, uid, u);
    }
  }

  lemma {:induction false} EvictedMembers(l: seq<Tombstone>, uid: Uid)
    ensures forall t | t in Evicted(l, uid) :: t in l
    ensures DistinctHandles(l) ==> DistinctHandles(Evicted(l, uid))
    decreases |l|
  {
    if |OfUid(l, uid)| > MAXIMUM_TOMBSTONES_PER_UID {
      EvictedMembers(WithoutOldest(l, uid), uid);
      WithoutOldestMembers(l, uid);
    }
  }

  lemma EvictedBound(l: seq<Tombstone>, t: Tombstone, u: Uid)
    requires |OfUid(l, u)| <= MAXIMUM_TOMBSTONES_PER_UID
    ensures |OfUid(Evicted(l + [t], t.requester.uid), u)| <= MAXIMUM_TOMBSTONES_PER_UID
  {
    EvictedOf(l + [t], t.requester.uid, u);
    RetainAppend(l, t, Of(u));
    assert Of(u)(t) <==> u == t.requester.uid;
  }

  lemma PruneOk(l: seq<Tombstone>, ended: map<Handle, Outcome>, now: nat)
    requires TombsOk(l, ended)
    ensures TombsOk(Pruned(l, now), ended)
  {
    RetainMembers(l, Young(now));
    RetainDistinct(l, Young(now));
    forall u ensures |OfUid(Pruned(l, now), u)| <= MAXIMUM_TOMBSTONES_PER_UID {
      RetainTwice(l, Young(now), u);
    }
  }

  lemma BuryOk(l: seq<Tombstone>, ended: map<Handle, Outcome>, t: Tombstone)
    requires TombsOk(l, ended) && t.handle !in ended
    ensures TombsOk(Buried(l, t), ended[t.handle := t.outcome])
  {
    PruneOk(l, ended, t.created);
    var young := Pruned(l, t.created);
    assert DistinctHandles(young + [t]);
    EvictedMembers(young + [t], t.requester.uid);
    forall u ensures |OfUid(Buried(l, t), u)| <= MAXIMUM_TOMBSTONES_PER_UID {
      EvictedBound(young, t, u);
    }
  }

  // ----- Quotas --------------------------------------------------------------------------

  lemma SubsetCount<T>(a: set<T>, b: set<T>)
    requires a <= b
    ensures |a| <= |b|
  {
    assert b == a + (b - a);
  }

  lemma {:induction false} ChargedShrinks(live: Live, live': Live, u: Uid, n: Handle)
    requires forall h | h in live' ::
          h in live && live'[h].requester == live[h].requester && live'[h].bytes <= live[h].bytes
    ensures Charged(live', u, n) <= Charged(live, u, n)
  {
    if n > 0 { ChargedShrinks(live, live', u, n - 1); }
  }

  lemma {:induction false} ChargedUpdate(live: Live, h: Handle, e: Import, u: Uid, n: Handle)
    requires h in live && e.requester == live[h].requester
    ensures Charged(live[h := e], u, n)
         == Charged(live, u, n) + if h < n && e.requester.uid == u then e.bytes - live[h].bytes else 0
  {
    if n > 0 { ChargedUpdate(live, h, e, u, n - 1); }
  }

  lemma {:induction false} ChargedBelow(live: Live, h: Handle, e: Import, u: Uid, n: Handle)
    requires n <= h
    ensures Charged(live[h := e], u, n) == Charged(live, u, n)
  {
    if n > 0 { ChargedBelow(live, h, e, u, n - 1); }
  }

  /** Nothing appears, changes hands, starts receiving again or grows. */
  ghost predicate Shrinks(live: Live, live': Live) {
    forall h | h in live' ::
      && h in live
      && live'[h].requester == live[h].requester
      && live'[h].bytes <= live[h].bytes
      && (live'[h].phase.Receiving? ==> live[h].phase.Receiving?)
  }

  lemma QuotaShrinks(live: Live, live': Live, n: Handle)
    requires QuotaOk(live, n) && Shrinks(live, live')
    ensures QuotaOk(live', n)
  {
    forall r ensures |OwnedBy(live', r)| <= MAXIMUM_IMPORTS_PER_REQUESTER {
      SubsetCount(OwnedBy(live', r), OwnedBy(live, r));
    }
    forall r ensures |ReceivingFor(live', r)| <= MAXIMUM_RECEIVING_PER_REQUESTER {
      SubsetCount(ReceivingFor(live', r), ReceivingFor(live, r));
    }
    forall u ensures |OwnedByUid(live', u)| <= MAXIMUM_IMPORTS_PER_UID {
      SubsetCount(OwnedByUid(live', u), OwnedByUid(live, u));
    }
    forall u ensures |ReceivingForUid(live', u)| <= MAXIMUM_RECEIVING_PER_UID {
      SubsetCount(ReceivingForUid(live', u), ReceivingForUid(live, u));
    }
    forall u ensures Charged(live', u, n) <= MAXIMUM_AGGREGATE_BYTES_PER_UID { ChargedShrinks(live, live', u, n); }
  }

  lemma AddCount<T>(a: set<T>, b: set<T>, x: T)
    requires b <= a + {x}
    ensures |b| <= |a| + 1
  {
    SubsetCount(b, a + {x});
  }

  lemma QuotaAdmits(live: Live, r: Requester, n: Handle)
    requires QuotaOk(live, n) && Admission(live, r).None?
    ensures QuotaOk(live[n := Import(r, 0, Receiving, false, true, None)], n + 1)
  {
    var live' := live[n := Import(r, 0, Receiving, false, true, None)];
    forall q ensures |OwnedBy(live', q)| <= MAXIMUM_IMPORTS_PER_REQUESTER {
      if q == r {
        AddCount(OwnedBy(live, q), OwnedBy(live', q), n);
      } else {
        SubsetCount(OwnedBy(live', q), OwnedBy(live, q));
      }
    }
    forall q ensures |ReceivingFor(live', q)| <= MAXIMUM_RECEIVING_PER_REQUESTER {
      if q == r {
        AddCount(ReceivingFor(live, q), ReceivingFor(live', q), n);
      } else {
        SubsetCount(ReceivingFor(live', q), ReceivingFor(live, q));
      }
    }
    forall u ensures |OwnedByUid(live', u)| <= MAXIMUM_IMPORTS_PER_UID {
      if u == r.uid {
        AddCount(OwnedByUid(live, u), OwnedByUid(live', u), n);
      } else {
        SubsetCount(OwnedByUid(live', u), OwnedByUid(live, u));
      }
    }
    forall u ensures |ReceivingForUid(live', u)| <= MAXIMUM_RECEIVING_PER_UID {
      if u == r.uid {
        AddCount(ReceivingForUid(live, u), ReceivingForUid(live', u), n);
      } else {
        SubsetCount(ReceivingForUid(live', u), ReceivingForUid(live, u));
      }
    }
    var m := n + 1;
    forall u ensures Charged(live', u, m) <= MAXIMUM_AGGREGATE_BYTES_PER_UID {
      ChargedBelow(live, n, live'[n], u, n);
    }
  }

  lemma QuotaCharges(live: Live, h: Handle, bytes: nat, n: Handle)
    requires QuotaOk(live, n) && h in live && h < n
    requires live[h].bytes + bytes <= MAXIMUM_IMPORT_BYTES
    requires Charged(live, live[h].requester.uid, n) + bytes <= MAXIMUM_AGGREGATE_BYTES_PER_UID
    ensures QuotaOk(live[h := live[h].(bytes := live[h].bytes + bytes)], n)
  {
    var e := live[h].(bytes := live[h].bytes + bytes);
    var live' := live[h := e];
    forall r ensures OwnedBy(live', r) == OwnedBy(live, r) && ReceivingFor(live', r) == ReceivingFor(live, r) {}
    forall u ensures OwnedByUid(live', u) == OwnedByUid(live, u) {}
    forall u ensures ReceivingForUid(live', u) == ReceivingForUid(live, u) {}
    forall u ensures Charged(live', u, n) <= MAXIMUM_AGGREGATE_BYTES_PER_UID { ChargedUpdate(live, h, e, u, n); }
  }

  // ----- Operations on one handle --------------------------------------------------------------

  /** The two stores say the same about the handle. */
  ghost predicate Same(s: Store, s': Store, h: Handle) {
    && (h in s.live <==> h in s'.live) && (h in s.live ==> s.live[h] == s'.live[h])
    && (h in s.receivers <==> h in s'.receivers) && (h in s.receivers ==> s.receivers[h] == s'.receivers[h])
    && (h in s.received <==> h in s'.received) && (h in s.received ==> s.received[h] == s'.received[h])
    && (h in s.ended <==> h in s'.ended)
    && (forall n: Name | n.handle == h ::
          (n in s.files <==> n in s'.files) && (n in s.files ==> s.files[n] == s'.files[n]))
  }

  lemma SameOk(s: Store, s': Store, h: Handle)
    requires HandleOk(s, h) && Same(s, s', h) && s.issued <= s'.issued
    ensures HandleOk(s', h)
  {
  }

  /** An operation on one handle leaves the others as they were. */
  lemma LocalKeeps(s: Store, s': Store, h: Handle)
    requires Inv(s) && s.issued <= s'.issued && HandleOk(s', h)
    requires forall k | k != h :: Same(s, s', k)
    requires QuotaOk(s'.live, s'.issued) && TombsOk(s'.tombstones, s'.ended)
    ensures Inv(s')
  {
    forall k ensures HandleOk(s', k) {
      if k != h { SameOk(s, s', k); }
    }
  }

  lemma PruneKeeps(s: Store, now: nat)
    requires Inv(s)
    ensures Inv(Forgetting(s, now))
  {
    PruneOk(s.tombstones, s.ended, now);
    var s' := Forgetting(s, now);
    forall k ensures HandleOk(s', k) { SameOk(s, s', k); }
  }

  /** Nobody relies on the entry's file any more. */
  ghost predicate Loose(s: Store, h: Handle) {
    h in s.receivers ==> var g := s.receivers[h].stage; g.Abandoned? || g.Cancelling? || g.Failing?
  }

  ghost predicate NoFiles(s: Store, h: Handle) { ReceivingName(h) !in s.files && ReadyName(h) !in s.files }

  lemma UnlinkKeeps(s: Store, h: Handle, io: Unlink)
    requires Inv(s) && h in s.live && Loose(s, h)
    ensures Inv(Unlinked(s, PathOf(h, s.live[h].phase), io))
    ensures io.Confirmed? ==> NoFiles(Unlinked(s, PathOf(h, s.live[h].phase), io), h)
  {
    assert HandleOk(s, h);
    LocalKeeps(s, Unlinked(s, PathOf(h, s.live[h].phase), io), h);
  }

  /** Only a start that has given up may outlive its entry. */
  ghost predicate Unattended(s: Store, h: Handle) { h in s.receivers ==> s.receivers[h].stage.Abandoned? }

  lemma DropKeeps(s: Store, h: Handle)
    requires Inv(s) && h in s.live && NoFiles(s, h) && Unattended(s, h)
    ensures Inv(s.(live := s.live - {h}))
  {
    assert HandleOk(s, h);
    QuotaShrinks(s.live, s.live - {h}, s.issued);
    LocalKeeps(s, s.(live := s.live - {h}), h);
  }

  lemma EntombKeeps(s: Store, h: Handle, outcome: Outcome, now: nat)
    requires Inv(s) && h in s.live && NoFiles(s, h) && Unattended(s, h)
    ensures Inv(Entombed(s, h, outcome, now))
  {
    assert HandleOk(s, h);
    BuryOk(s.tombstones, s.ended, Tombstone(h, s.live[h].requester, outcome, now));
    QuotaShrinks(s.live, s.live - {h}, s.issued);
    LocalKeeps(s, Entombed(s, h, outcome, now), h);
  }

  /** Flags of an entry change; its receiver, if at work, still sees it running. */
  lemma FlagKeeps(s: Store, h: Handle, e: Import)
    requires Inv(s) && h in s.live
    requires e.requester == s.live[h].requester && e.bytes == s.live[h].bytes && e.phase == s.live[h].phase
    requires e.phase.Ready? ==> !e.workerRunning
    requires e.workerRunning == s.live[h].workerRunning || Unattended(s, h)
    ensures Inv(s.(live := s.live[h := e]))
  {
    assert HandleOk(s, h);
    QuotaShrinks(s.live, s.live[h := e], s.issued);
    LocalKeeps(s, s.(live := s.live[h := e]), h);
  }

  lemma StageKeeps(s: Store, h: Handle, rc: Receiver)
    requires Inv(s) && ReceiverOk(s, h, rc)
    ensures Inv(s.(receivers := s.receivers[h := rc]))
  {
    assert HandleOk(s, h);
    LocalKeeps(s, s.(receivers := s.receivers[h := rc]), h);
  }

  lemma RetireKeeps(s: Store, h: Handle)
    requires Inv(s)
    ensures Inv(s.(receivers := s.receivers - {h}))
  {
    assert HandleOk(s, h);
    LocalKeeps(s, s.(receivers := s.receivers - {h}), h);
  }
}
