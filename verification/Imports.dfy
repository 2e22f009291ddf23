/** The private import store: its live map, its tombstones, the files in its directory and
    the receiver threads, with every locked section or file operation as a function.

    A random handle is only used for being fresh, so handles are numbers handed out in
    order. `received` and `ended` record history: the bytes a receiver has read, and the
    outcome a handle ended with. */
module Imports {
  import opened Basics

  const MAXIMUM_IMPORT_BYTES: nat := 128 * 1024 * 1024
  const MAXIMUM_IMPORTS_PER_REQUESTER: nat := 4
  const MAXIMUM_IMPORTS_PER_UID: nat := 8
  const MAXIMUM_AGGREGATE_BYTES_PER_UID: nat := 256 * 1024 * 1024
  const MAXIMUM_RECEIVING_PER_REQUESTER: nat := 1
  const MAXIMUM_RECEIVING_PER_UID: nat := 2
  const IMPORT_COPY_CHUNK_BYTES: nat := 65_536
  const IMPORT_READY_TTL: nat := 300
  const IMPORT_TOMBSTONE_TTL: nat := 300
  const MAXIMUM_TOMBSTONES_PER_UID: nat := 256

  type Handle = nat
  type Uid = nat

  datatype Requester = Requester(uid: Uid, connection: nat)

  datatype StoreError =
    | UnsafeDirectory
    | RequesterObjectLimit
    | UidObjectLimit
    | RequesterReceiverLimit
    | UidReceiverLimit
    | ObjectTooLarge
    | UidByteLimit
    | ReceivingTimedOut
    | EntropyUnavailable
    | NotFound
    | NotReady
    | CleanupUnconfirmed
    | Io

  datatype Result<+T> = Ok(value: T) | Err(error: StoreError)

  datatype Terminal = Cancelled | Consumed | Expired

  datatype Outcome = Ended(state: Terminal) | Failed(error: StoreError)

  datatype Phase = Receiving | Ready(since: nat)

  datatype Import = Import(requester: Requester, bytes: nat, phase: Phase, cancelRequested: bool,
                           workerRunning: bool, failure: Option<StoreError>)

  datatype Tombstone = Tombstone(handle: Handle, requester: Requester, outcome: Outcome, created: nat)

  datatype Name = ReceivingName(handle: Handle) | ReadyName(handle: Handle)

  /** Where a receiver is. `Abandoned` is a start that failed and has yet to undo itself. */
  datatype Stage =
    | Opening
    | Spawning
    | Copying
    | Charging(chunk: Bytes)
    | Writing(chunk: Bytes)
    | Finishing
    | Cancelling
    | Failing(error: StoreError)
    | Abandoned(error: StoreError)

  datatype Receiver = Receiver(requester: Requester, stage: Stage)

  type Live = map<Handle, Import>

  datatype Store = Store(live: Live, tombstones: seq<Tombstone>, files: map<Name, Bytes>,
                         receivers: map<Handle, Receiver>, issued: Handle,
                         received: map<Handle, Bytes>, ended: map<Handle, Outcome>)

  /** An unlink is confirmed, or it reports an error and may have removed the file anyway. */
  datatype Unlink = Confirmed | Refused(removed: bool)

  function Empty(): Store { Store(map[], [], map[], map[], 0, map[], map[]) }

  // ----- Tombstones ----------------------------------------------------------------------

  function Young(now: nat): Tombstone -> bool { (t: Tombstone) => Age(t.created, now) < IMPORT_TOMBSTONE_TTL }

  function Pruned(l: seq<Tombstone>, now: nat): seq<Tombstone> { Retain(l, Young(now)) }

  function Forgetting(s: Store, now: nat): Store { s.(tombstones := Pruned(s.tombstones, now)) }

  function Of(uid: Uid): Tombstone -> bool { (t: Tombstone) => t.requester.uid == uid }

  function OfUid(l: seq<Tombstone>, uid: Uid): seq<Tombstone> { Retain(l, Of(uid)) }

  /** Without the UID's oldest tombstone. */
  function WithoutOldest(l: seq<Tombstone>, uid: Uid): (r: seq<Tombstone>)
    ensures |OfUid(l, uid)| > 0 ==> |r| < |l|
  {
    if l == [] then []
    else if l[0].requester.uid == uid then l[1..]
    else [l[0]] + WithoutOldest(l[1..], uid)
  }

  function Evicted(l: seq<Tombstone>, uid: Uid): seq<Tombstone>
    decreases |l|
  {
    if |OfUid(l, uid)| <= MAXIMUM_TOMBSTONES_PER_UID then l
    else Evicted(WithoutOldest(l, uid), uid)
  }

  function Buried(l: seq<Tombstone>, t: Tombstone): seq<Tombstone> {
    Evicted(Pruned(l, t.created) + [t], t.requester.uid)
  }

  /** The requester's first tombstone for the handle. */
  function FindTombstone(l: seq<Tombstone>, r: Requester, h: Handle): (t: Option<Tombstone>)
    ensures t.Some? ==> t.value in l && t.value.handle == h && t.value.requester == r
    ensures t.None? ==> forall d | d in l :: d.handle != h || d.requester != r
  {
    if l == [] then None
    else if l[0].handle == h && l[0].requester == r then Some(l[0])
    else FindTombstone(l[1..], r, h)
  }

  // ----- Quotas --------------------------------------------------------------------------

  function OwnedBy(live: Live, r: Requester): set<Handle> { set h | h in live && live[h].requester == r }

  function OwnedByUid(live: Live, uid: Uid): set<Handle> { set h | h in live && live[h].requester.uid == uid }

  function ReceivingFor(live: Live, r: Requester): set<Handle> {
    set h | h in live && live[h].requester == r && live[h].phase.Receiving?
  }

  function ReceivingForUid(live: Live, uid: Uid): set<Handle> {
    set h | h in live && live[h].requester.uid == uid && live[h].phase.Receiving?
  }

  /** Bytes charged to the UID by handles below `n`. */
  function Charged(live: Live, uid: Uid, n: Handle): nat {
    if n == 0 then 0
    else (if n - 1 in live && live[n - 1].requester.uid == uid then live[n - 1].bytes else 0)
         + Charged(live, uid, n - 1)
  }

  function Admission(live: Live, r: Requester): Option<StoreError> {
    if |OwnedBy(live, r)| >= MAXIMUM_IMPORTS_PER_REQUESTER then Some(RequesterObjectLimit)
    else if |OwnedByUid(live, r.uid)| >= MAXIMUM_IMPORTS_PER_UID then Some(UidObjectLimit)
    else if |ReceivingFor(live, r)| >= MAXIMUM_RECEIVING_PER_REQUESTER then Some(RequesterReceiverLimit)
    else if |ReceivingForUid(live, r.uid)| >= MAXIMUM_RECEIVING_PER_UID then Some(UidReceiverLimit)
    else None
  }

  function Admitted(s: Store, r: Requester): Store {
    s.(live := s.live[s.issued := Import(r, 0, Receiving, false, true, None)],
       received := s.received[s.issued := []], issued := s.issued + 1)
  }

  /** Reserves a handle for a receiver about to start. */
  function Reserve(s: Store, r: Requester, now: nat, entropy: bool): (Store, Result<Handle>) {
    var s := Forgetting(s, now);
    var refusal := Admission(s.live, r);
    if refusal.Some? then (s, Err(refusal.value))
    else if !entropy then (s, Err(EntropyUnavailable))
    else (Admitted(s, r), Ok(s.issued))
  }

  predicate Receives(s: Store, r: Requester, h: Handle) {
    h in s.live && s.live[h].requester == r && s.live[h].phase.Receiving?
  }

  function ReserveBytes(s: Store, r: Requester, h: Handle, bytes: nat): (Store, Result<()>) {
    if !Receives(s, r, h) || s.live[h].cancelRequested then (s, Err(NotFound))
    else if s.live[h].bytes + bytes > MAXIMUM_IMPORT_BYTES then (s, Err(ObjectTooLarge))
    else if Charged(s.live, r.uid, s.issued) + bytes > MAXIMUM_AGGREGATE_BYTES_PER_UID then (s, Err(UidByteLimit))
    else (s.(live := s.live[h := s.live[h].(bytes := s.live[h].bytes + bytes)]), Ok(()))
  }

  function ReceiverCancelled(s: Store, r: Requester, h: Handle): Result<bool> {
    if !Receives(s, r, h) then Err(NotFound) else Ok(s.live[h].cancelRequested)
  }

  // ----- Leaving the live map ----------------------------------------------------------------

  function PathOf(h: Handle, phase: Phase): Name { if phase.Receiving? then ReceivingName(h) else ReadyName(h) }

  function Unlinked(s: Store, name: Name, io: Unlink): Store {
    if io.Confirmed? || io.removed then s.(files := s.files - {name}) else s
  }

  function Entombed(s: Store, h: Handle, outcome: Outcome, now: nat): Store
    requires h in s.live
  {
    s.(live := s.live - {h}, ended := s.ended[h := outcome],
       tombstones := Buried(s.tombstones, Tombstone(h, s.live[h].requester, outcome, now)))
  }

  function Stopped(s: Store, h: Handle, failure: Option<StoreError>): Store
    requires h in s.live
  {
    s.(live := s.live[h := s.live[h].(workerRunning := false, failure := failure)])
  }

  /** How a receiver that did not succeed leaves: with a tombstone once its file is gone,
      else as a stopped entry that keeps its quota. */
  function FinishedWith(s: Store, r: Requester, h: Handle, outcome: Outcome, io: Unlink, now: nat): Store {
    if h !in s.live || s.live[h].requester != r then s
    else
      var s1 := Unlinked(s, PathOf(h, s.live[h].phase), io);
      if io.Confirmed? then Entombed(s1, h, outcome, now) else Stopped(s1, h, Some(CleanupUnconfirmed))
  }

  /** Undoes a start that failed; it leaves no tombstone. */
  function FailedImport(s: Store, h: Handle, io: Unlink): Store {
    if h !in s.live then s
    else
      var s1 := Unlinked(s, PathOf(h, s.live[h].phase), io);
      if io.Confirmed? then s1.(live := s1.live - {h}) else s1
  }

  /** `None` means the receiver must move on first. */
  function FinishedReady(s: Store, r: Requester, h: Handle, renamed: bool, now: nat): (Store, Option<Stage>) {
    if !Receives(s, r, h) then (s, None)
    else if s.live[h].cancelRequested then (s, Some(Cancelling))
    else if !renamed || ReceivingName(h) !in s.files then (s, Some(Failing(Io)))
    else
      (s.(files := (s.files - {ReceivingName(h)})[ReadyName(h) := s.files[ReceivingName(h)]],
          live := s.live[h := s.live[h].(phase := Ready(now), workerRunning := false)]), None)
  }

  // ----- Requests ---------------------------------------------------------------------------

  datatype ImportStatus = StatusReceiving | StatusReady(bytes: nat) | StatusTerminal(state: Terminal)

  function Status(s: Store, r: Requester, h: Handle, now: nat): (Store, Result<ImportStatus>) {
    var s := Forgetting(s, now);
    var t := FindTombstone(s.tombstones, r, h);
    if t.Some? then
      (s, if t.value.outcome.Ended? then Ok(StatusTerminal(t.value.outcome.state)) else Err(t.value.outcome.error))
    else if h !in s.live || s.live[h].requester != r then (s, Err(NotFound))
    else if s.live[h].failure.Some? then (s, Err(s.live[h].failure.value))
    else (s, Ok(if s.live[h].phase.Receiving? then StatusReceiving else StatusReady(s.live[h].bytes)))
  }

  datatype Cancellation = Cancellation(state: Terminal, changed: bool)

  /** One pass of the cancellation loop; `None` waits for the receiver. */
  function CancelPass(s: Store, r: Requester, h: Handle, requested: bool, now: nat, io: Unlink)
    : (Store, Option<Result<Cancellation>>)
  {
    var s := Forgetting(s, now);
    var t := FindTombstone(s.tombstones, r, h);
    if t.Some? then
      (s, Some(if t.value.outcome.Ended? then
                 Ok(Cancellation(t.value.outcome.state, requested && t.value.outcome.state == Cancelled))
               else Err(t.value.outcome.error)))
    else if h !in s.live || s.live[h].requester != r then (s, Some(Err(NotFound)))
    else if s.live[h].phase.Receiving? && s.live[h].workerRunning then
      (s.(live := s.live[h := s.live[h].(cancelRequested := true)]), None)
    else
      var s1 := Unlinked(s, PathOf(h, s.live[h].phase), io);
      if io.Confirmed? then (Entombed(s1, h, Ended(Cancelled), now), Some(Ok(Cancellation(Cancelled, true))))
      else (s1, Some(Err(CleanupUnconfirmed)))
  }

  datatype Taken = Taken(content: Bytes, bytes: nat)

  /** Takes a ready import; its open descriptor still reads the unlinked file. */
  function Consume(s: Store, r: Requester, h: Handle, openable: bool, io: Unlink, now: nat): (Store, Result<Taken>) {
    if h !in s.live || s.live[h].requester != r then (s, Err(NotFound))
    else if s.live[h].phase.Receiving? then (s, Err(NotReady))
    else if !openable || ReadyName(h) !in s.files then (s, Err(CleanupUnconfirmed))
    else
      var s1 := Unlinked(s, ReadyName(h), io);
      if io.Confirmed? then
        (Entombed(s1, h, Ended(Consumed), now), Ok(Taken(s.files[ReadyName(h)], s.live[h].bytes)))
      else (s1, Err(CleanupUnconfirmed))
  }

  predicate Lapsed(e: Import, now: nat) { e.phase.Ready? && Age(e.phase.since, now) >= IMPORT_READY_TTL }

  /** From position `i` on the listed handles are live, and no two are the same. */
  ghost predicate Listing(live: Live, order: seq<Handle>, i: nat) {
    && i <= |order|
    && (forall j | i <= j < |order| :: order[j] in live)
    && (forall j, k | i <= j < k < |order| :: order[j] != order[k])
  }

  function ExpiredOne(s: Store, h: Handle, now: nat, io: Unlink): Store
    requires h in s.live
  {
    var s1 := Unlinked(s, ReadyName(h), io);
    if io.Confirmed? then Entombed(s1, h, Ended(Expired), now) else s1
  }

  /** Expires the listed imports from position `i` on, up to the first unlink that fails; the
      result counts the whole list. */
  function Expire(s: Store, order: seq<Handle>, i: nat, now: nat, io: Handle -> Unlink): (Store, Result<nat>)
    requires Listing(s.live, order, i)
    decreases |order| - i
  {
    if i == |order| then (s, Ok(|order|))
    else
      var s1 := ExpiredOne(s, order[i], now, io(order[i]));
      if io(order[i]).Confirmed? then Expire(s1, order, i + 1, now, io) else (s1, Err(CleanupUnconfirmed))
  }

  /** The locked section that expires: old tombstones go first. */
  function ExpireSection(s: Store, order: seq<Handle>, now: nat, io: Handle -> Unlink): (Store, Result<nat>)
    requires Listing(s.live, order, 0)
  {
    Expire(Forgetting(s, now), order, 0, now, io)
  }
}
