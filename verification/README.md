# PhoneBoost: a verified model of the host's stateful core

PhoneBoost lets a Linux host borrow memory and compute from one paired phone (the worker). The
host reserves resources on a worker it reaches over a lossy session, keeps a ledger of what it
may still owe, falls back to local work, stores imports for local clients, and exposes passive
observations of all this. This project models that core in Dafny and proves what it promises,
for all inputs, all interleavings and all runs.

## What is modelled

| files | part of the system |
|---|---|
| `Wire`, `Worker`, `WorkerFacts`, `WorkerBudget`, `WorkerLaws` | the worker's resource guard with its two memories of past requests (C08) |
| `HostView`, `Ledger` | how the host reads typed results, and its bounded cleanup ledger |
| `Protocol`, `ProtocolProof`, `ProtocolRuns`, `ProtocolLimits` | host, network and worker as one step system |
| `Origins`, `Reconcile` | which request made which reservation; the reconciliation after a reconnect, run while worker, network and the other host threads move |
| `RemoteBuffer`, `RemoteExecution` | upload, remote hashing, cleanup and local fallback |
| `Imports`, `ImportProof`, `ImportRuns`, `ImportTheorems`, `ImportLimits`, `ImportProgress`, `ImportStore` | the private import store with its files, quotas, tombstones and receiver threads |
| `Controller`, `AutoUse`, `ControllerRuns`, `ControllerTheorems` | the auto-use controller, its sessions and its expiring observations |
| `Leases` | the controller lease: worker authority and host view on one clock (C07) |
| `Preference` | the durable on/off preference |
| `Pbmux` | framing, fragmentation and reassembly |
| `Admission`, `Discovery` | the lock-free client gate and the candidate cache |

Where the source updates fields in place the model has a class whose methods are proved equal to
functions on values; the step systems run on those functions, so that what is proved of the runs
is proved of the methods. A locked section is one atomic step. A thread that leaves its lock is
followed by an `Interfere` call, in which all other threads take any number of enabled steps
(for the reconciliation, `Reconcile.Outside` says which).

## Assumptions

- One paired worker. Reservations, leases, request ids and import handles are random in the
  source and only used for being fresh, so they are numbers that do not repeat.
- Requests and replies may be lost, delayed and repeated, and a host thread may act on a reply
  long after it came, also across a reconnect. (The worker runs one session at a time, so the
  model lets requests survive longer than the code does.) What the worker remembers of a request,
  five minutes, outlives every message about it, and the replays of a running reconciliation
  count as messages. Without this a reservation can be orphaned:
  `ProtocolLimits.ForgettingInFlightOrphans`.
- Clocks are parameters. Locks are not poisoned, and the controller is not dropped.
- BLAKE3, on either side, is an incremental hasher with the law that updating twice is updating
  with the concatenation. The JSON form of the preference is a pair of functions that round-trip.
- An unlink that reports an error may or may not have removed the file; a failed write may have
  stored any part; an `fsync` that succeeds makes durable.

## Where a promise has a limit

- At most one reservation per request id, ever: holds as long as the worker does not forget the id
  while its lease can still be used (`OneReservationPerMemory`). The step system does not tie the
  life of a lease to the retention time; with a lease renewed past it, a replay makes a second
  reservation (`SecondReservation`). `MadeExactly` says when a step makes one. At most one is live
  at any moment in every run.
- An import can always be ended: holds exactly for the entries that are not stuck
  (`CanEndExactly`). A start that cannot open or validate its file and then cannot unlink it leaves
  an entry that claims a receiver that does not exist; every later cancellation waits in vain and
  the quota stays taken until a restart (`StuckExactly`, `StuckForever`, `StuckIsReachable`).
- A cancellation can always be confirmed: holds exactly for the entries that are not blocked, that
  is, neither stuck nor left by a failed start that is about to undo itself without a trace
  (`CanCancelExactly`).
- Session identities are unique exactly until the 64-bit serial saturates (`NewSessionIsFresh`).

The host's lease deadline is within the worker's in every run (`HostViewIsConservative`), because
the worker begins a session only after the last one has ended
(crates/pb-runtime-secure/src/runtime.rs:589-597 and 899-900): no copy of a renewal outlives its
session, which is the one way it could fail (`RenewIsConservativeExactly`).

## Model

| member | source | states |
|---|---|---|
| WorkerFacts.ApplyKeeps | crates/pb-worker-core/src/lib.rs:280-576 | Whatever C08 request arrives, however late or often: the worker stays consistent, its answer is true and stays true, a decisive answer makes the request inert, and a live reservation appears only at a first execution of its reserve |
| WorkerFacts.DecidedKeeps | crates/pb-worker-core/src/resource_guard.rs:356-434 | After a reserve, granted means at most the named reservation is live for that request id, and denied means none is |
| WorkerLaws.DecideExactly | crates/pb-worker-core/src/resource_guard.rs:384-416 | A reserve is granted exactly if its size is allowed (128 MiB for a buffer, 8 MiB for scratch), the worker is safe, it would then hold at most 128 MiB and at most a quarter of what is available beyond 512 MiB, and there is entropy; and which inputs give each refusal |
| WorkerLaws.ReserveTells | crates/pb-worker-core/src/lib.rs:369-432 | For a new reserve, through cache, purge and guard: the host reads the next reservation exactly if it can be funded, its bytes are then held, the reason of a refusal is the right one, and exactly the refusals other than missing entropy prove absence |
| WorkerFacts.ReserveKeeps | crates/pb-worker-core/src/resource_guard.rs:356-434 | A reserve on a purged guard keeps the invariant, answers truthfully and creates only at a first execution |
| WorkerFacts.CommitKeeps | crates/pb-worker-core/src/resource_guard.rs:436-479 | A commit, refused or not, creates nothing live and keeps every remembered answer true |
| WorkerFacts.CommitTells | crates/pb-worker-core/src/resource_guard.rs:436-479 | Served for the first time, a commit is read as confirmed by the host exactly if the worker now has that reservation committed, with that class and size; and that is exactly if it was, or was reserved and is safe |
| WorkerFacts.ReleaseKeeps | crates/pb-worker-core/src/resource_guard.rs:481-520 | A release answers truthfully: a terminal answer means the reservation is not live and never will be |
| WorkerFacts.ReleaseTells | crates/pb-worker-core/src/resource_guard.rs:481-520 | Served for the first time, a release is read as confirmed by the host exactly if the worker now has that reservation released; and that is exactly if it was, or was still live |
| WorkerLaws.ReleaseSettles | crates/pb-worker-core/src/resource_guard.rs:481-520 | Served for the first time, a release is terminal for every reservation but one that another lease's buffer or job owned, and proves the purge exactly if it released the lease's own or found nothing |
| WorkerFacts.PurgeKeeps | crates/pb-worker-core/src/resource_guard.rs:787-827 | The lazy purge leaves only reservations of the current lease and creates none |
| WorkerLaws.PurgeExactly | crates/pb-worker-core/src/resource_guard.rs:787-827 | The purge keeps exactly the lease's own reservations and those a buffer or job owned, and exactly the lease's own decisions |
| WorkerFacts.ConsumeKeeps | crates/pb-worker-core/src/resource_guard.rs:552-623 | A successful take-over leaves the reservation no longer live |
| WorkerFacts.ConsumeTells | crates/pb-worker-core/src/resource_guard.rs:552-623 | A take-over succeeds exactly on the lease's committed reservation of that class and size, whatever other leases left behind, and leaves it consumed |
| WorkerLaws.OwnerEnds | crates/pb-worker-core/src/resource_guard.rs:625-672 | The end of a buffer or job makes exactly a consumed reservation released, frees exactly its bytes, changes no other, and a second time changes nothing |
| WorkerFacts.ReleaseConsumedKeeps | crates/pb-worker-core/src/resource_guard.rs:625-672 | That end keeps the invariant and revives nothing |
| WorkerLaws.ReservedExpires | crates/pb-worker-core/src/resource_guard.rs:829-852 | Expiry makes exactly a reserved reservation expired, frees exactly its bytes, closes its decision, and a second time changes nothing |
| WorkerFacts.ExpireKeeps | crates/pb-worker-core/src/resource_guard.rs:829-852 | Expiry keeps the invariant and revives nothing |
| WorkerLaws.EndedForgotten | crates/pb-worker-core/src/resource_guard.rs:674-686 | Exactly what holds no bytes any more is forgotten, and nothing else changes |
| WorkerFacts.MissKeeps | crates/pb-worker-core/src/lib.rs:309-343 | A request the response cache does not hold: purged, served, recorded, and known from then on if decisive |
| WorkerFacts.HitKeeps | crates/pb-worker-core/src/lib.rs:309-343 | A cached answer is still true and its request can create nothing |
| WorkerLaws.ReplayIsSame | crates/pb-worker-core/src/lib.rs:309-343 | A remembered request gets the same answer again, whatever the health, and changes nothing |
| WorkerLaws.GuardExplains | crates/pb-worker-core/src/resource_guard.rs:436-520 | The reason given for a commit or a release, by what the guard has of the reservation and its state |
| WorkerLaws.LeaseChanges | crates/pb-worker-core/src/lease.rs:232-275 | A lease is granted exactly if there is none, with a new number; ending leaves none; a restart is a new incarnation that holds and remembers nothing |
| WorkerBudget.ApplyHeld | crates/pb-worker-core/src/resource_guard.rs:356-520 | The held bytes are exactly those of the outstanding reservations, at most 128 MiB, after any request |
| WorkerBudget.PurgeHeld | crates/pb-worker-core/src/resource_guard.rs:787-827 | The purge gives back exactly the bytes of what it drops |
| WorkerBudget.ConsumeHeld | crates/pb-worker-core/src/resource_guard.rs:552-623 | A take-over neither frees nor charges bytes |
| WorkerBudget.EndingsHeld | crates/pb-worker-core/src/resource_guard.rs:625-686 | Expiry, the end of an owner and forgetting keep the held bytes equal to those of the outstanding reservations |
| Ledger.CleanupLedger.Track | crates/pb-host/src/auto_use.rs:1871-1884 | Adds an obligation once, if there is room; never exceeds 64 |
| Ledger.CleanupLedger.Remove | crates/pb-host/src/auto_use.rs:1886-1898 | The entries left are those for other targets or leases, in order |
| Ledger.CleanupLedger.Replace | crates/pb-host/src/auto_use.rs:1900-1922 | The first entry for the target is retargeted in place and becomes known |
| Ledger.CleanupLedger.MarkAmbiguous | crates/pb-host/src/auto_use.rs:1839-1857 | The first entry for the target becomes ambiguous |
| Ledger.CleanupLedger.Reconnect | crates/pb-host/src/auto_use.rs:1929-1963 | Buffers and other incarnations go; what is left is of the lease and due, or of another lease and awaits the purge proof |
| Ledger.ReconnectedExactly | crates/pb-host/src/auto_use.rs:1940-1955 | A reconnect keeps every other entry of the incarnation with its target and origin, marks exactly those of other leases, and leaves what is known of the lease's own |
| Ledger.CleanupLedger.ResolveSuperseded | crates/pb-host/src/auto_use.rs:2008-2023 | After a reconnect it leaves the lease's own entries only |
| Ledger.SupersededDebtEnds | crates/pb-host/src/auto_use.rs:1929-2023 | For every ledger, a reconnect and a purge proof leave exactly the entries of the lease |
| ProtocolRuns.SupersededDebtIsSettled | crates/pb-host/src/auto_use.rs:1764-2023 | Whatever runs after a reconnect under the manager's lease, once the purge is proved and resolved nothing awaits it any more |
| ProtocolRuns.PurgeCanBeProved | crates/pb-host/src/auto_use.rs:1795-1837 | A release of something the purge leaves nothing of is served, proves the purge, and settles all that waited |
| Ledger.ReplacedMembers | crates/pb-host/src/auto_use.rs:1900-1922 | A replacement keeps every other entry and adds only the retargeted one |
| ProtocolRuns.TakenByBuffer | crates/pb-host/src/auto_use.rs:2197-2204 | A buffer takes over the place of its reservation in the ledger, as a known entry of the session |
| ProtocolProof.StepKeeps | crates/pb-host/src/auto_use.rs:1764-2049 | Every step of host, network and worker keeps: each live reservation is named by the ledger, each request in flight is harmless, each reply in flight is true |
| ProtocolProof.ServeKeeps | crates/pb-worker-core/src/lib.rs:280-576 | Serving any request in flight, new, late or repeated, orphans nothing |
| ProtocolProof.EditStep | crates/pb-host/src/auto_use.rs:1764-2049 | Every edit of the ledger, on any reply still in flight, leaves all live reservations covered |
| ProtocolProof.ReconnectEdit | crates/pb-host/src/auto_use.rs:1929-1963 | Dropping old incarnations and buffers orphans nothing |
| ProtocolProof.PurgedEdit | crates/pb-host/src/auto_use.rs:2008-2023 | Dropping superseded entries after a purge proof orphans nothing |
| ProtocolRuns.NoOrphanedReservation | crates/pb-host/src/auto_use.rs:1764-2049 | In every run from the start: each unconsumed reservation is covered by a ledger entry, the ledger holds at most 64, the worker's budget is exact, and at most one reservation per request id is live |
| ProtocolRuns.EntryLeavesSettled | crates/pb-host/src/auto_use.rs:1839-2073 | An entry leaves only by a decisive answer, a terminal release, a take-over, a purge proof, a new incarnation or, for buffers, the end of the session, and then nothing live depends on it |
| ProtocolLimits.OneReservationPerMemory | crates/pb-host/src/auto_use.rs:1970-2000 | Over any run a request id makes at most one reservation more than the number of times the worker forgot it under a usable lease |
| ProtocolLimits.MadeExactly | crates/pb-worker-core/src/resource_guard.rs:369-433 | A step makes a reservation for a request exactly if it serves that reserve under the valid lease, nothing of it is remembered, both tables have room, and it can be funded (in bytes) from what the purge leaves |
| ProtocolLimits.SecondReservation | crates/pb-worker-core/src/resource_guard.rs:369-433 | A run in which one request id makes two reservations, the first expired and forgotten under a lease that lived on |
| ProtocolLimits.ForgettingInFlightOrphans | crates/pb-worker-core/src/resource_guard.rs:369-433 | A run in which forgetting a request that is still in flight leads to an orphan |
| Reconcile.Manager.ReconcileCleanup | crates/pb-host/src/auto_use.rs:1924-2006 | Success, while other threads still edit the ledger on answers they hold: every reservation and unresolved reserve the lease owed at the start is gone from the ledger, a reserve of the lease that is unresolved was recorded since and never sent, and the worker holds no unconsumed reservation under the lease, whether or not each ambiguous reserve had run; it fails exactly if one of its calls was lost or got an answer that settles nothing |
| Reconcile.Manager.ResolveReserve | crates/pb-host/src/auto_use.rs:1964-2000 | Replaying an ambiguous reserve and releasing what it made leaves nothing that awaits it and nothing live that it made, whoever else handled an answer to it meanwhile |
| Reconcile.Manager.ReplayReserve | crates/pb-host/src/auto_use.rs:1971-1997 | A decisive answer to a replay means nothing awaits the request any more and at most the reservation it names is live for it |
| Reconcile.Manager.ReleaseOne | crates/pb-host/src/auto_use.rs:2025-2049 | Confirmed exactly for a terminal answer: the reservation is dead and no entry of the lease names it; unanswered: what names it is ambiguous |
| Reconcile.Manager.Begin | crates/pb-host/src/auto_use.rs:1924-1963 | At the reconnect every reservation and unresolved reserve the lease owes is due, and the due list accounts for all that is live or unresolved under the lease |
| Reconcile.Manager.WorkThrough | crates/pb-host/src/auto_use.rs:1964-2006 | The loop keeps: the rest of the list accounts for all that is live or unresolved under the lease, and what came before is gone |
| Origins.RunIds | crates/pb-host/src/auto_use.rs:2425-2478 | In every run no two unresolved entries share a request id |
| Origins.StepOrigin | crates/pb-host/src/auto_use.rs:1764-2049 | Every step keeps: each answer names the reservation its own request made, and no reservation is named in the ledger both by its id and by that request |
| Origins.ApplyOrigin | crates/pb-worker-core/src/lib.rs:280-576 | Whatever is served, a reservation named in the answer to a reserve is the one that request made, also from memory |
| Reconcile.StepLater | crates/pb-host/src/auto_use.rs:1839-1922 | Any step of the others: a request of the lease that becomes unresolved has a new id and is not on its way, a reservation newly named was made by a request that was unresolved, and whatever becomes live was on its way and unresolved |
| RemoteBuffer.MergeRange | crates/pb-worker-core/src/remote_buffer.rs:851-865 | The merged ranges are sorted, disjoint and non-adjacent, and cover exactly the old bytes and the new range |
| RemoteBuffer.ReadyIffComplete | crates/pb-worker-core/src/remote_buffer.rs:398-402 | The single range that makes a buffer READY means exactly that every byte was written |
| RemoteExecution.WorkerBuffer.Put | crates/pb-worker-core/src/remote_buffer.rs:340-414 | A put stores exactly its bytes at its offset, or refuses and changes nothing |
| RemoteExecution.RemoteHost.ReserveWithCleanup | crates/pb-host/src/auto_use.rs:2425-2478 | There is a reservation exactly if the ledger has room and the worker grants it; then it is the one new entry; older entries are never touched |
| RemoteExecution.RemoteHost.ReserveAndCommit | crates/pb-host/src/auto_use.rs:2371-2423 | There is a reservation exactly if the ledger has room and reserve and commit succeed; then it is the one new entry; older entries are never touched |
| RemoteExecution.RemoteHost.Upload | crates/pb-host/src/auto_use.rs:2205-2246 | It succeeds exactly if the input is long enough and nothing fails outside; then the remote buffer is READY and holds exactly the first n bytes |
| RemoteExecution.RemoteHost.WorkerDigest | crates/pb-worker-core/src/compute.rs:511-538 | The worker's chunked provider returns the hash of its whole input exactly if session and time suffice |
| RemoteExecution.RemoteHost.RunJob | crates/pb-host/src/auto_use.rs:2247-2359 | There is a digest exactly if every reply is about the job and time suffices; it is the hash of the buffer, and the scratch reservation's entry is gone |
| RemoteExecution.RemoteHost.GiveBack | crates/pb-host/src/auto_use.rs:2525-2553 | Confirmed means nothing names the reservation any more; otherwise what names it is ambiguous |
| RemoteExecution.RemoteHost.CleanupRemote | crates/pb-host/src/auto_use.rs:2495-2561 | After a clean cleanup nothing the attempt held is named any more, and otherwise each is gone or ambiguous; older entries are never touched, and a last buffer alone restores the ledger |
| RemoteExecution.RemoteHost.ExecuteRemote | crates/pb-host/src/auto_use.rs:2142-2369 | There is a digest exactly if the ledger has room, the input is long enough and nothing fails outside; it is the hash of the whole input and the ledger is exactly what it was |
| RemoteExecution.RemoteHost.LocalDigest | crates/pb-host/src/auto_use.rs:2648-2670 | There is a local digest exactly if the input is long enough and its device works; it is the hash of the whole input, whatever was read before |
| RemoteExecution.RemoteHost.Execute | crates/pb-host/src/auto_use.rs:629-714 | Any execution carries the hash of the whole input, whatever failed, and its source says how it came about; a remote success leaves no debt; without a fault outside every input gets one, from the worker if tried with room in the ledger |
| ProtocolRuns.RestoredLedgerLeavesNothingLive | crates/pb-host/src/auto_use.rs:2142-2369 | After any run that leaves the ledger as it was, as a remote success does, the worker holds nothing live that was made since, except for a request unresolved before |
| ImportProof.EvictedOf | crates/pb-host/src/import_store.rs:1121-1137 | Eviction keeps exactly the UID's newest 256 tombstones and all of every other UID's |
| ImportProof.BuryOk | crates/pb-host/src/import_store.rs:1107-1143 | A new tombstone keeps: one per handle, each telling its handle's outcome, at most 256 per UID |
| ImportProof.QuotaAdmits | crates/pb-host/src/import_store.rs:887-942 | An admitted import keeps every count limit |
| ImportProof.QuotaCharges | crates/pb-host/src/import_store.rs:944-981 | A charge that passes the checks keeps the object and the per-UID byte limits |
| ImportRuns.StepKeeps | crates/pb-host/src/import_store.rs:355-615 | Every locked section and file operation, failing or not, keeps files, entries, receivers, quotas and tombstones in agreement |
| ImportRuns.CancelKeeps | crates/pb-host/src/import_store.rs:724-788 | A pass of the cancellation loop keeps the invariant |
| ImportRuns.ConsumeKeeps | crates/pb-host/src/import_store.rs:790-827 | Consumption keeps the invariant |
| ImportRuns.ExpireKeeps | crates/pb-host/src/import_store.rs:852-880 | Expiry in any order, stopped by any failing unlink, keeps the invariant |
| ImportRuns.OtherKeeps | crates/pb-host/src/import_store.rs:549-615 | A receiver that fails or is cancelled keeps the invariant, also when its file cannot be removed |
| ImportRuns.ReadyKeeps | crates/pb-host/src/import_store.rs:512-547 | Publication by rename keeps the invariant |
| ImportProgress.ReadyExactly | crates/pb-host/src/import_store.rs:512-547 | A finished receiver publishes exactly if the rename succeeds and nobody asked to cancel: ready now, with the file that was received and its size, and no receiver; else it leaves with the right outcome |
| ImportProgress.LeavesExactly | crates/pb-host/src/import_store.rs:549-615 | A receiver that gave up ends its import, with its own outcome, exactly if its file is confirmed gone |
| ImportProgress.StartExactly | crates/pb-host/src/import_store.rs:887-942 | A start is admitted exactly below four imports, eight per UID, one and two receiving; else the first limit reached is the answer |
| ImportProgress.ChargeExactly | crates/pb-host/src/import_store.rs:944-981 | A chunk is paid for exactly if the import is not being cancelled and stays within 128 MiB and its UID within 256 MiB; else the receiver leaves with the reason |
| ImportProgress.ImportSucceeds | crates/pb-host/src/import_store.rs:355-547 | From every admitted start, any input within the limits, however it is read, becomes a ready import with exactly that content |
| ImportProgress.OwnerIsTold | crates/pb-host/src/import_store.rs:395-426 | The owner of a live import is told its failure, or that it is receiving, or ready with its size; a cancellation waits exactly for a running receiver |
| ImportProgress.EndIsTold | crates/pb-host/src/import_store.rs:395-426 | For 300 seconds the owner of an ended import is told how it ended, by status and by cancel |
| ImportProgress.ConsumeExactly | crates/pb-host/src/import_store.rs:790-827 | A consumer is served exactly its own ready import whose file opens and unlinks, with what was received |
| ImportProgress.ExpiryExactly | crates/pb-host/src/import_store.rs:852-880 | With every unlink confirmed exactly the ready imports of at least 300 seconds are expired |
| ImportProgress.TombstonesLast | crates/pb-host/src/import_store.rs:1139-1143 | A tombstone is kept for exactly 300 seconds |
| ImportTheorems.FilesAndAccountingAgree | crates/pb-host/src/import_store.rs:355-1008 | In every run every file belongs to a live entry of its phase, no file is longer than what was charged, and all count, receiver and byte limits hold |
| ImportTheorems.ReceiverFindsItsEntry | crates/pb-host/src/import_store.rs:497-510 | A receiver at work always finds its entry |
| ImportTheorems.QuotaIsFreedOnce | crates/pb-host/src/import_store.rs:549-615 | An entry leaves the live map only with its files gone and no receiver at work, and in no continuation does anything of it return |
| ImportTheorems.TerminalIsFinal | crates/pb-host/src/import_store.rs:395-426 | After a terminal status every later call by anyone, with its expiry and whatever runs in between, gets the same answer, not found, or that a cleanup could not be confirmed |
| ImportTheorems.CancelConfirmed | crates/pb-host/src/import_store.rs:724-788 | A successful cancellation means not live, no file, no receiver |
| ImportTheorems.CancelledIsNeverPublished | crates/pb-host/src/import_store.rs:512-547 | Once a cancellation waits for a receiver, in no run does that import become ready |
| ImportTheorems.CancelIsSeen | crates/pb-host/src/import_store.rs:756-775 | A cancellation that waits has told the receiver: its next check, charge and publication all see it |
| ImportTheorems.ExpiredAllGone | crates/pb-host/src/import_store.rs:852-880 | A successful expiry leaves none of the listed imports live, and each has ended as expired |
| ImportTheorems.ConsumedExactlyOnce | crates/pb-host/src/import_store.rs:790-827 | A consumer gets exactly the bytes the receiver read and their number, and in no continuation does anyone consume the handle again |
| ImportTheorems.ForeignHandlesLookAlike | crates/pb-host/src/import_store.rs:724-754 | For the locked sections of status, cancel and consume, someone else's handle and a handle never issued give the same answer and the same store |
| ImportTheorems.ForeignCallsLookAlike | crates/pb-host/src/import_store.rs:395-426 | So they do for whole status and consume calls, with the expiry they run first and whatever other threads do in between |
| ImportTheorems.ForeignStays | crates/pb-host/src/import_store.rs:395-426 | In every run a handle of someone else never becomes the requester's |
| ImportTheorems.NeverIssuedIsForeign | crates/pb-host/src/import_store.rs:1036-1050 | In every reachable store a handle not yet issued is nobody's |
| ImportLimits.StuckExactly | crates/pb-host/src/import_store.rs:994-1008 | An entry comes to claim a missing receiver exactly when a failed start of a running entry cannot confirm its cleanup |
| ImportLimits.CanEndExactly | crates/pb-host/src/import_store.rs:994-1008 | In every reachable store a live import has a continuation that leaves nothing of it exactly if it does not claim a missing receiver |
| ImportLimits.CanCancelExactly | crates/pb-host/src/import_store.rs:724-788 | In every reachable store its owner's cancellation has a continuation in which it is confirmed exactly if the import does not claim a receiver that is missing or a start that has failed |
| ImportLimits.StuckForever | crates/pb-host/src/import_store.rs:755-768 | Such an entry keeps its quota in every run, and no cancellation of it is ever confirmed |
| ImportLimits.StuckIsReachable | crates/pb-host/src/import_store.rs:355-393 | A run that leads to such an entry |
| ImportStore.ImportStore.PushTombstone | crates/pb-host/src/import_store.rs:1107-1137 | The eviction loop ends and computes the specified tombstones |
| ImportStore.ImportStore.ExpireReadyAt | crates/pb-host/src/import_store.rs:852-880 | Drops old tombstones and then expires, in some order, all that lapsed, up to the first file it cannot remove |
| ImportStore.ImportStore.Cancel | crates/pb-host/src/import_store.rs:724-788 | The waiting loop, under interference: success means the handle is gone, and what can be answered at once is, unless an unlink is refused |
| ImportStore.ImportStore.Disconnect | crates/pb-host/src/import_store.rs:829-850 | Success means every import the requester had is gone |
| ImportStore.ImportStore.StatusOf | crates/pb-host/src/import_store.rs:395-426 | The status at the end of the call, unless the expiry fails; a terminal status means gone |
| ImportStore.ImportStore.ConsumeOf | crates/pb-host/src/import_store.rs:790-827 | Success hands over exactly the received bytes, and the import has ended as consumed |
| ImportStore.ImportStore.CopyAsync | crates/pb-host/src/import_store.rs:450-494 | The copy loop ends because of the byte quota; if it finishes, what was received is the chunks up to the end of the input |
| ImportStore.ImportStore.ReceiveAsync | crates/pb-host/src/import_store.rs:428-448 | A receiver leaves its import ended, or ready with the whole input in its file, or stopped with its quota kept |
| AutoUse.AutoUseController.Enable | crates/pb-host/src/auto_use.rs:498-513 | Turning on starts a later epoch in which no session is current and nothing is observed; turned on already, nothing changes |
| AutoUse.AutoUseController.Disable | crates/pb-host/src/auto_use.rs:515-533 | Off, with nothing open, no session current and nothing observed, and a later epoch |
| AutoUse.AutoUseController.Open | crates/pb-host/src/auto_use.rs:1300-1320 | Exactly in the current epoch there is a new session; it is current, and below saturation no earlier one is |
| AutoUse.AutoUseController.PublishAvailable | crates/pb-host/src/auto_use.rs:2672-2699 | Available exactly for the current authenticated session; otherwise nothing changes; available always has a current context |
| AutoUse.AutoUseController.MarkConnectionLost | crates/pb-host/src/auto_use.rs:2705-2717 | A stale session changes nothing; the current one becomes Reconnecting, stays current, and keeps its observations |
| AutoUse.AutoUseController.MarkDegraded | crates/pb-host/src/auto_use.rs:2729-2747 | A stale session changes nothing; the current one becomes Degraded, stays current, and keeps its observations |
| AutoUse.AutoUseController.SetPhase | crates/pb-host/src/auto_use.rs:2749-2763 | An epoch that is over changes nothing; a phase ends availability and leaves every session as current as it was |
| AutoUse.AutoUseController.ClearSession | crates/pb-host/src/auto_use.rs:2765-2777 | A stale session changes nothing; after the current one is cleared no session is current and nothing is observed |
| AutoUse.AutoUseController.RecordDiscovery | crates/pb-host/src/auto_use.rs:952-969 | What was recorded shows for thirty seconds and as stale from then on; in another epoch nothing changes |
| AutoUse.AutoUseController.RecordLeaseActive | crates/pb-host/src/auto_use.rs:971-983 | From then on, for all clients and times, the lease shows as invalidated without its authenticated session, as expired from its deadline on, and as ACTIVE otherwise |
| AutoUse.AutoUseController.RecordLeaseUnavailable | crates/pb-host/src/auto_use.rs:985-991 | From then on the lease shows as unavailable and no proof shows as passed |
| AutoUse.AutoUseController.RecordAdmissionProof | crates/pb-host/src/auto_use.rs:993-1017 | From then on, for all clients and later times, the proof shows as invalidated without its session or an ACTIVE lease of the same id and incarnation, as stale after two seconds, and as it turned out otherwise |
| ControllerTheorems.StatusIsHonest | crates/pb-host/src/auto_use.rs:422-533 | In every run: available means enabled with an active context of the current session and epoch; disabled means off with nothing open |
| ControllerTheorems.StaleCallsChangeNothing | crates/pb-host/src/auto_use.rs:2672-2777 | Once a session is over, in every continuation none of its calls changes anything and none of its requests passes the check |
| ControllerTheorems.NewSessionIsFresh | crates/pb-host/src/auto_use.rs:1300-1320 | A new session differs from all earlier ones exactly while the serial is below its maximum |
| ControllerTheorems.DisableWins | crates/pb-host/src/auto_use.rs:515-533 | After a disable no interleaving leaves Off before the next enable |
| ControllerTheorems.DisabledSessionsStayRefused | crates/pb-host/src/auto_use.rs:1556-1577 | No request of a session from before a disable ever passes its check again, also after an enable |
| ControllerTheorems.ActiveIsBacked | crates/pb-host/src/auto_use.rs:1056-1071 | ACTIVE means a lease acknowledged on the current authenticated session that has not run out |
| ControllerTheorems.FreshPassIsBacked | crates/pb-host/src/auto_use.rs:1073-1105 | FRESH_PASS means ACTIVE at the same instant and a passed probe of the same session, lease and incarnation at most two seconds old |
| ControllerTheorems.ObservationsOnlyDecay | crates/pb-host/src/auto_use.rs:1019-1105 | Without a new record, neither time nor any run brings back ACTIVE, FRESH_PASS or FRESH_HINT |
| Leases.RenewKeeps | crates/pb-worker-core/src/lease.rs:277-304 | Every remembered renewal's own time plus what it was told is within the lease's deadline; the cache stays within 256 |
| Leases.RenewExtends | crates/pb-worker-core/src/lease.rs:277-304 | A renewal of the lease in force with its next number makes it last sixty seconds from now, and the answer says so |
| Leases.RenewReplays | crates/pb-worker-core/src/lease.rs:547-566 | The same renewal again gets the same answer and changes nothing |
| Leases.AcquireTells | crates/pb-worker-core/src/lease.rs:232-275 | A lease in force is given again with what is left of it; from its deadline on, or without one, a new lease of sixty seconds is |
| Leases.ReleaseEnds | crates/pb-worker-core/src/lease.rs:306-336 | A release ends the lease, and the next acquisition gets a new one |
| Leases.AcquireIsConservative | crates/pb-host/src/auto_use.rs:1626-1630 | The deadline taken from an acquisition is within the worker's, and the next sequence number is the worker's |
| Leases.RenewIsConservativeExactly | crates/pb-host/src/auto_use.rs:1632-1643 | The deadline taken from a renewal is within the worker's exactly if its number is new to the worker or ran after it was sent |
| Leases.HostViewIsConservative | crates/pb-host/src/auto_use.rs:1679-1705 | In every run the host's deadline is within the worker's; before it, the worker of that incarnation still holds the lease; the next number is the first plus the renewals |
| Leases.RenewalIsBelieved | crates/pb-host/src/auto_use.rs:1632-1705 | In every run a host that takes the answer to a renewal believes in its lease until exactly sixty seconds after it asked |
| Leases.RenewalIsTaken | crates/pb-host/src/auto_use.rs:1632-1705 | A renewal served while the lease is in force is taken: the same lease, one number and one renewal further |
| Leases.RenewalsKeepIdentity | crates/pb-host/src/auto_use.rs:1679-1705 | Without a new acquisition, lease id, incarnation and first number never change |
| Preference.ConfigStore.Write | crates/pb-host/src/auto_use_control.rs:164-209 | It is written exactly if no stage fails and the process lives; from the rename on the file is the new one and before it the old; what may come back after a power loss is an old version or the requested one, each whole |
| Preference.ConfigStore.LosePower | crates/pb-host/src/auto_use_control.rs:191-198 | After a power loss the file is one of the versions since the last directory sync, never a partial one |
| Preference.AutoUseControl.constructor | crates/pb-host/src/auto_use_control.rs:236-263 | Loads what the store holds, with an invalid store meaning disabled; the view agrees with the controller |
| Preference.AutoUseControl.Save | crates/pb-host/src/auto_use_control.rs:282-297 | A store found invalid is never written; otherwise the write goes through exactly if nothing failed, and a start then loads the value asked for, else that or what it would have loaded |
| Preference.AutoUseControl.Set | crates/pb-host/src/auto_use_control.rs:273-314 | Accepted exactly if the store is usable and valid and the write goes through: then every later start loads the value; refused means disabled with an error; an invalid store is never overwritten; the view agrees with the controller |
| Preference.AutoUseControl.Live | crates/pb-host/src/auto_use_control.rs:269-314 | After any sequence of sets, foreign edits and failures and a death, a start loads the last accepted value or edit, or a value asked for since |
| Pbmux.UnpackOfPack | scripts/check_c08_c09_wire_addendum_001.py:67-93 | A packed header unpacks to itself |
| Pbmux.PackOfUnpack | scripts/check_c08_c09_wire_addendum_001.py:585-603 | Every forty bytes are the packing of what they unpack to |
| Pbmux.Layout | scripts/check_c08_c09_wire_addendum_001.py:67-93 | Where each header field lies, byte by byte, the most significant first |
| Pbmux.SplitFrames | scripts/check_c08_c09_wire_addendum_001.py:585-603 | The loop yields the frames of the blob, or fails exactly if it is not one frame after another |
| Pbmux.Reassemble | scripts/check_c08_c09_wire_addendum_001.py:606-665 | Yields a message exactly if the frames carry it: contiguous numbers, one start, one end, the declared length |
| Pbmux.Decode | scripts/check_c08_c09_wire_addendum_001.py:606-665 | Yields a message exactly if the blob is accepted as it |
| Pbmux.AcceptedExactly | scripts/check_c08_c09_wire_addendum_001.py:585-665 | A blob is accepted as a message exactly if it is the concatenation of that message's encoded frames |
| Pbmux.ChunksOf | scripts/check_c08_c09_wire_addendum_001.py:223-228 | The chunks joined are the body, none is empty or too long, and there are as few as possible |
| Pbmux.Fragment | scripts/check_c08_c09_wire_addendum_001.py:223-254 | The writer's loop produces the encoding of the chunks |
| Pbmux.RoundTrip | scripts/check_c08_c09_wire_addendum_001.py:223-254 | Every message above one payload and up to 4 MiB is read back as it was written |
| Admission.CounterIsPermits | crates/pb-host/src/admission.rs:253-294 | In every interleaving the counter equals the permits outstanding and is at most eight |
| Admission.IdsAreNew | crates/pb-host/src/admission.rs:324-330 | No connection id is given twice |
| Admission.LocalAdmissionGate.TryAcquire | crates/pb-host/src/admission.rs:253-274 | A slot is held on success and none on refusal, whatever races |
| Admission.LocalAdmissionGate.Authenticate | crates/pb-host/src/admission.rs:225-238 | A client admitted holds a slot and an id nobody had; otherwise it holds no slot |
| Discovery.CandidateCache.Refresh | crates/pb-host/src/discovery.rs:246-259 | One entry per service and endpoint, the refreshed one present, all others kept |
| Discovery.CandidateCache.Expire | crates/pb-host/src/discovery.rs:261-270 | Exactly the entries younger than 30 seconds stay, and the index is in range |
| Discovery.CandidateCache.Next | crates/pb-host/src/discovery.rs:272-277 | Returns the live entry whose turn it is, and nothing exactly if none is live |
| Discovery.CandidateCache.Cycle | crates/pb-host/src/discovery.rs:272-277 | With n live entries and no change, n calls return them in turn from the index on |
| Discovery.TurnIsPermutation | crates/pb-host/src/discovery.rs:272-277 | One turn returns each entry exactly once |
| Discovery.LiveOnly | crates/pb-host/src/discovery.rs:261-264 | What expiry keeps is exactly what is live |
| Discovery.AvahiBackend.ApplyEvents | crates/pb-host/src/discovery.rs:198-231 | Applies the events in order up to this browser's failure; at most 64 services, and only their candidates stay |
| Discovery.HandledExactly | crates/pb-host/src/discovery.rs:198-231 | A service of our kind is tracked from when it is added, while there is room; one that is removed goes with its candidates; nothing else changes |
| Discovery.Lifetimes | crates/pb-host/src/discovery.rs:261-264 | A candidate lives for exactly thirty seconds, and a service is asked again after ten |
| Discovery.AvahiBackend.Poll | crates/pb-host/src/discovery.rs:172-196 | If any service is due exactly one such is asked and marked, its answer is cached, and only live candidates of tracked services stay |

## Left out

- Noise, pairing, TCP, D-Bus, descriptor passing and peer credentials: the session is a channel that may lose anything.
- The synchronous `import_descriptor`: a concurrent disconnect can remove its entry between reservation and file creation, so files and entries are only claimed to agree for `start_import`.
- Source validation, permissions and symbolic links of the import store and of the preference: file metadata checks.
- Who reports `state_changed` when two cancellations race: both may.
- The in-memory `execute_blake3`, which differs from the streaming form only in where the bytes come from.
- The placement decision before a remote execution, and `planner.rs` and `profile_store.rs`: decision tables; the decision is a parameter.
- Liveness of a ledger full of unresolved reserves: the host refuses by design.
- That Degraded becomes Available only after a new proof: the renewal path checks and republishes in two locked sections.
- The reason carried by a status or by a failed execution.
- Command line, web bridge, frontend and the JNI wrappers.
- Reconcile.Manager.ReconcileCleanup: no new reserve is sent under the manager's own lease meanwhile, because a thread of another session is refused by `require_current` (crates/pb-host/src/auto_use.rs:1565-1571) and those of the manager's own session begin only once it is published. Buffers of the start are dropped with their session and are not part of the promise.
- RemoteExecution.RemoteHost.ExecuteRemote: the ledger clause holds for a ledger nobody else edits during the call; edits by other threads are the subject of ProtocolRuns.NoOrphanedReservation.
- Admission.LocalAdmissionGate.TryAcquire: bounds the number of lost exchanges by a parameter, because the loop of the source need not end.
- Admission.LocalAdmissionGate.Authenticate: inherits that bound; a client that gives up in this way holds no slot.
- Preference.ConfigStore.LosePower: keeps no leftover temporary files, which are never read.
