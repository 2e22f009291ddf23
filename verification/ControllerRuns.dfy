/** Manager, operation threads, user and clients interleaved: what every run keeps. */
module ControllerRuns {
  import opened Basics
  import opened Controller

  /** Where the manager thread is. `Leaving` has done all but clear its session. */
  datatype Manager =
    | Idle
    | Running(epoch: nat)
    | Awaiting(id: Identity)
    | Preparing(id: Identity)
    | Serving(id: Identity)
    | Leaving(id: Identity)

  /** `published` holds every context an operation thread may still have a copy of;
      `acks` and `passes` record the leases acknowledged and the probes passed. */
  datatype Sys = Sys(data: Data, clients: Clients, manager: Manager, published: set<Active>,
                     acks: set<Active>, passes: set<Pass>)

  datatype Pass = Pass(identity: Identity, lease: LeaseContext, at: nat)

  datatype Step =
    | Enable
    | Disable
    | Wake
    | Sleep
    | SetPhase(state: State)
    | SeeDiscovery(gate: Gate, now: nat)
    | Connect
    | Proceed
    | SeeLease(lease: LeaseContext)
    | SeeNoLease(reason: string)
    | SeeProof(lease: LeaseContext, passed: bool, now: nat)
    | Publish(lease: LeaseContext)
    | Demote
    | Lose
    | GiveUp
    | Clear
    | Authenticate(serial: nat)
    | Drop(serial: nat)
    | OperationLost(active: Active)
    | OperationDegraded(active: Active)

  predicate HasSession(m: Manager) { m.Awaiting? || m.Preparing? || m.Serving? || m.Leaving? }

  predicate AtWork(m: Manager) { m.Preparing? || m.Serving? }

  predicate EpochOver(d: Data, epoch: nat) { !d.enabled || d.epoch != epoch }

  predicate Enabled(s: Sys, step: Step) {
    match step
    case Enable => s.data.epoch < U64_MAX
    case Disable => s.data.epoch < U64_MAX
    case Wake => s.manager.Idle? && s.data.enabled
    case Sleep => s.manager.Running? && EpochOver(s.data, s.manager.epoch)
    case SetPhase(state) =>
      && (s.manager.Running? || s.manager.Preparing?)
      && state != Available && state != Off
    case SeeDiscovery(_, _) => s.manager.Running?
    case Connect => s.manager.Running? && s.data.nextSerial < U64_MAX
    case Proceed => s.manager.Awaiting? && s.manager.id.serial in s.clients && s.clients[s.manager.id.serial] != Pending
    case SeeLease(_) => AtWork(s.manager)
    case SeeNoLease(_) => AtWork(s.manager)
    case SeeProof(_, _, _) => AtWork(s.manager)
    case Publish(_) => AtWork(s.manager)
    case Demote => s.manager.Serving?
    case Lose => s.manager.Serving?
    case GiveUp =>
      s.manager.Awaiting? || s.manager.Preparing? ||
      (s.manager.Serving? && EpochOver(s.data, s.manager.id.epoch))
    case Clear => s.manager.Leaving?
    case Authenticate(n) => n in s.clients && s.clients[n] == Pending
    case Drop(n) => n in s.clients
    case OperationLost(a) => a in s.published
    case OperationDegraded(a) => a in s.published
  }

  function PhaseEpoch(m: Manager): nat
    requires m.Running? || m.Preparing?
  {
    if m.Running? then m.epoch else m.id.epoch
  }

  function Connected(s: Sys): Sys
    requires s.manager.Running?
  {
    var (d, id) := Opening(s.data, s.manager.epoch);
    if id.None? then s.(manager := Idle)
    else s.(data := d, clients := s.clients[id.value.serial := Pending], manager := Awaiting(id.value))
  }

  function Published(s: Sys, lease: LeaseContext): Sys
    requires AtWork(s.manager)
  {
    var id := s.manager.id;
    s.(data := Publishing(s.data, id, lease, id.serial in s.clients && s.clients[id.serial] == Authenticated),
       manager := Serving(id), published := s.published + {Active(id, lease)})
  }

  function Next(s: Sys, step: Step): Sys
    requires Enabled(s, step)
  {
    match step
    case Enable => s.(data := Enabling(s.data))
    case Disable => s.(data := Disabling(s.data))
    case Wake => s.(manager := Running(s.data.epoch))
    case Sleep => s.(manager := Idle)
    case SetPhase(state) => s.(data := Phasing(s.data, PhaseEpoch(s.manager), state))
    case SeeDiscovery(gate, now) => s.(data := RecordingDiscovery(s.data, s.manager.epoch, gate, now))
    case Connect => Connected(s)
    case Proceed => s.(manager := Preparing(s.manager.id))
    case SeeLease(lease) =>
      s.(data := RecordingLease(s.data, s.manager.id, lease), acks := s.acks + {Active(s.manager.id, lease)})
    case SeeNoLease(reason) => s.(data := RecordingNoLease(s.data, s.manager.id, reason))
    case SeeProof(lease, passed, now) =>
      s.(data := RecordingProof(s.data, s.manager.id, lease, passed, now),
         passes := if passed then s.passes + {Pass(s.manager.id, lease, now)} else s.passes)
    case Publish(lease) => Published(s, lease)
    case Demote => s.(data := Degrading(s.data, s.manager.id))
    case Lose => s.(data := Losing(s.data, s.manager.id), manager := Leaving(s.manager.id))
    case GiveUp => s.(manager := Leaving(s.manager.id))
    case Clear => s.(data := Clearing(s.data, s.manager.id), manager := Running(s.manager.id.epoch))
    case Authenticate(n) => s.(clients := s.clients[n := Authenticated])
    case Drop(n) => s.(clients := s.clients[n := Lost])
    case OperationLost(a) => s.(data := Losing(s.data, a.identity))
    case OperationDegraded(a) => s.(data := Degrading(s.data, a.identity))
  }

  // ----- The invariant -----------------------------------------------------------------------

  ghost predicate ManagerOk(s: Sys) {
    && (s.data.session.Some? ==> HasSession(s.manager) && s.manager.id == s.data.session.value)
    && (s.data.session.Some? && s.data.state == Available ==> s.manager.Serving?)
    && (HasSession(s.manager) ==> s.manager.id.serial <= s.data.nextSerial && s.manager.id.serial in s.clients)
    && (AtWork(s.manager) ==> s.clients[s.manager.id.serial] != Pending)
    && (forall a | a in s.published :: a.identity.serial <= s.data.nextSerial)
  }

  /** A lease entry that claims something carries what the claim rests on. */
  ghost predicate LeaseEntryOk(s: Sys) {
    && (s.data.lease.gate.state == ACTIVE ==>
          && s.data.lease.identity.Some? && s.data.lease.lease.Some?
          && Active(s.data.lease.identity.value, s.data.lease.lease.value) in s.acks)
    && (s.data.lease.identity.Some? ==> Seen(s, s.data.lease.identity.value))
    && s.data.lease.gate.state != FRESH_PASS
  }

  /** And so does a proof entry. */
  ghost predicate ProofEntryOk(s: Sys) {
    && (s.data.proof.gate.state == FRESH_PASS ==>
          && s.data.proof.at.Some? && s.data.proof.identity.Some? && s.data.proof.lease.Some?
          && Pass(s.data.proof.identity.value, s.data.proof.lease.value, s.data.proof.at.value) in s.passes)
    && (s.data.proof.identity.Some? ==> Seen(s, s.data.proof.identity.value))
  }

  ghost predicate EntriesOk(s: Sys) {
    LeaseEntryOk(s) && ProofEntryOk(s) && s.data.discoveryUnknown.state == UNKNOWN
  }

  /** The identity was handed out, and its client has been authenticated. */
  ghost predicate Seen(s: Sys, id: Identity) {
    id.serial <= s.data.nextSerial && id.serial in s.clients && s.clients[id.serial] != Pending
  }

  ghost predicate Inv(s: Sys) { StatusOk(s.data) && ManagerOk(s) && EntriesOk(s) }

  function Initial(): Sys { Sys(Start(), map[], Idle, {}, {}, {}) }

  lemma StartOk()
    ensures Inv(Initial())
  {
  }

  lemma StatusKeeps(s: Sys, step: Step)
    requires Inv(s) && Enabled(s, step)
    ensures StatusOk(Next(s, step).data)
  {
  }

  lemma ManagerKeeps(s: Sys, step: Step)
    requires Inv(s) && Enabled(s, step)
    ensures ManagerOk(Next(s, step))
  {
  }

  /** Steps that record an observation. */
  predicate Notes(step: Step) { step.SeeDiscovery? || step.SeeLease? || step.SeeNoLease? || step.SeeProof? }

  /** Other steps leave an entry as it is, or forget it. */
  lemma EntriesStay(s: Sys, step: Step)
    requires Enabled(s, step) && !Notes(step)
    ensures var d, d' := s.data, Next(s, step).data;
            && (d'.lease == d.lease ||
                    (d'.lease.identity.None? && d'.lease.gate.state != ACTIVE && d'.lease.gate.state != FRESH_PASS))
            && (d'.proof == d.proof || (d'.proof.identity.None? && d'.proof.gate.state != FRESH_PASS))
            && (d'.discoveryUnknown == d.discoveryUnknown || d'.discoveryUnknown.state == UNKNOWN)
    ensures s.acks == Next(s, step).acks && s.passes == Next(s, step).passes
  {
  }

  /** What has been seen stays seen. */
  lemma SeenStays(s: Sys, step: Step, id: Identity)
    requires Enabled(s, step) && Seen(s, id)
    ensures Seen(Next(s, step), id)
  {
  }

  lemma NotesKeep(s: Sys, step: Step)
    requires Inv(s) && Enabled(s, step) && Notes(step)
    ensures EntriesOk(Next(s, step))
  {
  }

  lemma EntriesKeep(s: Sys, step: Step)
    requires Inv(s) && Enabled(s, step)
    ensures EntriesOk(Next(s, step))
  {
    if Notes(step) {
      NotesKeep(s, step);
    } else {
      EntriesStay(s, step);
      if s.data.lease.identity.Some? { SeenStays(s, step, s.data.lease.identity.value); }
      if s.data.proof.identity.Some? { SeenStays(s, step, s.data.proof.identity.value); }
    }
  }

  lemma StepKeeps(s: Sys, step: Step)
    requires Inv(s) && Enabled(s, step)
    ensures Inv(Next(s, step))
  {
    StatusKeeps(s, step);
    ManagerKeeps(s, step);
    EntriesKeep(s, step);
  }
}
