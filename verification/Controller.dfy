/** The auto-use controller's data: every locked section as a function, and the class that
    performs them in place. Clients are named by the serial of their session. */
module Controller {
  import opened Basics

  const DISCOVERY_OBSERVATION_MAX_AGE: nat := 30_000
  const ADMISSION_PROOF_MAX_AGE: nat := 2_000

  datatype Identity = Identity(epoch: nat, serial: nat)

  datatype State =
    | Off | Discovering | Connecting | Authenticating | AcquiringAuthority | CheckingReadiness
    | Available | Degraded | Unavailable | Reconnecting

  datatype LeaseContext = LeaseContext(id: nat, incarnation: nat, notAfter: nat)

  datatype Active = Active(identity: Identity, lease: LeaseContext)

  datatype GateState =
    | UNKNOWN | UNAVAILABLE | ACTIVE | EXPIRED | FRESH_PASS | FAILED | STALE
    | FRESH_HINT | NO_HINT | BACKEND_UNAVAILABLE

  datatype Gate = Gate(state: GateState, reason: string)

  datatype Timed = Timed(gate: Gate, at: nat)

  datatype LeaseEntry = LeaseEntry(gate: Gate, identity: Option<Identity>, lease: Option<LeaseContext>)

  datatype ProofEntry =
    ProofEntry(gate: Gate, at: Option<nat>, identity: Option<Identity>, lease: Option<LeaseContext>)

  datatype Data = Data(
    enabled: bool,
    epoch: nat,
    nextSerial: nat,
    state: State,
    client: Option<nat>,
    session: Option<Identity>,
    active: Option<Active>,
    discovery: Option<Timed>,
    discoveryUnknown: Gate,
    lease: LeaseEntry,
    proof: ProofEntry)

  /** A client authenticates once and is lost once. */
  datatype Client = Pending | Authenticated | Lost

  type Clients = map<nat, Client>

  const NOT_OBSERVED := Gate(UNKNOWN, "NOT_OBSERVED")
  const EPOCH_INVALIDATED := Gate(UNKNOWN, "EPOCH_INVALIDATED")

  function NoLease(reason: string): LeaseEntry { LeaseEntry(Gate(UNAVAILABLE, reason), None, None) }

  function NoProof(reason: string): ProofEntry { ProofEntry(Gate(UNKNOWN, reason), None, None, None) }

  function Start(): Data {
    Data(false, 0, 0, Off, None, None, None, None, NOT_OBSERVED,
         LeaseEntry(NOT_OBSERVED, None, None), ProofEntry(NOT_OBSERVED, None, None, None))
  }

  /** `saturating_add(1).max(1)` on 64 bits. */
  function Successor(n: nat): (m: nat)
    ensures n <= U64_MAX ==> m <= U64_MAX && (m > n <==> n < U64_MAX)
  {
    if n >= U64_MAX then n else n + 1
  }

  // ----- Locked sections -------------------------------------------------------------------

  function Enabling(d: Data): Data {
    if d.enabled then d
    else
      d.(enabled := true, epoch := Successor(d.epoch), state := Discovering,
         discovery := None, discoveryUnknown := EPOCH_INVALIDATED,
         lease := LeaseEntry(NOT_OBSERVED, None, None), proof := ProofEntry(NOT_OBSERVED, None, None, None))
  }

  function Disabling(d: Data): Data {
    if !d.enabled && d.state == Off then d
    else
      d.(enabled := false, epoch := Successor(d.epoch), state := Off, active := None, session := None,
         discovery := None, discoveryUnknown := EPOCH_INVALIDATED,
         lease := NoLease("AUTO_USE_DISABLED"), proof := NoProof("AUTO_USE_DISABLED"))
  }

  /** A new session for the epoch, unless the epoch is over. */
  function Opening(d: Data, epoch: nat): (Data, Option<Identity>) {
    if !d.enabled || d.epoch != epoch then (d, None)
    else
      var id := Identity(epoch, Successor(d.nextSerial));
      (d.(nextSerial := id.serial, client := Some(id.serial), session := Some(id), state := Authenticating), Some(id))
  }

  predicate Holds(d: Data, id: Identity) { d.enabled && d.session == Some(id) }

  function Publishing(d: Data, id: Identity, lease: LeaseContext, authenticated: bool): Data {
    if Holds(d, id) && d.epoch == id.epoch && authenticated then
      d.(active := Some(Active(id, lease)), state := Available)
    else d
  }

  function Losing(d: Data, id: Identity): Data {
    if Holds(d, id) then d.(active := None, state := Reconnecting) else d
  }

  function Degrading(d: Data, id: Identity): Data {
    if Holds(d, id) then d.(active := None, state := Degraded) else d
  }

  function Phasing(d: Data, epoch: nat, state: State): Data {
    if d.enabled && d.epoch == epoch then d.(active := None, state := state) else d
  }

  function Clearing(d: Data, id: Identity): Data {
    if d.session == Some(id) then
      d.(client := None, session := None, active := None,
         discovery := None, discoveryUnknown := EPOCH_INVALIDATED,
         lease := NoLease("SESSION_INVALIDATED"), proof := NoProof("SESSION_INVALIDATED"))
    else d
  }

  function RecordingDiscovery(d: Data, epoch: nat, gate: Gate, now: nat): Data {
    if d.enabled && d.epoch == epoch then
      d.(discovery := Some(Timed(gate, now)), discoveryUnknown := NOT_OBSERVED)
    else d
  }

  function RecordingLease(d: Data, id: Identity, lease: LeaseContext): Data {
    if Holds(d, id) then d.(lease := LeaseEntry(Gate(ACTIVE, "C07_ACK_FRESH"), Some(id), Some(lease))) else d
  }

  function RecordingNoLease(d: Data, id: Identity, reason: string): Data {
    if Holds(d, id) then d.(lease := NoLease(reason)) else d
  }

  function RecordingProof(d: Data, id: Identity, lease: LeaseContext, passed: bool, now: nat): Data {
    if Holds(d, id) then
      d.(proof := ProofEntry(if passed then Gate(FRESH_PASS, "C08_C09_C10_PROBE_PASSED")
                             else Gate(FAILED, "C08_C09_C10_PROBE_FAILED"), Some(now), Some(id), Some(lease)))
    else d
  }

  /** The check before every request on a session. */
  predicate IsCurrent(d: Data, id: Identity) { Holds(d, id) && d.epoch == id.epoch }

  /** Disabled is Off with nothing open; available means an active context of the current
      session and epoch. */
  ghost predicate StatusOk(d: Data) {
    && (!d.enabled ==> d.state == Off && d.active.None? && d.session.None?)
    && (d.enabled ==> d.state != Off)
    && (d.state == Available <==> d.active.Some?)
    && (d.active.Some? ==> d.session == Some(d.active.value.identity))
    && (d.session.Some? ==> d.session.value.epoch == d.epoch && d.client == Some(d.session.value.serial))
  }

  // ----- Observations ------------------------------------------------------------------------

  predicate SessionCurrent(d: Data, clients: Clients, id: Identity) {
    d.session == Some(id) && d.client.Some? && d.client.value in clients && clients[d.client.value] == Authenticated
  }

  function LeaseGate(d: Data, clients: Clients, now: nat): Gate {
    if d.lease.gate.state != ACTIVE then d.lease.gate
    else if d.lease.identity.None? then Gate(UNAVAILABLE, "SESSION_INVALIDATED")
    else if !SessionCurrent(d, clients, d.lease.identity.value) then Gate(UNAVAILABLE, "SESSION_INVALIDATED")
    else if d.lease.lease.None? || now >= d.lease.lease.value.notAfter then Gate(EXPIRED, "ACK_TTL_ELAPSED")
    else d.lease.gate
  }

  /** The two entries name one lease of one incarnation. */
  predicate SameLease(a: Option<LeaseContext>, b: Option<LeaseContext>) {
    match (a, b)
    case (Some(x), Some(y)) => x.id == y.id && x.incarnation == y.incarnation
    case (None, None) => true
    case _ => false
  }

  function ProofGate(d: Data, clients: Clients, now: nat): Gate {
    if d.proof.at.None? then d.proof.gate
    else if d.proof.identity.None? then Gate(UNKNOWN, "SESSION_INVALIDATED")
    else if d.session != d.proof.identity then
      Gate(UNKNOWN, if d.session.Some? then "IDENTITY_OR_INCARNATION_CHANGED" else "SESSION_INVALIDATED")
    else if !SessionCurrent(d, clients, d.proof.identity.value) then Gate(UNKNOWN, "SESSION_INVALIDATED")
    else if LeaseGate(d, clients, now).state != ACTIVE || !SameLease(d.lease.lease, d.proof.lease) then
      Gate(UNKNOWN, "LEASE_INVALIDATED")
    else if Age(d.proof.at.value, now) > ADMISSION_PROOF_MAX_AGE then Gate(STALE, "PROOF_EXPIRED")
    else d.proof.gate
  }

  function DiscoveryGate(d: Data, now: nat): Gate {
    if d.discovery.None? then d.discoveryUnknown
    else if Age(d.discovery.value.at, now) <= DISCOVERY_OBSERVATION_MAX_AGE then d.discovery.value.gate
    else Gate(STALE, "OBSERVATION_EXPIRED")
  }

  datatype Gates = Gates(discovery: Gate, lease: Gate, proof: Gate)

  function GateObservations(d: Data, clients: Clients, now: nat): Gates {
    if !d.enabled then
      Gates(EPOCH_INVALIDATED, Gate(UNAVAILABLE, "AUTO_USE_DISABLED"), Gate(UNKNOWN, "AUTO_USE_DISABLED"))
    else Gates(DiscoveryGate(d, now), LeaseGate(d, clients, now), ProofGate(d, clients, now))
  }

  /** Nothing is observed that anyone could rely on. */
  predicate Quiet(g: Gates) {
    g.lease.state != ACTIVE && g.proof.state != FRESH_PASS && g.discovery.state != FRESH_HINT
  }
}
