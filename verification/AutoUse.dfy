/** The controller's fields, updated in place under its lock. Every method states its new value
    as the step systems use it, and what that means for the threads that share it. */
module AutoUse {
  import opened Basics
  import opened Controller

  class AutoUseController {
    var enabled: bool
    var epoch: nat
    var nextSerial: nat
    var state: State
    var client: Option<nat>
    var session: Option<Identity>
    var active: Option<Active>
    var discovery: Option<Timed>
    var discoveryUnknown: Gate
    var lease: LeaseEntry
    var proof: ProofEntry

    function View(): Data
      reads this
    {
      Data(enabled, epoch, nextSerial, state, client, session, active, discovery, discoveryUnknown, lease, proof)
    }

    ghost predicate Valid()
      reads this
    {
      StatusOk(View()) && (proof.gate.state == FRESH_PASS ==> proof.at.Some?)
    }

    /** No session passes the check before a request, and nothing is observed. */
    ghost predicate Closed()
      reads this
    {
      && (forall id :: !IsCurrent(View(), id))
      && (forall clients, now :: Quiet(GateObservations(View(), clients, now)))
    }

    constructor ()
      ensures Valid() && Closed() && View() == Start()
    {
      enabled, epoch, nextSerial, state := false, 0, 0, Off;
      client, session, active := None, None, None;
      discovery, discoveryUnknown := None, NOT_OBSERVED;
      lease, proof := LeaseEntry(NOT_OBSERVED, None, None), ProofEntry(NOT_OBSERVED, None, None, None);
    }

    /** Turning on starts a new epoch with nothing carried over; turned on already, it does
        nothing. */
    method Enable()
      requires Valid()
      modifies this
      ensures Valid() && View() == Enabling(old(View()))
      ensures enabled && (old(enabled) ==> View() == old(View()))
      ensures !old(enabled) ==> Closed() && state == Discovering && (old(epoch) < U64_MAX ==> epoch > old(epoch))
    {
      if enabled { return; }
      enabled := true;
      epoch := Successor(epoch);
      state := Discovering;
      discovery, discoveryUnknown := None, EPOCH_INVALIDATED;
      lease, proof := LeaseEntry(NOT_OBSERVED, None, None), ProofEntry(NOT_OBSERVED, None, None, None);
    }

    /** Off, with nothing open and nothing observed. */
    method Disable()
      requires Valid()
      modifies this
      ensures Valid() && View() == Disabling(old(View()))
      ensures !enabled && state == Off && active.None? && session.None? && Closed()
      ensures forall clients, now ::
                GateObservations(View(), clients, now)
                == Gates(Gate(UNKNOWN, "EPOCH_INVALIDATED"), Gate(UNAVAILABLE, "AUTO_USE_DISABLED"),
                         Gate(UNKNOWN, "AUTO_USE_DISABLED"))
      ensures old(enabled) && old(epoch) < U64_MAX ==> epoch > old(epoch)
    {
      if !enabled && state == Off { return; }
      enabled := false;
      epoch := Successor(epoch);
      state := Off;
      active := None;
      session := None;
      discovery, discoveryUnknown := None, EPOCH_INVALIDATED;
      lease, proof := NoLease("AUTO_USE_DISABLED"), NoProof("AUTO_USE_DISABLED");
    }

    /** Opens a session for the manager's epoch, unless that is over. The new session is the
        current one, and while serials last it shuts out every earlier one. */
    method Open(expected: nat) returns (identity: Option<Identity>)
      requires Valid()
      modifies this
      ensures (View(), identity) == Opening(old(View()), expected)
      ensures old(session).None? ==> Valid()
      ensures identity.None? ==> View() == old(View())
      ensures identity.None? <==> !old(enabled) || old(epoch) != expected
      ensures identity.Some? ==> IsCurrent(View(), identity.value) && state == Authenticating
      ensures identity.Some? && old(nextSerial) < U64_MAX ==>
                forall id: Identity | id.serial <= old(nextSerial) :: !IsCurrent(View(), id)
    {
      if !enabled || epoch != expected { return None; }
      nextSerial := Successor(nextSerial);
      identity := Some(Identity(expected, nextSerial));
      client, session := Some(nextSerial), identity;
      state := Authenticating;
    }

    /** Available with this context exactly for the current, authenticated session; any other
        call changes nothing. */
    method PublishAvailable(id: Identity, context: LeaseContext, authenticated: bool)
      requires Valid()
      modifies this
      ensures Valid() && View() == Publishing(old(View()), id, context, authenticated)
      ensures IsCurrent(old(View()), id) && authenticated ==> state == Available && active == Some(Active(id, context))
      ensures !(IsCurrent(old(View()), id) && authenticated) ==> View() == old(View())
      ensures state == Available ==> active.Some? && IsCurrent(View(), active.value.identity)
      ensures forall clients, now ::
                GateObservations(View(), clients, now) == old(GateObservations(View(), clients, now))
    {
      if enabled && epoch == id.epoch && session == Some(id) && authenticated {
        active := Some(Active(id, context));
        state := Available;
      }
    }

    /** A stale session marks nothing. The current one is no longer available, but stays
        current, and what was observed of it stays observed. */
    method MarkConnectionLost(id: Identity)
      requires Valid()
      modifies this
      ensures Valid() && View() == Losing(old(View()), id)
      ensures !IsCurrent(old(View()), id) ==> View() == old(View())
      ensures IsCurrent(old(View()), id) ==> state == Reconnecting && active.None? && IsCurrent(View(), id)
      ensures forall clients, now ::
                GateObservations(View(), clients, now) == old(GateObservations(View(), clients, now))
    {
      if enabled && session == Some(id) {
        active := None;
        state := Reconnecting;
      }
    }

    /** As for a lost connection. */
    method MarkDegraded(id: Identity)
      requires Valid()
      modifies this
      ensures Valid() && View() == Degrading(old(View()), id)
      ensures !IsCurrent(old(View()), id) ==> View() == old(View())
      ensures IsCurrent(old(View()), id) ==> state == Degraded && active.None? && IsCurrent(View(), id)
      ensures forall clients, now ::
                GateObservations(View(), clients, now) == old(GateObservations(View(), clients, now))
    {
      if enabled && session == Some(id) {
        active := None;
        state := Degraded;
      }
    }

    /** The manager of an epoch that is over sets nothing. A phase ends availability and
        leaves the session alone. */
    method SetPhase(expected: nat, phase: State)
      requires Valid()
      modifies this
      ensures View() == Phasing(old(View()), expected, phase)
      ensures phase != Available && phase != Off ==> Valid()
      ensures !old(enabled) || old(epoch) != expected ==> View() == old(View())
      ensures old(enabled) && old(epoch) == expected ==> state == phase && active.None?
      ensures forall id :: IsCurrent(View(), id) <==> old(IsCurrent(View(), id))
    {
      if enabled && epoch == expected {
        active := None;
        state := phase;
      }
    }

    /** A stale session clears nothing. After the current one is cleared no session is current
        and nothing is observed. */
    method ClearSession(id: Identity)
      requires Valid()
      modifies this
      ensures View() == Clearing(old(View()), id) && state == old(state)
      ensures old(state) != Available ==> Valid()
      ensures !IsCurrent(old(View()), id) ==> View() == old(View())
      ensures IsCurrent(old(View()), id) ==> Closed() && active.None?
      ensures IsCurrent(old(View()), id) ==> forall clients, now ::
                GateObservations(View(), clients, now)
                == Gates(Gate(UNKNOWN, "EPOCH_INVALIDATED"), Gate(UNAVAILABLE, "SESSION_INVALIDATED"),
                         Gate(UNKNOWN, "SESSION_INVALIDATED"))
    {
      if session == Some(id) {
        client, session, active := None, None, None;
        discovery, discoveryUnknown := None, EPOCH_INVALIDATED;
        lease, proof := NoLease("SESSION_INVALIDATED"), NoProof("SESSION_INVALIDATED");
      }
    }

    /** What was seen shows for thirty seconds, and as stale from then on. */
    method RecordDiscovery(expected: nat, gate: Gate, now: nat) returns (recorded: bool)
      requires Valid()
      modifies this
      ensures Valid() && View() == RecordingDiscovery(old(View()), expected, gate, now)
      ensures !recorded ==> View() == old(View())
      ensures recorded ==> forall clients, later | later >= now ::
                GateObservations(View(), clients, later).discovery
                == if later - now <= 30_000 then gate else Gate(STALE, "OBSERVATION_EXPIRED")
    {
      recorded := enabled && epoch == expected;
      if recorded { discovery, discoveryUnknown := Some(Timed(gate, now)), NOT_OBSERVED; }
    }

    /** From now on the lease shows as active exactly while its session is authenticated and
        its deadline has not passed. */
    method RecordLeaseActive(id: Identity, context: LeaseContext)
      requires Valid()
      modifies this
      ensures Valid() && View() == RecordingLease(old(View()), id, context)
      ensures !IsCurrent(old(View()), id) ==> View() == old(View())
      ensures IsCurrent(old(View()), id) ==> forall clients: Clients, now: nat ::
                GateObservations(View(), clients, now).lease ==
                  if !(id.serial in clients && clients[id.serial] == Authenticated)
                  then Gate(UNAVAILABLE, "SESSION_INVALIDATED")
                  else if now >= context.notAfter then Gate(EXPIRED, "ACK_TTL_ELAPSED")
                  else Gate(ACTIVE, "C07_ACK_FRESH")
    {
      if enabled && session == Some(id) {
        lease := LeaseEntry(Gate(ACTIVE, "C07_ACK_FRESH"), Some(id), Some(context));
      }
    }

    /** From now on neither the lease nor any proof under it shows. */
    method RecordLeaseUnavailable(id: Identity, reason: string)
      requires Valid()
      modifies this
      ensures Valid() && View() == RecordingNoLease(old(View()), id, reason)
      ensures !IsCurrent(old(View()), id) ==> View() == old(View())
      ensures IsCurrent(old(View()), id) ==> forall clients, now ::
                GateObservations(View(), clients, now).lease == Gate(UNAVAILABLE, reason)
      ensures IsCurrent(old(View()), id) ==> forall clients, now ::
                GateObservations(View(), clients, now).proof.state != FRESH_PASS
    {
      if enabled && session == Some(id) { lease := NoLease(reason); }
    }

    /** A probe shows as passed exactly if it passed, for two seconds at most, and only with an
        active lease of the same id and incarnation. */
    method RecordAdmissionProof(id: Identity, context: LeaseContext, passed: bool, now: nat)
      requires Valid()
      modifies this
      ensures Valid() && View() == RecordingProof(old(View()), id, context, passed, now)
      ensures !IsCurrent(old(View()), id) ==> View() == old(View())
      ensures IsCurrent(old(View()), id) ==> forall clients: Clients, later | later >= now ::
                GateObservations(View(), clients, later).proof ==
                  if !(id.serial in clients && clients[id.serial] == Authenticated)
                  then Gate(UNKNOWN, "SESSION_INVALIDATED")
                  else if !(&& GateObservations(View(), clients, later).lease.state == ACTIVE && lease.lease.Some?
                            && lease.lease.value.id == context.id
                            && lease.lease.value.incarnation == context.incarnation)
                  then Gate(UNKNOWN, "LEASE_INVALIDATED")
                  else if later - now > 2_000 then Gate(STALE, "PROOF_EXPIRED")
                  else if passed then Gate(FRESH_PASS, "C08_C09_C10_PROBE_PASSED")
                  else Gate(FAILED, "C08_C09_C10_PROBE_FAILED")
    {
      if enabled && session == Some(id) {
        var gate := if passed then Gate(FRESH_PASS, "C08_C09_C10_PROBE_PASSED")
                    else Gate(FAILED, "C08_C09_C10_PROBE_FAILED");
        proof := ProofEntry(gate, Some(now), Some(id), Some(context));
      }
    }
  }
}
