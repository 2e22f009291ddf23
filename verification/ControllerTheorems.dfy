/** Runs of the controller: availability, stale sessions, disabling, and observations. */
module ControllerTheorems {
  import opened Basics
  import opened Controller
  import opened ControllerRuns

  predicate Run(s: Sys, steps: seq<Step>)
    decreases |steps|
  {
    steps == [] || (Enabled(s, steps[0]) && Run(Next(s, steps[0]), steps[1..]))
  }

  function After(s: Sys, steps: seq<Step>): Sys
    requires Run(s, steps)
    decreases |steps|
  {
    if steps == [] then s else After(Next(s, steps[0]), steps[1..])
  }

  lemma {:induction false} RunKeeps(s: Sys, steps: seq<Step>)
    requires Inv(s) && Run(s, steps)
    ensures Inv(After(s, steps))
    decreases |steps|
  {
    if steps != [] {
      StepKeeps(s, steps[0]);
      RunKeeps(Next(s, steps[0]), steps[1..]);
    }
  }

  /** In every reachable state: available means enabled with an active context of the current
      session and epoch; disabled means off, with nothing open. */
  lemma StatusIsHonest(steps: seq<Step>)
    requires Run(Initial(), steps)
    ensures var d := After(Initial(), steps).data;
            && (d.state == Available ==>
                  d.enabled && d.active.Some? && IsCurrent(d, d.active.value.identity))
            && (!d.enabled ==> d.state == Off && d.active.None? && d.session.None?)
  {
    StartOk();
    RunKeeps(Initial(), steps);
  }

  // ----- Stale sessions ----------------------------------------------------------------------

  /** The identity was handed out and is not the current session. */
  predicate Over(d: Data, id: Identity) { id.serial <= d.nextSerial && d.session != Some(id) }

  lemma StepOver(s: Sys, step: Step, id: Identity)
    requires Enabled(s, step) && Over(s.data, id)
    ensures Over(Next(s, step).data, id)
  {
  }

  lemma {:induction false} RunOver(s: Sys, steps: seq<Step>, id: Identity)
    requires Run(s, steps) && Over(s.data, id)
    ensures Over(After(s, steps).data, id)
    decreases |steps|
  {
    if steps != [] {
      StepOver(s, steps[0], id);
      RunOver(Next(s, steps[0]), steps[1..], id);
    }
  }

  /** Whatever a session does after it is over, and whenever, changes nothing. */
  lemma StaleCallsChangeNothing(s: Sys, steps: seq<Step>, id: Identity, lease: LeaseContext,
                                flag: bool, reason: string, now: nat)
    requires Run(s, steps) && Over(s.data, id)
    ensures var d := After(s, steps).data;
            && !IsCurrent(d, id)
            && Publishing(d, id, lease, flag) == d
            && Losing(d, id) == d
            && Degrading(d, id) == d
            && Clearing(d, id) == d
            && RecordingLease(d, id, lease) == d
            && RecordingNoLease(d, id, reason) == d
            && RecordingProof(d, id, lease, flag, now) == d
  {
    RunOver(s, steps, id);
  }

  /** A new session differs from all earlier ones exactly while serials have not run out. */
  lemma NewSessionIsFresh(d: Data, epoch: nat)
    requires d.enabled && d.epoch == epoch && d.nextSerial <= U64_MAX
    ensures (forall id: Identity | id.serial <= d.nextSerial :: Opening(d, epoch).1 != Some(id)) <==>
              d.nextSerial < U64_MAX
  {
    if d.nextSerial == U64_MAX {
      var id := Identity(epoch, d.nextSerial);
      assert id.serial <= d.nextSerial && Opening(d, epoch).1 == Some(id);
    }
  }

  // ----- Disable wins ------------------------------------------------------------------------

  /** After a disable nothing but an enable leaves Off. */
  lemma {:induction false} DisableWins(s: Sys, steps: seq<Step>)
    requires Inv(s) && !s.data.enabled && Run(s, steps) && Enable !in steps
    ensures var d := After(s, steps).data;
            !d.enabled && d.state == Off && d.active.None? && d.session.None?
    decreases |steps|
  {
    if steps != [] {
      StepKeeps(s, steps[0]);
      assert steps[0] != Enable;
      DisableWins(Next(s, steps[0]), steps[1..]);
    }
  }

  /** No request of a session that a disable ended ever passes its check again, not even
      after the controller is enabled again. */
  lemma DisabledSessionsStayRefused(s: Sys, steps: seq<Step>, id: Identity)
    requires Inv(s) && Enabled(s, Disable) && Run(Next(s, Disable), steps) && id.serial <= s.data.nextSerial
    ensures !Next(s, Disable).data.enabled && !IsCurrent(After(Next(s, Disable), steps).data, id)
  {
    RunOver(Next(s, Disable), steps, id);
  }

  // ----- Observations --------------------------------------------------------------------------

  /** An active lease was acknowledged on the current session and has not run out. */
  lemma ActiveIsBacked(s: Sys, now: nat)
    requires Inv(s) && GateObservations(s.data, s.clients, now).lease.state == ACTIVE
    ensures exists a ::
          && a in s.acks && IsCurrent(s.data, a.identity) && SessionCurrent(s.data, s.clients, a.identity)
          && now < a.lease.notAfter
  {
    assert Active(s.data.lease.identity.value, s.data.lease.lease.value) in s.acks;
  }

  /** A fresh pass is backed, at the same instant, by an active lease of the same session,
      lease and incarnation, and by a passed probe at most two seconds old. */
  lemma FreshPassIsBacked(s: Sys, now: nat)
    requires Inv(s) && GateObservations(s.data, s.clients, now).proof.state == FRESH_PASS
    ensures GateObservations(s.data, s.clients, now).lease.state == ACTIVE
    ensures s.data.lease.identity == s.data.session && s.data.lease.lease.Some?
    ensures exists p: Pass | p in s.passes ::
              && s.data.session == Some(p.identity) && IsCurrent(s.data, p.identity)
              && SessionCurrent(s.data, s.clients, p.identity)
              && SameLease(s.data.lease.lease, Some(p.lease)) && Age(p.at, now) <= ADMISSION_PROOF_MAX_AGE
  {
    assert Pass(s.data.proof.identity.value, s.data.proof.lease.value, s.data.proof.at.value) in s.passes;
  }

  predicate Records(step: Step) { step.SeeLease? || step.SeeProof? || step.SeeDiscovery? }

  ghost predicate LeaseDecays(s: Sys, now: nat, s': Sys, later: nat) {
    GateObservations(s'.data, s'.clients, later).lease.state == ACTIVE ==>
      GateObservations(s.data, s.clients, now).lease.state == ACTIVE && s.data.lease == s'.data.lease
  }

  ghost predicate ProofDecays(s: Sys, now: nat, s': Sys, later: nat) {
    GateObservations(s'.data, s'.clients, later).proof.state == FRESH_PASS ==>
      GateObservations(s.data, s.clients, now).proof.state == FRESH_PASS && s.data.proof == s'.data.proof
  }

  ghost predicate DiscoveryDecays(s: Sys, now: nat, s': Sys, later: nat) {
    GateObservations(s'.data, s'.clients, later).discovery.state == FRESH_HINT ==>
      GateObservations(s.data, s.clients, now).discovery.state == FRESH_HINT
  }

  /** What one instant shows, an earlier one showed too. */
  ghost predicate Decays(s: Sys, now: nat, s': Sys, later: nat) {
    LeaseDecays(s, now, s', later) && ProofDecays(s, now, s', later) && DiscoveryDecays(s, now, s', later)
  }

  lemma LeaseDecayStep(s: Sys, step: Step, now: nat)
    requires Inv(s) && Enabled(s, step) && !Records(step)
    ensures LeaseDecays(s, now, Next(s, step), now)
  {
  }

  lemma ProofDecayStep(s: Sys, step: Step, now: nat)
    requires Inv(s) && Enabled(s, step) && !Records(step)
    ensures ProofDecays(s, now, Next(s, step), now)
  {
  }

  lemma DecayStep(s: Sys, step: Step, now: nat)
    requires Inv(s) && Enabled(s, step) && !Records(step)
    ensures Decays(s, now, Next(s, step), now)
  {
    LeaseDecayStep(s, step, now);
    ProofDecayStep(s, step, now);
  }

  lemma DecayTime(s: Sys, now: nat, later: nat)
    requires now <= later && Inv(s)
    ensures Decays(s, now, s, later)
  {
  }

  /** Without a new record, neither time nor any other step brings an observation back. */
  lemma {:induction false} ObservationsOnlyDecay(s: Sys, steps: seq<Step>, now: nat, later: nat)
    requires Inv(s) && Run(s, steps) && now <= later
    requires forall i | 0 <= i < |steps| :: !Records(steps[i])
    ensures Decays(s, now, After(s, steps), later)
    decreases |steps|
  {
    if steps == [] {
      DecayTime(s, now, later);
    } else {
      var s1 := Next(s, steps[0]);
      DecayStep(s, steps[0], now);
      StepKeeps(s, steps[0]);
      ObservationsOnlyDecay(s1, steps[1..], now, later);
    }
  }
}
