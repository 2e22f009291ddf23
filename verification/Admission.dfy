/** The lock-free client gate: any number of threads, each atomic operation a step. */
module Admission {
  import opened Basics

  const MAX_CLIENTS: nat := 8

  type Thread = nat

  /** What a thread is doing; `Slotted` and `Admitted` threads hold a permit. */
  datatype Stage = Trying(observed: nat) | Slotted | Admitted(id: nat)

  /** `active` is the shared counter, `nextId` the global one; `given` records the ids given. */
  datatype Gate = Gate(active: nat, nextId: nat, threads: map<Thread, Stage>, given: set<nat>)

  datatype Step =
    | Load(thread: Thread)
    | Exchange(thread: Thread, spurious: bool)
    | Identify(thread: Thread)
    | Drop(thread: Thread)

  predicate Enabled(g: Gate, step: Step) {
    match step
    case Load(t) => t !in g.threads
    case Exchange(t, _) => t in g.threads && g.threads[t].Trying?
    case Identify(t) => t in g.threads && g.threads[t].Slotted?
    case Drop(t) => t in g.threads && g.threads[t].Admitted?
  }

  /** The counter wraps below zero; that it never does is proved. */
  function Decremented(n: nat): nat { if n == 0 then U64_MAX else n - 1 }

  function Returned(g: Gate, t: Thread): Gate {
    g.(active := Decremented(g.active), threads := g.threads - {t})
  }

  /** One turn of the acquisition loop: full, taken, or seen to have changed. */
  function Exchanged(g: Gate, t: Thread, spurious: bool): Gate
    requires t in g.threads && g.threads[t].Trying?
  {
    var observed := g.threads[t].observed;
    if observed >= MAX_CLIENTS then g.(threads := g.threads - {t})
    else if g.active == observed && !spurious then
      g.(active := observed + 1, threads := g.threads[t := Slotted])
    else g.(threads := g.threads[t := Trying(g.active)])
  }

  /** An exhausted id counter returns the slot. */
  function Identified(g: Gate, t: Thread): Gate {
    if g.nextId >= U64_MAX then Returned(g, t)
    else
      g.(nextId := g.nextId + 1, threads := g.threads[t := Admitted(g.nextId)], given := g.given + {g.nextId})
  }

  function Next(g: Gate, step: Step): Gate
    requires Enabled(g, step)
  {
    match step
    case Load(t) => g.(threads := g.threads[t := Trying(g.active)])
    case Exchange(t, spurious) => Exchanged(g, t, spurious)
    case Identify(t) => Identified(g, t)
    case Drop(t) => Returned(g, t)
  }

  function Holders(g: Gate): set<Thread> { set t | t in g.threads && !g.threads[t].Trying? }

  /** The counter counts the permits; admitted clients have ids of their own. */
  ghost predicate Inv(g: Gate) {
    && g.active == |Holders(g)| <= MAX_CLIENTS
    && (forall t | t in g.threads && g.threads[t].Admitted? :: g.threads[t].id in g.given)
    && (forall t, u | t in g.threads && u in g.threads && t != u && g.threads[t].Admitted? && g.threads[u].Admitted? ::
          g.threads[t].id != g.threads[u].id)
    && (forall id | id in g.given :: id < g.nextId)
  }

  lemma HoldersAfter(g: Gate, step: Step)
    requires Enabled(g, step)
    ensures Holders(Next(g, step)) ==
            if step.Exchange? && g.threads[step.thread].observed < MAX_CLIENTS
               && g.active == g.threads[step.thread].observed && !step.spurious then Holders(g) + {step.thread}
            else if step.Drop? || (step.Identify? && g.nextId >= U64_MAX) then Holders(g) - {step.thread}
            else Holders(g)
  {
  }

  lemma StepKeeps(g: Gate, step: Step)
    requires Inv(g) && Enabled(g, step)
    ensures Inv(Next(g, step))
  {
    HoldersAfter(g, step);
  }

  predicate Run(g: Gate, steps: seq<Step>)
    decreases |steps|
  {
    steps == [] || (Enabled(g, steps[0]) && Run(Next(g, steps[0]), steps[1..]))
  }

  function After(g: Gate, steps: seq<Step>): Gate
    requires Run(g, steps)
    decreases |steps|
  {
    if steps == [] then g else After(Next(g, steps[0]), steps[1..])
  }

  /** In every interleaving the counter equals the permits outstanding, never above eight. */
  lemma {:induction false} CounterIsPermits(g: Gate, steps: seq<Step>)
    requires Inv(g) && Run(g, steps)
    ensures Inv(After(g, steps))
    ensures After(g, steps).active == |Holders(After(g, steps))| <= MAX_CLIENTS
    ensures g.given <= After(g, steps).given
    decreases |steps|
  {
    if steps != [] {
      StepKeeps(g, steps[0]);
      CounterIsPermits(Next(g, steps[0]), steps[1..]);
    }
  }

  /** No connection id is ever given twice. */
  lemma IdsAreNew(g: Gate, steps: seq<Step>, t: Thread)
    requires Inv(g) && Run(g, steps) && Enabled(After(g, steps), Identify(t))
    ensures var g' := Next(After(g, steps), Identify(t));
            t in g'.threads ==> g'.threads[t].Admitted? && g'.threads[t].id !in g.given
  {
    CounterIsPermits(g, steps);
  }

  lemma EmptyOk()
    ensures Inv(Gate(0, 1, map[], {}))
  {
    assert Holders(Gate(0, 1, map[], {})) == {};
  }

  datatype Acquisition = Acquired | Full | Contended

  /** The gate as one thread uses it, while the others take any steps. */
  class LocalAdmissionGate {
    var gate: Gate

    constructor ()
      ensures Inv(gate) && gate.active == 0
    {
      gate := Gate(0, 1, map[], {});
      new;
      EmptyOk();
    }

    method Interfere(t: Thread)
      requires Inv(gate)
      modifies this
      ensures Inv(gate) && (t in gate.threads <==> t in old(gate).threads)
      ensures t in gate.threads ==> gate.threads[t] == old(gate).threads[t]
      ensures old(gate).given <= gate.given
    {
      var steps: seq<Step> := *;
      for i := 0 to |steps|
        invariant Inv(gate) && (t in gate.threads <==> t in old(gate).threads)
        invariant t in gate.threads ==> gate.threads[t] == old(gate).threads[t]
        invariant old(gate).given <= gate.given
      {
        if steps[i].thread != t && Enabled(gate, steps[i]) {
          StepKeeps(gate, steps[i]);
          gate := Next(gate, steps[i]);
        }
      }
    }

    /** Takes a slot, or sees the gate full; `failures` bounds the exchanges that lose a race. */
    method TryAcquire(t: Thread, failures: nat) returns (permit: Acquisition)
      requires Inv(gate) && t !in gate.threads
      modifies this
      ensures Inv(gate) && old(gate).given <= gate.given
      ensures permit.Acquired? ==> t in gate.threads && gate.threads[t].Slotted?
      ensures permit.Full? ==> t !in gate.threads
      ensures permit.Contended? ==> t in gate.threads && gate.threads[t].Trying?
    {
      StepKeeps(gate, Load(t));
      gate := Next(gate, Load(t));
      var left := failures;
      while true
        invariant Inv(gate) && t in gate.threads && gate.threads[t].Trying? && old(gate).given <= gate.given
        decreases left
      {
        Interfere(t);
        var spurious: bool := *;
        StepKeeps(gate, Exchange(t, spurious));
        gate := Next(gate, Exchange(t, spurious));
        if t !in gate.threads { return Full; }
        if gate.threads[t].Slotted? { return Acquired; }
        if left == 0 { return Contended; }
        left := left - 1;
      }
    }

    /** Admits a client: it holds a slot and an id nobody ever had, or it holds nothing. */
    method Authenticate(t: Thread, failures: nat) returns (id: Option<nat>)
      requires Inv(gate) && t !in gate.threads
      modifies this
      ensures Inv(gate)
      ensures id.Some? ==> t in gate.threads && gate.threads[t] == Admitted(id.value) && id.value !in old(gate).given
      ensures id.None? && t in gate.threads ==> gate.threads[t].Trying?
    {
      var permit := TryAcquire(t, failures);
      if !permit.Acquired? { return None; }
      Interfere(t);
      StepKeeps(gate, Identify(t));
      gate := Next(gate, Identify(t));
      if t in gate.threads { id := Some(gate.threads[t].id); } else { id := None; }
    }
  }
}
