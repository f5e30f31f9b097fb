/** All gates of one client and who holds or waits for them.

The gates themselves only know a flag and a queue. Each request keeps its own record: the gates it has taken and
whether it sits in a queue (`Queued`) or was handed a permit it has not noticed yet (`Granted`).
 */
module GateTable {
  import opened Base
  import FifoGate

  datatype GateId = BucketGate(id: nat) | ValidationGate | PacerGate

  datatype Wait = NotWaiting | Queued(gate: GateId) | Granted(gate: GateId)

  datatype Agent = Agent(holds: set<GateId>, wait: Wait)

  type Gate = FifoGate.Gate<RequestId>

  /** `owner` is a history variable: it names the request that was last given the permit of each held gate. No step
      reads it; the invariant ties it to the records of the requests. */
  datatype Table = Table(
    gates: map<GateId, Gate>,
    agents: map<RequestId, Agent>,
    owner: map<GateId, RequestId>,
    maxWaiters: nat)

  const IDLE: Agent := Agent({}, NotWaiting)

  ghost predicate Owns(a: Agent, g: GateId) {
    g in a.holds || a.wait == Granted(g)
  }

  // ----- the critical sections, as they change the gate and the records -----

  function AddGate(t: Table, g: GateId): Table {
    t.(gates := t.gates[g := FifoGate.Free()])
  }

  function AddAgent(t: Table, r: RequestId): Table {
    t.(agents := t.agents[r := IDLE])
  }

  function RemoveAgent(t: Table, r: RequestId): Table {
    t.(agents := t.agents - {r})
  }

  function Entry(t: Table, r: RequestId, g: GateId): FifoGate.Entry
    requires g in t.gates
  {
    FifoGate.Enter(t.gates[g], r, t.maxWaiters).1
  }

  function Enter(t: Table, r: RequestId, g: GateId): Table
    requires r in t.agents && g in t.gates
  {
    var (gate, entry) := FifoGate.Enter(t.gates[g], r, t.maxWaiters);
    var a := t.agents[r];
    t.(gates := t.gates[g := gate],
       agents := t.agents[r := match entry
                               case Got => a.(holds := a.holds + {g})
                               case Queued => a.(wait := Queued(g))
                               case Full => a],
       owner := if entry == FifoGate.Got then t.owner[g := r] else t.owner)
  }

  /** A request in a queue notices that it was handed the permit. */
  function Wake(t: Table, r: RequestId, g: GateId): Table
    requires r in t.agents
  {
    var a := t.agents[r];
    t.(agents := t.agents[r := Agent(a.holds + {g}, NotWaiting)])
  }

  /** A queued request gives up. A request that was already granted notices it (`Wake`) and releases instead. */
  function Cancel(t: Table, r: RequestId, g: GateId): Table
    requires r in t.agents && g in t.gates
  {
    t.(gates := t.gates[g := FifoGate.Cancel(t.gates[g], r)],
       agents := t.agents[r := t.agents[r].(wait := NotWaiting)])
  }

  function Release(t: Table, r: RequestId, g: GateId): Table
    requires r in t.agents && g in t.gates
  {
    var (gate, next) := FifoGate.Release(t.gates[g]);
    var agents := t.agents[r := t.agents[r].(holds := t.agents[r].holds - {g})];
    t.(gates := t.gates[g := gate],
       agents := if next.Some? && next.value in agents
                 then agents[next.value := agents[next.value].(wait := Granted(g))]
                 else agents,
       owner := if next.Some? then t.owner[g := next.value] else t.owner - {g})
  }

  // ----- the invariant -----

  /** A request's own record says that it owns a permit exactly when the permit was last given to it. */
  ghost predicate RecordsExact(t: Table) {
    && (forall r, g :: r in t.agents ==> (Owns(t.agents[r], g) <==> g in t.owner && t.owner[g] == r))
    && (forall r :: r in t.agents && t.agents[r].wait != NotWaiting ==> t.agents[r].wait.gate !in t.agents[r].holds)
  }

  /** A gate is held exactly while its permit has an owner. */
  ghost predicate HeldExact(t: Table) {
    && (forall g :: g in t.gates ==> (t.gates[g].held <==> g in t.owner))
    && (forall g :: g in t.owner ==> g in t.gates && t.owner[g] in t.agents)
  }

  /** The queue of a gate lists exactly the requests that wait for it. */
  ghost predicate QueuesExact(t: Table) {
    && (forall g, r :: g in t.gates && r in t.gates[g].waiters ==> r in t.agents && t.agents[r].wait == Queued(g))
    && (forall r, g :: r in t.agents && t.agents[r].wait == Queued(g) ==> g in t.gates && r in t.gates[g].waiters)
  }

  /** Queues are bounded, hold no request twice, and are empty while the gate is free. */
  ghost predicate QueuesBounded(t: Table) {
    forall g :: g in t.gates ==>
                  && |t.gates[g].waiters| <= t.maxWaiters
                  && FifoGate.Distinct(t.gates[g].waiters)
                  && (!t.gates[g].held ==> t.gates[g].waiters == [])
  }

  ghost predicate Inv(t: Table) {
    RecordsExact(t) && HeldExact(t) && QueuesExact(t) && QueuesBounded(t)
  }

  /** The invariant without the history variable: a gate is held if and only if some request owns its permit, and
      then exactly one does; a free gate has no waiters. */
  lemma HeldIffOneOwner(t: Table, g: GateId)
    requires Inv(t) && g in t.gates
    ensures t.gates[g].held <==> exists r :: r in t.agents && Owns(t.agents[r], g)
    ensures forall r, s :: r in t.agents && s in t.agents && Owns(t.agents[r], g) && Owns(t.agents[s], g) ==> r == s
    ensures !t.gates[g].held ==> forall r :: r in t.agents ==> t.agents[r].wait != Queued(g)
  {
    if t.gates[g].held {
      assert Owns(t.agents[t.owner[g]], g);
    }
  }

  lemma SoleOwner(t: Table, r: RequestId, s: RequestId, g: GateId)
    requires RecordsExact(t) && r in t.agents && s in t.agents && g in t.agents[r].holds && g in t.agents[s].holds
    ensures r == s
  {
    assert Owns(t.agents[r], g) <==> g in t.owner && t.owner[g] == r;
    assert Owns(t.agents[s], g) <==> g in t.owner && t.owner[g] == s;
  }

  // ----- every critical section keeps the invariant -----

  ghost predicate Owners(t: Table) {
    RecordsExact(t) && HeldExact(t)
  }

  ghost predicate Queues(t: Table) {
    QueuesExact(t) && QueuesBounded(t)
  }

  lemma AddGateKeepsOwners(t: Table, g: GateId)
    requires Owners(t) && g !in t.gates
    ensures Owners(AddGate(t, g))
  {
  }

  lemma AddGateKeepsQueues(t: Table, g: GateId)
    requires Queues(t) && g !in t.gates
    ensures Queues(AddGate(t, g))
  {
  }

  lemma AddGateKeeps(t: Table, g: GateId)
    requires Inv(t) && g !in t.gates
    ensures Inv(AddGate(t, g))
  {
    AddGateKeepsOwners(t, g);
    AddGateKeepsQueues(t, g);
  }

  lemma AddAgentKeepsOwners(t: Table, r: RequestId)
    requires Owners(t) && r !in t.agents
    ensures Owners(AddAgent(t, r))
  {
  }

  lemma AddAgentKeepsQueues(t: Table, r: RequestId)
    requires Queues(t) && r !in t.agents
    ensures Queues(AddAgent(t, r))
  {
  }

  lemma AddAgentKeeps(t: Table, r: RequestId)
    requires Inv(t) && r !in t.agents
    ensures Inv(AddAgent(t, r))
  {
    AddAgentKeepsOwners(t, r);
    AddAgentKeepsQueues(t, r);
  }

  lemma RemoveAgentKeepsOwners(t: Table, r: RequestId)
    requires Owners(t) && r in t.agents && t.agents[r] == IDLE
    ensures Owners(RemoveAgent(t, r))
  {
    forall g | g in t.owner
      ensures t.owner[g] != r
    {
      assert !Owns(t.agents[r], g);
    }
  }

  lemma RemoveAgentKeepsQueues(t: Table, r: RequestId)
    requires Queues(t) && r in t.agents && t.agents[r] == IDLE
    ensures Queues(RemoveAgent(t, r))
  {
  }

  lemma RemoveAgentKeeps(t: Table, r: RequestId)
    requires Inv(t) && r in t.agents && t.agents[r] == IDLE
    ensures Inv(RemoveAgent(t, r))
  {
    RemoveAgentKeepsOwners(t, r);
    RemoveAgentKeepsQueues(t, r);
  }

  lemma EnterKeepsOwners(t: Table, r: RequestId, g: GateId)
    requires Owners(t) && r in t.agents && g in t.gates
    requires t.agents[r].wait == NotWaiting && g !in t.agents[r].holds
    ensures Owners(Enter(t, r, g))
  {
  }

  lemma EnterKeepsQueues(t: Table, r: RequestId, g: GateId)
    requires Queues(t) && r in t.agents && g in t.gates
    requires t.agents[r].wait == NotWaiting
    ensures Queues(Enter(t, r, g))
  {
    var u := Enter(t, r, g);
    if Entry(t, r, g) == FifoGate.Queued {
      assert forall s :: s in u.gates[g].waiters <==> s in t.gates[g].waiters || s == r;
    }
  }

  lemma EnterKeeps(t: Table, r: RequestId, g: GateId)
    requires Inv(t) && r in t.agents && g in t.gates
    requires t.agents[r].wait == NotWaiting && g !in t.agents[r].holds
    ensures Inv(Enter(t, r, g))
  {
    EnterKeepsOwners(t, r, g);
    EnterKeepsQueues(t, r, g);
  }

  lemma WakeKeepsOwners(t: Table, r: RequestId, g: GateId)
    requires Owners(t) && r in t.agents && t.agents[r].wait == Granted(g)
    ensures Owners(Wake(t, r, g))
  {
  }

  lemma WakeKeepsQueues(t: Table, r: RequestId, g: GateId)
    requires Queues(t) && r in t.agents && t.agents[r].wait == Granted(g)
    ensures Queues(Wake(t, r, g))
  {
  }

  lemma WakeKeeps(t: Table, r: RequestId, g: GateId)
    requires Inv(t) && r in t.agents && t.agents[r].wait == Granted(g)
    ensures Inv(Wake(t, r, g))
  {
    WakeKeepsOwners(t, r, g);
    WakeKeepsQueues(t, r, g);
  }

  lemma CancelKeepsQueues(t: Table, r: RequestId, g: GateId)
    requires Queues(t) && r in t.agents && t.agents[r].wait == Queued(g)
    ensures g in t.gates && Queues(Cancel(t, r, g))
  {
    FifoGate.WithoutFacts(t.gates[g].waiters, r);
  }

  lemma CancelKeepsOwners(t: Table, r: RequestId, g: GateId)
    requires Owners(t) && r in t.agents && g in t.gates && t.agents[r].wait == Queued(g)
    ensures Owners(Cancel(t, r, g))
  {
  }

  lemma CancelKeeps(t: Table, r: RequestId, g: GateId)
    requires Inv(t) && r in t.agents && t.agents[r].wait == Queued(g)
    ensures g in t.gates && Inv(Cancel(t, r, g))
  {
    CancelKeepsQueues(t, r, g);
    CancelKeepsOwners(t, r, g);
  }

  /** `Release` with nobody waiting. */
  lemma FreeKeepsOwners(t: Table, r: RequestId, g: GateId)
    requires Owners(t) && r in t.agents && g in t.gates && g in t.agents[r].holds && t.gates[g].waiters == []
    ensures Owners(Release(t, r, g))
  {
    assert Owns(t.agents[r], g);
  }

  /** `Release` that hands the permit to the first waiter. */
  lemma HandOffKeepsOwners(t: Table, r: RequestId, g: GateId)
    requires Owners(t) && r in t.agents && g in t.gates && g in t.agents[r].holds && t.gates[g].waiters != []
    requires var w := t.gates[g].waiters[0]; w != r && w in t.agents && t.agents[w].wait == Queued(g)
    ensures Owners(Release(t, r, g))
  {
    assert Owns(t.agents[r], g);
  }

  lemma ReleaseKeepsOwners(t: Table, r: RequestId, g: GateId)
    requires Owners(t) && r in t.agents && g in t.gates && g in t.agents[r].holds
    requires forall w :: w in t.gates[g].waiters ==> w in t.agents && t.agents[w].wait == Queued(g)
    ensures Owners(Release(t, r, g))
  {
    if t.gates[g].waiters == [] {
      FreeKeepsOwners(t, r, g);
    } else {
      var w := t.gates[g].waiters[0];
      assert w in t.gates[g].waiters;
      assert w != r;
      HandOffKeepsOwners(t, r, g);
    }
  }

  lemma FreeKeepsExact(t: Table, r: RequestId, g: GateId)
    requires QueuesExact(t) && r in t.agents && g in t.gates && t.gates[g].waiters == []
    ensures QueuesExact(Release(t, r, g))
  {
  }

  lemma HandOffKeepsExact(t: Table, r: RequestId, g: GateId)
    requires QueuesExact(t) && r in t.agents && g in t.gates && t.agents[r].wait != Queued(g)
    requires var w := t.gates[g].waiters; w != [] && w[0] !in w[1..]
    ensures QueuesExact(Release(t, r, g))
  {
    var w := t.gates[g].waiters;
    assert w[0] in w && w == [w[0]] + w[1..];
    assert forall s :: s in w <==> s == w[0] || s in w[1..];
  }

  lemma ReleaseKeepsExact(t: Table, r: RequestId, g: GateId)
    requires Queues(t) && r in t.agents && g in t.gates
    requires t.agents[r].wait != Queued(g)
    ensures QueuesExact(Release(t, r, g))
  {
    hide QueuesExact, Release;
    if t.gates[g].waiters == [] {
      FreeKeepsExact(t, r, g);
    } else {
      HandOffKeepsExact(t, r, g);
    }
  }

  lemma ReleaseKeepsBounded(t: Table, r: RequestId, g: GateId)
    requires QueuesBounded(t) && r in t.agents && g in t.gates
    ensures QueuesBounded(Release(t, r, g))
  {
  }

  lemma ReleaseKeepsQueues(t: Table, r: RequestId, g: GateId)
    requires Queues(t) && r in t.agents && g in t.gates
    requires t.agents[r].wait != Queued(g)
    ensures Queues(Release(t, r, g))
  {
    hide Release, QueuesExact, QueuesBounded;
    ReleaseKeepsExact(t, r, g);
    ReleaseKeepsBounded(t, r, g);
  }

  lemma ReleaseKeeps(t: Table, r: RequestId, g: GateId)
    requires Inv(t) && r in t.agents && g in t.agents[r].holds
    ensures g in t.gates && Inv(Release(t, r, g))
  {
    assert Owns(t.agents[r], g);
    ReleaseKeepsOwners(t, r, g);
    ReleaseKeepsQueues(t, r, g);
  }
}
