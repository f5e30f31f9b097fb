/** The global pace holds for an identity, across all the client objects it ever had.

A new object starts with a fresh pacer, so the pace holds only because an object that is evicted has granted nothing
for at least a second. The evictor knows that from the time of last use, if the age of a request that is granted a
permit and the staleness of the stored times add up to no more than a second less than the idle timeout.
 */
module IdentityPacing {
  import opened Base
  import opened Protocol
  import opened ProxyMachine
  import opened Theorems
  import ProxyInvariant
  import GlobalCooldown
  import Structure
  import SingleFlight
  import Credential
  import Pacer
  import GateTable

  /** The greatest age at which a request may be granted a global permit, less the staleness of the times of last use.
      */
  const GRANT_AGE: int := IDLE_TIMEOUT + 1 - SECOND

  function Grants(p: Proxy, i: nat): seq<int>
    requires i < |p.objs|
  {
    p.objs[i].client.pacer.grants
  }

  function Limit(s: Settings, id: Identity): nat {
    if s.limitOf(id) == 0 then Pacer.DEFAULT_LIMIT else s.limitOf(id)
  }

  // ----- one client -----

  /** The last use of the client is recent, as seen from every grant. */
  ghost predicate GrantsUsed(c: Client, now: int) {
    forall x :: 0 <= x < |c.pacer.grants| ==> c.pacer.grants[x] <= Min(now, c.lastUsed + GRANT_AGE)
  }

  /** Only a grant adds to the grants, and it adds the present. */
  lemma StepGrants(cfg: Config, c: Client, now: int, l: Label)
    requires Protocol.Enabled(cfg, c, now, l)
    ensures var d := Protocol.Apply(cfg, c, now, l);
            && d.pacer.grants == (if l.Pace? then c.pacer.grants + [now] else c.pacer.grants)
            && d.pacer.limit == c.pacer.limit
  {
    hide LocalStep, Wants, Drops, DoLook, DoLearn, DoEnter, DoCount, DoUncount, DoMark, DoSend, DoBlockBucket,
      DoVerdict, GateTable.Release, LocalNext, OnGot, OnFail, AfterDrop;
    match l
    case Pace(r) =>
    case BlockGlobal(r, at) =>
    case _ =>
      if Structure.Moves(l) {
        Structure.MoveFrame(cfg, c, now, l);
      }
  }

  /** If the event grants a permit, its request is no older than `bound`. */
  ghost predicate Prompt(p: Proxy, e: Event, bound: int) {
    e.Step? && e.i < |p.objs| && e.l.Pace? && e.l.r in p.objs[e.i].client.reqs ==>
      p.now - p.objs[e.i].client.reqs[e.l.r].spec.began <= bound
  }

  /** No request is granted a permit when it is older than `bound`. */
  ghost predicate PromptGrants(run: Run, bound: int) {
    |run.states| == |run.events| + 1 &&
    forall k :: 0 <= k < |run.events| ==> Prompt(run.states[k], run.events[k], bound)
  }

  lemma StepGrantsUsed(cfg: Config, c: Client, now: int, l: Label, bound: nat, stale: nat)
    requires GlobalCooldown.Used(c, now, stale) && GrantsUsed(c, now) && Protocol.Enabled(cfg, c, now, l)
    requires GlobalCooldown.Fresh(l, now, stale) && bound + stale <= GRANT_AGE
    requires l.Pace? ==> now - c.reqs[l.r].spec.began <= bound
    ensures GrantsUsed(Protocol.Apply(cfg, c, now, l), now)
  {
    hide Protocol.Apply, LocalStep, Wants, Drops;
    GlobalCooldown.StepUsed(cfg, c, now, l, stale);
    StepGrants(cfg, c, now, l);
  }

  // ----- all clients -----

  ghost predicate AllUsed(p: Proxy, stale: nat) {
    forall i: nat :: i < |p.objs| ==>
                       GlobalCooldown.Used(p.objs[i].client, p.now, stale) && GrantsUsed(p.objs[i].client, p.now)
  }

  ghost predicate Limits(s: Settings, p: Proxy) {
    forall i: nat :: i < |p.objs| ==> p.objs[i].client.pacer.limit == Limit(s, p.objs[i].id)
  }

  /** All grants are a second old. */
  ghost predicate Rested(grants: seq<int>, at: int) {
    forall x :: 0 <= x < |grants| ==> grants[x] + SECOND <= at
  }

  predicate FoundUnused(p: Proxy) {
    p.evictor.Testing? && (p.evictor.seen.Unused? || p.evictor.seen.Quiet?) && p.evictor.id in p.states &&
    p.states[p.evictor.id] < |p.objs|
  }

  /** A client that has been found unused, and one that has been evicted, has granted nothing for a second. */
  ghost predicate Retired(p: Proxy) {
    && (forall i: nat :: i < |p.objs| && !Current(p, i) ==> Rested(Grants(p, i), p.now))
    && (FoundUnused(p) ==> Rested(Grants(p, p.states[p.evictor.id]), p.evictor.at))
  }

  ghost predicate FarApart(a: seq<int>, b: seq<int>) {
    forall x, y :: 0 <= x < |a| && 0 <= y < |b| ==> a[x] + SECOND <= b[y] || b[y] + SECOND <= a[x]
  }

  /** Grants of different objects of one identity are at least a second apart. */
  ghost predicate Apart(p: Proxy) {
    forall i: nat, j: nat :: i < |p.objs| && j < |p.objs| && i != j && p.objs[i].id == p.objs[j].id ==>
                               FarApart(Grants(p, i), Grants(p, j))
  }

  ghost predicate Inv(s: Settings, p: Proxy, stale: nat) {
    AllUsed(p, stale) && Limits(s, p) && Retired(p) && Apart(p)
  }

  // ----- steps -----

  lemma StepAllUsed(s: Settings, p: Proxy, i: nat, l: Label, bound: nat, stale: nat)
    requires AllUsed(p, stale) && Limits(s, p) && i < |p.objs|
    requires Protocol.Enabled(s.proto, p.objs[i].client, p.now, l)
    requires GlobalCooldown.Fresh(l, p.now, stale) && bound + stale <= GRANT_AGE
    requires l.Pace? ==> p.now - p.objs[i].client.reqs[l.r].spec.began <= bound
    ensures AllUsed(DoStep(s, p, i, l), stale) && Limits(s, DoStep(s, p, i, l))
  {
    hide Protocol.Apply, Charge, Record, GlobalCooldown.Used, GrantsUsed, LocalStep, Wants, Drops;
    GlobalCooldown.StepUsed(s.proto, p.objs[i].client, p.now, l, stale);
    StepGrantsUsed(s.proto, p.objs[i].client, p.now, l, bound, stale);
    StepGrants(s.proto, p.objs[i].client, p.now, l);
  }

  /** Only an object that the registry leads to grants anything. */
  lemma PaceIsCurrent(s: Settings, p: Proxy, i: nat, l: Label)
    requires ClientsOk(s, p) && Registered(p) && EvictorOk(p) && i < |p.objs|
    requires Protocol.Enabled(s.proto, p.objs[i].client, p.now, l) && l.Pace?
    ensures Current(p, i)
    ensures p.evictor.Testing? && p.states[p.evictor.id] == i ==> !p.evictor.seen.Unused? && !p.evictor.seen.Quiet?
  {
    hide ClientOk, BucketsQuiet, LocalStep, Wants, Drops;
    assert p.objs[i].client.reqs != map[];
    if p.objs[i].client.active == 0 {
      ActiveOf(s, p, i);
    }
  }

  lemma ActiveOf(s: Settings, p: Proxy, i: nat)
    requires ClientsOk(s, p) && i < |p.objs| && p.objs[i].client.active == 0
    ensures p.objs[i].client.reqs == map[]
  {
    hide SingleFlight.Windows, Structure.Inv, Credential.Inv, Pacer.Inv;
    assert ClientOk(s, p.objs[i].client, p.now);
    ProxyInvariant.InactiveHasNoRequests(p.objs[i].client);
  }

  lemma StepRetired(s: Settings, p: Proxy, i: nat, l: Label)
    requires ClientsOk(s, p) && Registered(p) && EvictorOk(p) && Retired(p) && i < |p.objs|
    requires Protocol.Enabled(s.proto, p.objs[i].client, p.now, l)
    ensures Retired(DoStep(s, p, i, l))
  {
    hide Protocol.Apply, Protocol.Enabled, Charge, Record, ClientOk, BucketsQuiet, Rested;
    var q := DoStep(s, p, i, l);
    StepGrants(s.proto, p.objs[i].client, p.now, l);
    if l.Pace? {
      PaceIsCurrent(s, p, i, l);
    }
    forall j: nat | j < |q.objs| && !Current(q, j)
      ensures Rested(Grants(q, j), q.now)
    {
      assert !Current(p, j);
    }
  }

  lemma FarApartExtend(a: seq<int>, b: seq<int>, now: int)
    requires FarApart(a, b) && Rested(b, now)
    ensures FarApart(a + [now], b) && FarApart(b, a + [now])
  {
  }

  lemma StepApart(s: Settings, p: Proxy, i: nat, l: Label)
    requires ClientsOk(s, p) && Registered(p) && EvictorOk(p) && Retired(p) && Apart(p) && i < |p.objs|
    requires Protocol.Enabled(s.proto, p.objs[i].client, p.now, l)
    ensures Apart(DoStep(s, p, i, l))
  {
    hide Protocol.Apply, Protocol.Enabled, Charge, Record, ClientsOk, BucketsQuiet, Rested, FarApart;
    var q := DoStep(s, p, i, l);
    StepGrants(s.proto, p.objs[i].client, p.now, l);
    if l.Pace? {
      PaceIsCurrent(s, p, i, l);
      forall j: nat | j < |p.objs| && j != i && p.objs[j].id == p.objs[i].id
        ensures FarApart(Grants(q, i), Grants(q, j)) && FarApart(Grants(q, j), Grants(q, i))
      {
        assert !Current(p, j);
        FarApartExtend(Grants(p, i), Grants(p, j), p.now);
      }
    }
  }

  lemma StepInv(s: Settings, p: Proxy, i: nat, l: Label, bound: nat, stale: nat)
    requires ProxyMachine.Inv(s, p) && Inv(s, p, stale) && i < |p.objs|
    requires Protocol.Enabled(s.proto, p.objs[i].client, p.now, l)
    requires GlobalCooldown.Fresh(l, p.now, stale) && bound + stale <= GRANT_AGE
    requires l.Pace? ==> p.now - p.objs[i].client.reqs[l.r].spec.began <= bound
    ensures Inv(s, DoStep(s, p, i, l), stale)
  {
    StepAllUsed(s, p, i, l, bound, stale);
    StepRetired(s, p, i, l);
    StepApart(s, p, i, l);
    hide DoStep, AllUsed, Limits, Retired, Apart;
  }

  // ----- the other events -----

  lemma TickInv(s: Settings, p: Proxy, later: int, stale: nat)
    requires Inv(s, p, stale) && p.now <= later
    ensures Inv(s, p.(now := later), stale)
  {
    hide FarApart;
    var q := p.(now := later);
    forall i: nat | i < |q.objs| && !Current(q, i)
      ensures Rested(Grants(q, i), q.now)
    {
      assert !Current(p, i) && Grants(q, i) == Grants(p, i);
    }
    assert Apart(q);
  }

  lemma EvictorInv(s: Settings, p: Proxy, e: Evictor, stale: nat)
    requires Inv(s, p, stale) && !(e.Testing? && (e.seen.Unused? || e.seen.Quiet?))
    ensures Inv(s, p.(evictor := e), stale)
  {
    hide FarApart, GrantsUsed, Rested, GlobalCooldown.Used;
    var q := p.(evictor := e);
    forall i: nat | i < |q.objs| && !Current(q, i)
      ensures Rested(Grants(q, i), q.now)
    {
      assert !Current(p, i) && Grants(q, i) == Grants(p, i);
    }
    assert Apart(q);
  }

  lemma CloseInv(s: Settings, p: Proxy, stale: nat)
    requires Inv(s, p, stale)
    ensures Inv(s, p.(closed := true), stale)
  {
    hide FarApart, GrantsUsed, Rested, GlobalCooldown.Used;
    var q := p.(closed := true);
    forall i: nat | i < |q.objs| && !Current(q, i)
      ensures Rested(Grants(q, i), q.now)
    {
      assert !Current(p, i) && Grants(q, i) == Grants(p, i);
    }
    assert Apart(q);
  }

  lemma NewClientFacts(s: Settings, id: Identity, now: int, stale: nat)
    ensures var c := NewClient(false, s.limitOf(id), s.maxWaiters, now);
            && GlobalCooldown.Used(c, now, stale) && GrantsUsed(c, now) && c.pacer.grants == []
            && c.pacer.limit == Limit(s, id)
  {
  }

  lemma MakeInv(s: Settings, p: Proxy, id: Identity, stale: nat)
    requires Inv(s, p, stale) && Registered(p) && p.evictor == Away && id !in p.states
    ensures Inv(s, DoMake(s, p, id), stale)
  {
    hide NewClient, GrantsUsed, GlobalCooldown.Used, Rested, Limit;
    NewClientFacts(s, id, p.now, stale);
    var q := DoMake(s, p, id);
    forall i: nat | i < |q.objs| && !Current(q, i)
      ensures Rested(Grants(q, i), q.now)
    {
      assert i < |p.objs| && !Current(p, i) && Grants(q, i) == Grants(p, i);
    }
    forall i: nat, j: nat | i < |q.objs| && j < |q.objs| && i != j && q.objs[i].id == q.objs[j].id
      ensures FarApart(Grants(q, i), Grants(q, j))
    {
      if i < |p.objs| && j < |p.objs| {
        assert Grants(q, i) == Grants(p, i) && Grants(q, j) == Grants(p, j);
      }
    }
  }

  /** Finding the client unused shows that it has rested. */
  lemma UnusedRested(c: Client, at: int, now: int)
    requires GrantsUsed(c, now) && at - c.lastUsed > IDLE_TIMEOUT
    ensures Rested(c.pacer.grants, at)
  {
  }

  lemma ReadInv(s: Settings, p: Proxy, stale: nat)
    requires Inv(s, p, stale) && EvictorOk(p) && p.evictor.Testing? && !p.evictor.seen.Quiet?
    ensures Inv(s, DoProbe(p), stale)
  {
    hide FarApart, GrantsUsed, Rested, GlobalCooldown.Used, BucketsQuiet;
    var q := DoProbe(p);
    var c := p.objs[p.states[p.evictor.id]].client;
    if p.evictor.seen.Inactive? && q.evictor.Testing? {
      UnusedRested(c, p.evictor.at, p.now);
    }
    forall i: nat | i < |q.objs| && !Current(q, i)
      ensures Rested(Grants(q, i), q.now)
    {
      assert !Current(p, i) && Grants(q, i) == Grants(p, i);
    }
    assert Apart(q);
  }

  lemma ClearedFacts(c: Client, now: int, stale: nat)
    requires GlobalCooldown.Used(c, now, stale) && GrantsUsed(c, now)
    ensures GlobalCooldown.Used(Cleared(c), now, stale) && GrantsUsed(Cleared(c), now) && Cleared(c).pacer == c.pacer
  {
  }

  lemma RestedLater(grants: seq<int>, at: int, now: int)
    requires Rested(grants, at) && at <= now
    ensures Rested(grants, now)
  {
  }

  lemma EvictInv(s: Settings, p: Proxy, stale: nat)
    requires Inv(s, p, stale) && Registered(p) && EvictorOk(p) && p.evictor.Testing? && p.evictor.seen.Quiet?
    ensures Inv(s, DoProbe(p), stale)
  {
    hide FarApart, GrantsUsed, Rested, GlobalCooldown.Used, BucketsQuiet, Cleared;
    var q := DoProbe(p);
    var i := p.states[p.evictor.id];
    ClearedFacts(p.objs[i].client, p.now, stale);
    RestedLater(Grants(p, i), p.evictor.at, p.now);
    forall j: nat | j < |q.objs|
      ensures Grants(q, j) == Grants(p, j) && q.objs[j].id == p.objs[j].id
      ensures !Current(q, j) ==> Rested(Grants(q, j), q.now)
    {
      if j != i && !Current(q, j) {
        assert p.objs[j].id in q.states <==> p.objs[j].id in p.states && p.objs[j].id != p.evictor.id;
        assert !Current(p, j);
      }
    }
    assert Apart(q);
  }

  lemma EventInv(s: Settings, p: Proxy, e: Event, bound: nat, stale: nat)
    requires ProxyMachine.Inv(s, p) && Inv(s, p, stale) && Possible(s, p, e)
    requires Prompt(p, e, bound) && GlobalCooldown.FreshEvent(p, e, stale) && bound + stale <= GRANT_AGE
    ensures Inv(s, After(s, p, e), stale)
  {
    hide Inv, ClientsOk, Registered, Conserved, Bounded, DoStep, DoProbe, DoMake, BucketsQuiet, Answered, EvictorOk,
      LocalStep, Wants, Drops;
    match e
    case Tick(later) => TickInv(s, p, later, stale);
    case Close => CloseInv(s, p, stale);
    case Make(id) => MakeInv(s, p, id, stale);
    case Admit(id, r, route, major, interaction, at) =>
      StepInv(s, p, p.states[id], Begin(r, route, major, interaction, at), bound, stale);
    case Step(i, l) => StepInv(s, p, i, l, bound, stale);
    case Test(id, at) => EvictorInv(s, p, Testing(id, at, Unread), stale);
    case Probe =>
      if p.evictor.seen.Quiet? {
        EvictInv(s, p, stale);
      } else {
        ReadInv(s, p, stale);
      }
  }

  lemma InitialInv(s: Settings, now: int, stale: nat)
    ensures Inv(s, Initial(s, now), stale)
  {
    assert Current(Initial(s, now), 0);
  }

  lemma {:induction false} AlwaysInv(s: Settings, run: Run, k: nat, bound: nat, stale: nat)
    requires IsRun(s, run) && k < |run.states|
    requires PromptGrants(run, bound) && GlobalCooldown.PromptStores(run, stale) && bound + stale <= GRANT_AGE
    ensures Inv(s, run.states[k], stale)
  {
    hide ProxyMachine.Inv, Inv, Possible, After, Initial, Prompt, GlobalCooldown.FreshEvent;
    if k == 0 {
      InitialInv(s, run.states[0].now, stale);
    } else {
      AlwaysInv(s, run, k - 1, bound, stale);
      Always(s, run, k - 1);
      EventInv(s, run.states[k - 1], run.events[k - 1], bound, stale);
    }
  }

  // ----- the bound -----

  /** The global permits that an identity was granted, by whichever of its objects, in the second from `from` on: pairs
      of an object and the number of its grant. */
  ghost function InSecond(p: Proxy, id: Identity, from: int): set<(nat, nat)> {
    set i: nat, x: nat | i < |p.objs| && p.objs[i].id == id && x < |Grants(p, i)| &&
                         from <= Grants(p, i)[x] < from + SECOND :: (i, x)
  }

  lemma {:induction false} Project(pairs: set<(nat, nat)>, i: nat, indices: set<int>)
    requires forall q :: q in pairs ==> q.0 == i && q.1 in indices
    ensures |pairs| <= |indices|
    decreases |pairs|
  {
    if pairs != {} {
      var q :| q in pairs;
      Project(pairs - {q}, i, indices - {q.1});
    }
  }

  lemma OneObject(s: Settings, p: Proxy, id: Identity, from: int, i: nat, x: nat, j: nat, y: nat)
    requires Apart(p) && (i, x) in InSecond(p, id, from) && (j, y) in InSecond(p, id, from)
    ensures i == j
  {
  }

  /** In every run in which the age of a request that is granted a permit and the staleness of a stored time of last use
      make up at most `GRANT_AGE`, no identity is granted more global permits in any second than its limit, over all the
      client objects it ever had. */
  lemma IdentityPacedAlways(s: Settings, run: Run, k: nat, id: Identity, from: int, bound: nat, stale: nat)
    requires IsRun(s, run) && k < |run.states|
    requires PromptGrants(run, bound) && GlobalCooldown.PromptStores(run, stale) && bound + stale <= GRANT_AGE
    ensures |InSecond(run.states[k], id, from)| <= Limit(s, id)
  {
    hide IsRun, PromptGrants, GlobalCooldown.PromptStores, SingleFlight.Inv, Credential.Inv, Pacer.Inv, Registered,
      Conserved, Bounded, EvictorOk, Apart, Retired, AllUsed;
    AlwaysInv(s, run, k, bound, stale);
    Always(s, run, k);
    var p := run.states[k];
    var pairs := InSecond(p, id, from);
    if pairs != {} {
      var q :| q in pairs;
      var i := q.0;
      var pacer := p.objs[i].client.pacer;
      forall t | t in pairs
        ensures t.0 == i && t.1 in Pacer.InSecond(pacer, from)
      {
        OneObject(s, p, id, from, i, q.1, t.0, t.1);
      }
      Project(pairs, i, Pacer.InSecond(pacer, from));
      Pacer.WindowBound(pacer, from);
    }
  }
}
