/** Every step of the proxy keeps the proxy's invariant. */
module ProxyInvariant {
  import opened Base
  import opened ClientMaps
  import opened Protocol
  import opened ProxyMachine
  import Structure
  import SingleFlight
  import Credential
  import Deadlock
  import Cooldown
  import Aliases
  import Retry
  import Pacer
  import GateTable
  import RateLimit

  // ----- one client -----

  lemma PacerKept(cfg: Config, c: Client, now: int, l: Label)
    requires Pacer.Inv(c.pacer) && Protocol.Enabled(cfg, c, now, l)
    ensures Pacer.Inv(Protocol.Apply(cfg, c, now, l).pacer)
  {
    hide Pacer.Inv, LocalStep, Wants, Drops, DoLook, DoLearn, DoEnter, DoCount, DoUncount, DoMark, DoSend,
      DoBlockBucket, DoVerdict, GateTable.Release, LocalNext, OnGot, OnFail, AfterDrop, Pacer.Grant, Pacer.BlockFor;
    match l
    case Pace(r) => Pacer.GrantKeeps(c.pacer, now);
    case BlockGlobal(r, at) =>
      if c.reqs[r].pc.stage.plan.global.Some? {
        Pacer.BlockKeeps(c.pacer, at, c.reqs[r].pc.stage.plan.global.value);
      }
    case _ =>
      if Structure.Moves(l) {
        Structure.MoveFrame(cfg, c, now, l);
      }
  }

  lemma ClientStepOk(s: Settings, c: Client, now: int, l: Label)
    requires ClientOk(s, c, now) && Protocol.Enabled(s.proto, c, now, l)
    ensures ClientOk(s, Protocol.Apply(s.proto, c, now, l), now)
  {
    hide SingleFlight.Inv, Credential.Inv, Pacer.Inv, Protocol.Apply, Protocol.Enabled, Deadlock.SentBefore;
    Deadlock.SentKept(s.proto, c, now, l);
    SingleFlight.StepKeeps(s.proto, c, now, l);
    Credential.StepKeeps(s.proto, c, now, l);
    PacerKept(s.proto, c, now, l);
  }

  lemma NewClientOk(s: Settings, anonymous: bool, limit: nat, now: int)
    ensures ClientOk(s, NewClient(anonymous, limit, s.maxWaiters, now), now)
  {
    hide Structure.Inv, Pacer.Inv, Pacer.New;
    Structure.NewClientIsValid(anonymous, limit, s.maxWaiters, now);
    Pacer.NewIsValid(limit, ZERO_TIME);
  }

  lemma NewClientTimed(s: Settings, anonymous: bool, limit: nat, now: int)
    requires s.proto.queueTimeout >= 0
    ensures Retry.Inv(s.proto, NewClient(anonymous, limit, s.maxWaiters, now), now)
  {
    hide Structure.Inv, Pacer.New;
    Structure.NewClientIsValid(anonymous, limit, s.maxWaiters, now);
  }

  /** A client without active requests has no requests. */
  lemma InactiveHasNoRequests(c: Client)
    requires Structure.Inv(c) && c.active == 0
    ensures c.reqs == map[]
  {
    hide GateTable.Inv, Structure.Gates, Structure.Links, Structure.Counted;
    assert |c.reqs| == 0;
  }

  /** None of the cooldowns that a client ever recorded is still running once its buckets are quiet. */
  lemma QuietForgetsNothing(c: Client, now: int, at: int)
    requires Cooldown.Inv(c, now) && BucketsQuiet(c, at) && at <= now
    ensures forall route :: route in c.cooldown ==> c.cooldown[route] <= now
  {
    hide GateTable.Inv, Structure.Gates, Structure.Links, Structure.Counters, Cooldown.AllWaited, SingleFlight.Windows;
    forall route | route in c.cooldown
      ensures c.cooldown[route] <= now
    {
      assert Cooldown.Guarded(c, now, route);
    }
  }

  lemma ClearedOk(s: Settings, c: Client, now: int)
    requires ClientOk(s, c, now) && c.active == 0
    ensures ClientOk(s, Cleared(c), now) && c.reqs == map[]
  {
    hide Structure.Inv, Pacer.Inv, Resolve;
    InactiveHasNoRequests(c);
    ClearedStructure(c);
  }

  lemma ClearedTimed(s: Settings, c: Client, now: int, at: int)
    requires Retry.Inv(s.proto, c, now) && c.active == 0 && BucketsQuiet(c, at) && at <= now
    ensures Retry.Inv(s.proto, Cleared(c), now)
    ensures forall route :: route in c.cooldown ==> c.cooldown[route] <= now
  {
    hide Structure.Inv, BucketsQuiet, Resolve;
    InactiveHasNoRequests(c);
    QuietForgetsNothing(c, now, at);
    ClearedStructure(c);
  }

  lemma ClearedStructure(c: Client)
    requires Structure.Inv(c)
    ensures Structure.Inv(Cleared(c))
  {
    hide GateTable.Inv, Structure.Linked, Structure.Shaped;
  }

  // ----- slots -----

  /** The counter moves exactly as the number of entries does. */
  lemma ChargeExact(cfg: Config, c: Client, now: int, l: Label)
    requires Protocol.Enabled(cfg, c, now, l)
    ensures Slots(Protocol.Apply(cfg, c, now, l).maps) == Slots(c.maps) + Charge(cfg, c, l)
  {
    hide LocalStep, Wants, Drops, DoEnter, DoCount, DoUncount, DoMark, DoSend, DoBlockGlobal, DoBlockBucket, DoVerdict,
      GateTable.Release, LocalNext, OnGot, OnFail, AfterDrop, Create, ClientMaps.Learn, Swept, Net, LearnTarget,
      AfterLook, Canonical, Resolve;
    match l
    case Look(r, granted) =>
      if LookCreates(c, c.reqs[r].spec.route, granted) {
        CreateResolves(c.maps, c.reqs[r].spec.route, |c.pool|);
      }
    case Learn(r, granted) =>
      var q := c.reqs[r];
      if LearnApplies(cfg, c, q, granted) {
        LearnSlots(c.maps, q.spec.route, Canonical(cfg, q), q.pc.b);
      }
    case Sweep(at, unused) =>
    case _ =>
      if Structure.Moves(l) {
        Structure.MoveFrame(cfg, c, now, l);
      }
  }

  lemma ChargeFits(s: Settings, p: Proxy, c: Client, l: Label)
    requires Answered(s, p, c, l) && 0 <= p.used <= s.maxSlots
    ensures p.used + Charge(s.proto, c, l) <= s.maxSlots
  {
    hide Create, Net, Canonical, Resolve, Swept;
    if l.Sweep? {
      SweptResolves(c.maps, IdleBuckets(c.pool, l.at, l.unused));
    }
  }

  lemma {:induction false} TotalUpdate(objs: seq<Object>, i: nat, o: Object)
    requires i < |objs|
    ensures Total(objs[i := o]) == Total(objs) - Slots(objs[i].client.maps) + Slots(o.client.maps)
  {
    hide Slots;
    var last := |objs| - 1;
    var u := objs[i := o];
    if i == last {
      assert u[..last] == objs[..last];
    } else {
      assert u[..last] == objs[..last][i := o];
      TotalUpdate(objs[..last], i, o);
    }
  }

  lemma {:induction false} TotalNonNegative(objs: seq<Object>)
    ensures Total(objs) >= 0
  {
    if objs != [] {
      TotalNonNegative(objs[..|objs| - 1]);
    }
  }

  // ----- the events -----

  lemma TimeOk(s: Settings, c: Client, now: int, later: int)
    requires ClientOk(s, c, now) && now <= later
    ensures ClientOk(s, c, later)
  {
    hide SingleFlight.Inv, Credential.Inv, Pacer.Inv;
  }

  lemma SameRegistry(s: Settings, p: Proxy, q: Proxy)
    requires ClientsOk(s, p) && Registered(p) && q.objs == p.objs && q.states == p.states && p.now <= q.now
    ensures ClientsOk(s, q) && Registered(q)
  {
    hide ClientOk;
    forall i: nat | i < |q.objs|
      ensures ClientOk(s, q.objs[i].client, q.now)
    {
      TimeOk(s, p.objs[i].client, p.now, q.now);
    }
    forall i: nat | i < |q.objs| && !Current(q, i)
      ensures q.objs[i].client.reqs == map[] && q.objs[i].client.maps == Empty()
    {
      assert !Current(p, i);
    }
  }

  /** Replacing an object by another of the same identity. */
  lemma ObjectReplaced(s: Settings, p: Proxy, q: Proxy, i: nat, o: Object)
    requires ClientsOk(s, p) && Registered(p)
    requires i < |p.objs| && q.objs == p.objs[i := o] && o.id == p.objs[i].id && q.states == p.states && q.now == p.now
    requires ClientOk(s, o.client, p.now)
    requires Current(p, i) || (o.client.reqs == map[] && o.client.maps == Empty())
    ensures ClientsOk(s, q) && Registered(q)
  {
    hide ClientOk;
    forall j: nat | j < |q.objs| && !Current(q, j)
      ensures q.objs[j].client.reqs == map[] && q.objs[j].client.maps == Empty()
    {
      assert !Current(p, j);
    }
  }

  lemma AddOne<T>(a: set<T>, b: set<T>, x: T)
    requires b <= a + {x}
    ensures |b| <= |a| + 1
  {
    SubsetSize(b, a + {x});
  }

  lemma MakeBounded(s: Settings, p: Proxy, id: Identity)
    requires Bounded(s, p) && Possible(s, p, Make(id))
    ensures Bounded(s, DoMake(s, p, id))
  {
    hide NewClient;
    var q := DoMake(s, p, id);
    AddOne(Bearers(p.states), Bearers(q.states), id);
    AddOne(Named(p.states), Named(q.states), id);
    if id.kind != Bearer {
      assert Bearers(q.states) == Bearers(p.states);
    }
  }

  lemma MakeConserved(s: Settings, p: Proxy, id: Identity)
    requires Conserved(s, p)
    ensures Conserved(s, DoMake(s, p, id))
  {
    hide Pacer.New;
    assert DoMake(s, p, id).objs[..|p.objs|] == p.objs;
  }

  lemma MakeRegistered(s: Settings, p: Proxy, id: Identity)
    requires ClientsOk(s, p) && Registered(p) && id !in p.states
    ensures ClientsOk(s, DoMake(s, p, id)) && Registered(DoMake(s, p, id))
  {
    hide ClientOk, NewClient;
    var q := DoMake(s, p, id);
    NewClientOk(s, false, s.limitOf(id), p.now);
    forall j: nat | j < |q.objs| && !Current(q, j)
      ensures q.objs[j].client.reqs == map[] && q.objs[j].client.maps == Empty()
    {
      assert j < |p.objs| && !Current(p, j);
    }
  }

  lemma StepConserved(s: Settings, p: Proxy, i: nat, l: Label)
    requires Conserved(s, p) && i < |p.objs| && Protocol.Enabled(s.proto, p.objs[i].client, p.now, l)
    requires Answered(s, p, p.objs[i].client, l)
    ensures Conserved(s, DoStep(s, p, i, l))
  {
    hide Protocol.Enabled, Protocol.Apply, Slots, Charge, Answered, Record;
    var c := p.objs[i].client;
    var o := p.objs[i].(client := Protocol.Apply(s.proto, c, p.now, l));
    ChargeExact(s.proto, c, p.now, l);
    ChargeFits(s, p, c, l);
    TotalUpdate(p.objs, i, o);
    TotalNonNegative(p.objs[i := o]);
  }

  /** A retired object has no requests and no entries, and nothing but a sweep or the end of an earlier request can
      happen to it. */
  lemma RetiredStays(cfg: Config, c: Client, now: int, l: Label)
    requires c.reqs == map[] && c.maps == Empty() && Protocol.Enabled(cfg, c, now, l) && !l.Begin?
    ensures Protocol.Apply(cfg, c, now, l).reqs == map[] && Protocol.Apply(cfg, c, now, l).maps == Empty()
  {
    hide LocalStep, Wants, Drops, DoLook, DoLearn, DoEnter, DoCount, DoUncount, DoMark, DoSend,
      DoBlockGlobal, DoBlockBucket, DoVerdict, GateTable.Release;
    assert l.Sweep? || l.Touch?;
  }

  lemma StepRegistered(s: Settings, p: Proxy, i: nat, l: Label)
    requires ClientsOk(s, p) && Registered(p) && i < |p.objs|
    requires Protocol.Enabled(s.proto, p.objs[i].client, p.now, l)
    requires l.Begin? ==> Current(p, i)
    ensures ClientsOk(s, DoStep(s, p, i, l)) && Registered(DoStep(s, p, i, l))
  {
    hide Protocol.Enabled, Protocol.Apply, Charge, Record, ClientOk;
    var c := p.objs[i].client;
    ClientStepOk(s, c, p.now, l);
    if !Current(p, i) {
      RetiredStays(s.proto, c, p.now, l);
    }
    ObjectReplaced(s, p, DoStep(s, p, i, l), i, p.objs[i].(client := Protocol.Apply(s.proto, c, p.now, l)));
  }

  lemma StepKeeps(s: Settings, p: Proxy, i: nat, l: Label)
    requires Inv(s, p) && i < |p.objs| && Protocol.Enabled(s.proto, p.objs[i].client, p.now, l)
    requires Answered(s, p, p.objs[i].client, l) && (l.Begin? ==> Current(p, i) && p.evictor == Away)
    ensures Inv(s, DoStep(s, p, i, l))
  {
    StepEvictor(s, p, i, l);
    hide ClientsOk, Registered, Conserved, EvictorOk, Protocol.Enabled, Protocol.Apply, Charge, Record, Answered;
    StepRegistered(s, p, i, l);
    StepConserved(s, p, i, l);
  }

  lemma EvictRegistered(s: Settings, p: Proxy, id: Identity)
    requires ClientsOk(s, p) && Registered(p) && id in p.states && p.states[id] < |p.objs|
    requires p.objs[p.states[id]].client.active == 0
    ensures ClientsOk(s, DoEvict(p, id)) && Registered(DoEvict(p, id))
  {
    hide ClientOk, Slots;
    var i := p.states[id];
    var q := DoEvict(p, id);
    ClearedOk(s, p.objs[i].client, p.now);
    forall j: nat | j < |q.objs| && !Current(q, j)
      ensures q.objs[j].client.reqs == map[] && q.objs[j].client.maps == Empty()
    {
      if j != i {
        assert p.objs[j].id in q.states <==> p.objs[j].id in p.states && p.objs[j].id != id;
        assert !Current(p, j);
      }
    }
  }

  lemma EvictConserved(s: Settings, p: Proxy, id: Identity)
    requires Conserved(s, p) && id in p.states && p.states[id] < |p.objs|
    ensures Conserved(s, DoEvict(p, id))
  {
    var i := p.states[id];
    var o := p.objs[i].(client := Cleared(p.objs[i].client));
    assert Slots(o.client.maps) == 0;
    TotalUpdate(p.objs, i, o);
    TotalNonNegative(p.objs[i := o]);
  }

  lemma EvictBounded(s: Settings, p: Proxy, id: Identity)
    requires Bounded(s, p) && id in p.states && p.states[id] < |p.objs|
    ensures Bounded(s, DoEvict(p, id))
  {
    hide Slots, Cleared;
    SubsetSize(Bearers(DoEvict(p, id).states), Bearers(p.states));
    SubsetSize(Named(DoEvict(p, id).states), Named(p.states));
  }

  // ----- the evictor -----

  /** To a client without requests only a sweep or the end of an earlier request can happen, and neither makes a bucket
      busy. */
  lemma InactiveStays(cfg: Config, c: Client, now: int, l: Label, at: int)
    requires Structure.Inv(c) && c.active == 0 && Protocol.Enabled(cfg, c, now, l) && !l.Begin?
    ensures var d := Protocol.Apply(cfg, c, now, l); d.active == 0 && (BucketsQuiet(c, at) ==> BucketsQuiet(d, at))
    ensures Protocol.Apply(cfg, c, now, l).pacer == c.pacer
  {
    hide LocalStep, Wants, Drops, DoLook, DoLearn, DoEnter, DoCount, DoUncount, DoMark, DoSend,
      DoBlockGlobal, DoBlockBucket, DoVerdict, GateTable.Release, Structure.Inv;
    InactiveHasNoRequests(c);
    assert l.Sweep? || l.Touch?;
  }

  lemma StepEvictor(s: Settings, p: Proxy, i: nat, l: Label)
    requires ClientsOk(s, p) && EvictorOk(p) && i < |p.objs| && Protocol.Enabled(s.proto, p.objs[i].client, p.now, l)
    requires l.Begin? ==> p.evictor == Away
    ensures EvictorOk(DoStep(s, p, i, l))
  {
    hide Protocol.Enabled, Protocol.Apply, Charge, Record, BucketsQuiet, SingleFlight.Windows, Credential.Inv,
      Pacer.Inv, Structure.Inv;
    if p.evictor.Testing? && i == p.states[p.evictor.id] && p.objs[i].client.active == 0 {
      InactiveStays(s.proto, p.objs[i].client, p.now, l, p.evictor.at);
    }
  }

  lemma ProbeKeeps(s: Settings, p: Proxy)
    requires p.evictor.Testing? && p.evictor.id in p.states && p.states[p.evictor.id] < |p.objs| && Inv(s, p)
    ensures Inv(s, DoProbe(p))
  {
    hide ClientsOk, Registered, Conserved, Bounded, DoEvict, BucketsQuiet;
    var q := DoProbe(p);
    if p.evictor.seen.Quiet? {
      EvictRegistered(s, p, p.evictor.id);
      EvictConserved(s, p, p.evictor.id);
      EvictBounded(s, p, p.evictor.id);
      var d := DoEvict(p, p.evictor.id);
      EvictKeepsClock(p, p.evictor.id);
      SameRegistry(s, d, q);
      SameCounts(s, d, q);
    } else {
      SameRegistry(s, p, q);
      SameCounts(s, p, q);
    }
  }

  lemma EvictKeepsClock(p: Proxy, id: Identity)
    requires id in p.states && p.states[id] < |p.objs|
    ensures DoEvict(p, id).now == p.now && DoEvict(p, id).history == p.history
  {
  }

  /** Every event keeps the invariant, whatever the hashes. */
  lemma EventKeeps(s: Settings, p: Proxy, e: Event)
    requires Inv(s, p) && Possible(s, p, e)
    ensures Inv(s, After(s, p, e))
  {
    hide ClientsOk, Conserved, Bounded, Protocol.Enabled, Protocol.Apply, Charge, Record, DoStep, DoEvict, DoMake,
      DoProbe, BucketsQuiet;
    match e
    case Tick(later) => SameRegistry(s, p, p.(now := later)); SameCounts(s, p, p.(now := later));
    case Close => SameRegistry(s, p, p.(closed := true)); SameCounts(s, p, p.(closed := true));
    case Make(id) =>
      MakeRegistered(s, p, id);
      MakeConserved(s, p, id);
      MakeBounded(s, p, id);
      MakeAway(s, p, id);
    case Admit(id, r, route, major, interaction, at) =>
      StepKeeps(s, p, p.states[id], Begin(r, route, major, interaction, at));
    case Step(i, l) => StepKeeps(s, p, i, l);
    case Test(id, at) =>
      SameRegistry(s, p, p.(evictor := Testing(id, at, Unread)));
      SameCounts(s, p, p.(evictor := Testing(id, at, Unread)));
    case Probe => ProbeKeeps(s, p);
  }

  lemma MakeAway(s: Settings, p: Proxy, id: Identity)
    ensures DoMake(s, p, id).evictor == p.evictor
  {
    hide NewClient;
  }

  lemma SameCounts(s: Settings, p: Proxy, q: Proxy)
    requires Conserved(s, p) && Bounded(s, p) && q.objs == p.objs && q.states == p.states && q.used == p.used
    ensures Conserved(s, q) && Bounded(s, q)
  {
  }

  lemma InitialIsValid(s: Settings, now: int)
    ensures Inv(s, Initial(s, now))
  {
    hide ClientOk;
    var p := Initial(s, now);
    NewClientOk(s, true, s.limitOf(ANONYMOUS), now);
    assert p.objs[..|p.objs| - 1] == [];
    assert Total(p.objs) == 0;
    assert Current(p, 0);
    assert Bearers(p.states) == {} && Named(p.states) == {};
  }

  // ----- cooldowns, when none is orphaned -----

  /** Cooldowns are remembered across any change that keeps the identities' objects and forgets no cooldown of theirs.
      */
  lemma RememberedKept(p: Proxy, q: Proxy)
    requires AllRemembered(p) && p.now <= q.now && q.history == p.history
    requires forall id :: id in p.states ==> id in q.states && q.states[id] == p.states[id]
    requires |p.objs| <= |q.objs|
    requires forall i: nat :: i < |p.objs| ==> q.objs[i].client.cooldown == p.objs[i].client.cooldown
    ensures AllRemembered(q)
  {
    forall key | key in q.history
      ensures Remembered(q, key)
    {
      assert Remembered(p, key);
    }
  }

  lemma TickTimed(s: Settings, p: Proxy, later: int)
    requires TimedInv(s, p) && p.now <= later
    ensures TimedInv(s, p.(now := later))
  {
    hide Retry.Inv, AllRemembered;
    var q := p.(now := later);
    forall i | 0 <= i < |q.objs|
      ensures Retry.Inv(s.proto, q.objs[i].client, later)
    {
      Retry.TimePasses(s.proto, p.objs[i].client, p.now, later);
    }
    RememberedKept(p, q);
  }

  lemma MakeTimed(s: Settings, p: Proxy, id: Identity)
    requires TimedInv(s, p) && id !in p.states && s.proto.queueTimeout >= 0
    ensures TimedInv(s, DoMake(s, p, id))
  {
    hide Retry.Inv, AllRemembered, NewClient;
    NewClientTimed(s, false, s.limitOf(id), p.now);
    RememberedKept(p, DoMake(s, p, id));
  }

  lemma StepRemembered(s: Settings, p: Proxy, i: nat, l: Label)
    requires AllRemembered(p) && Registered(p) && i < |p.objs| && Protocol.Enabled(s.proto, p.objs[i].client, p.now, l)
    ensures AllRemembered(DoStep(s, p, i, l))
  {
    var c := p.objs[i].client;
    var q := DoStep(s, p, i, l);
    Cooldown.CooldownRecorded(s.proto, c, p.now, l);
    hide Protocol.Apply, Charge, LocalStep, Wants, Drops, RateLimit.Observe;
    forall key | key in q.history
      ensures Remembered(q, key)
    {
      if key in p.history {
        assert Remembered(p, key);
      }
    }
  }

  lemma StepTimed(s: Settings, p: Proxy, i: nat, l: Label)
    requires TimedInv(s, p) && Registered(p) && i < |p.objs|
    requires Protocol.Enabled(s.proto, p.objs[i].client, p.now, l)
    requires Cooldown.Spares(s.proto, p.objs[i].client, p.now, l)
    ensures TimedInv(s, DoStep(s, p, i, l))
  {
    hide Retry.Inv, AllRemembered, Protocol.Enabled, Protocol.Apply, Charge, Record, Cooldown.Spares;
    Retry.StepKeeps(s.proto, p.objs[i].client, p.now, l);
    StepRemembered(s, p, i, l);
  }

  /** Evicting a quiet object loses no cooldown: all of its cooldowns are over. */
  lemma EvictTimed(s: Settings, p: Proxy, id: Identity, at: int)
    requires TimedInv(s, p) && Registered(p) && id in p.states && p.states[id] < |p.objs| && at <= p.now
    requires p.objs[p.states[id]].client.active == 0 && BucketsQuiet(p.objs[p.states[id]].client, at)
    ensures TimedInv(s, DoEvict(p, id))
  {
    hide Retry.Inv, Slots, BucketsQuiet;
    var q := DoEvict(p, id);
    ClearedTimed(s, p.objs[p.states[id]].client, p.now, at);
    forall key | key in q.history
      ensures Remembered(q, key)
    {
      assert Remembered(p, key);
    }
  }

  lemma ProbeTimed(s: Settings, p: Proxy)
    requires TimedInv(s, p) && Registered(p) && EvictorOk(p) && Possible(s, p, Probe)
    ensures TimedInv(s, DoProbe(p))
  {
    hide Retry.Inv, AllRemembered, BucketsQuiet, DoEvict;
    if p.evictor.seen.Quiet? {
      EvictTimed(s, p, p.evictor.id, p.evictor.at);
      EvictorTimed(s, DoEvict(p, p.evictor.id), Away);
    } else {
      EvictorTimed(s, p, DoProbe(p).evictor);
    }
  }

  lemma EvictorTimed(s: Settings, p: Proxy, e: Evictor)
    requires TimedInv(s, p)
    ensures TimedInv(s, p.(evictor := e))
  {
    hide Retry.Inv, AllRemembered;
    RememberedKept(p, p.(evictor := e));
  }

  /** Every event that orphans no cooldown keeps the cooldowns. */
  lemma EventTimed(s: Settings, p: Proxy, e: Event)
    requires TimedInv(s, p) && Registered(p) && EvictorOk(p) && Possible(s, p, e) && Spares(s, p, e)
    requires s.proto.queueTimeout >= 0
    ensures TimedInv(s, After(s, p, e))
  {
    hide Registered, ClientsTimed, AllRemembered, Protocol.Enabled, Protocol.Apply, Charge, Record, DoStep, DoEvict,
      DoMake, DoProbe, BucketsQuiet, EvictorOk;
    match e
    case Tick(later) => TickTimed(s, p, later);
    case Close => CloseTimed(s, p);
    case Make(id) => MakeTimed(s, p, id);
    case Admit(id, r, route, major, interaction, at) =>
      StepTimed(s, p, p.states[id], Begin(r, route, major, interaction, at));
    case Step(i, l) => StepTimed(s, p, i, l);
    case Test(id, at) => EvictorTimed(s, p, Testing(id, at, Unread));
    case Probe => ProbeTimed(s, p);
  }

  lemma CloseTimed(s: Settings, p: Proxy)
    requires TimedInv(s, p)
    ensures TimedInv(s, p.(closed := true))
  {
    hide Retry.Inv, AllRemembered;
    RememberedKept(p, p.(closed := true));
  }

  lemma InitialIsTimed(s: Settings, now: int)
    requires s.proto.queueTimeout >= 0
    ensures TimedInv(s, Initial(s, now))
  {
    hide Retry.Inv, NewClient;
    NewClientTimed(s, true, s.limitOf(ANONYMOUS), now);
  }

  // ----- aliases, when the hashes are disjoint -----

  lemma StepAliased(s: Settings, p: Proxy, i: nat, l: Label, canon: iset<Key>)
    requires ClientsOk(s, p) && ClientsAliased(p, canon) && i < |p.objs|
    requires Protocol.Enabled(s.proto, p.objs[i].client, p.now, l)
    requires Aliases.Disjoint(s.proto, p.objs[i].client, l, canon)
    ensures ClientsAliased(DoStep(s, p, i, l), canon)
  {
    hide Protocol.Enabled, Protocol.Apply, Charge, Record, Aliases.Inv, Aliases.Disjoint, SingleFlight.Inv,
      Credential.Inv, Pacer.Inv;
    Aliases.StepKeeps(s.proto, p.objs[i].client, p.now, l, canon);
  }

  lemma ClearedAliased(c: Client, canon: iset<Key>)
    requires Aliases.Inv(c, canon)
    ensures Aliases.Inv(Cleared(c), canon)
  {
  }

  lemma NewAliased(anonymous: bool, limit: nat, maxWaiters: nat, now: int, canon: iset<Key>)
    ensures Aliases.Inv(NewClient(anonymous, limit, maxWaiters, now), canon)
  {
    hide Pacer.New;
  }

  /** Every event whose hashes respect the partition keeps the aliases sound. */
  lemma EventAliased(s: Settings, p: Proxy, e: Event, canon: iset<Key>)
    requires ClientsOk(s, p) && ClientsAliased(p, canon) && Possible(s, p, e) && Disjoint(s, p, e, canon)
    ensures ClientsAliased(After(s, p, e), canon)
  {
    hide ClientsOk, Protocol.Enabled, Protocol.Apply, Charge, Record, DoStep, NewClient, Aliases.Inv, BucketsQuiet,
      Cleared;
    match e
    case Make(id) => NewAliased(false, s.limitOf(id), s.maxWaiters, p.now, canon);
    case Admit(id, r, route, major, interaction, at) =>
      StepAliased(s, p, p.states[id], Begin(r, route, major, interaction, at), canon);
    case Step(i, l) => StepAliased(s, p, i, l, canon);
    case Probe => ClearedAliased(p.objs[p.states[p.evictor.id]].client, canon);
    case _ =>
  }

  /** An event whose hashes respect the partition orphans no cooldown. */
  lemma DisjointSpares(s: Settings, p: Proxy, e: Event, canon: iset<Key>)
    requires ClientsAliased(p, canon) && Possible(s, p, e) && Disjoint(s, p, e, canon)
    ensures Spares(s, p, e)
  {
    hide Protocol.Enabled, Aliases.Inv, Aliases.Disjoint, Cooldown.Spares, BucketsQuiet;
    if e.Step? {
      Aliases.DisjointSpares(s.proto, p.objs[e.i].client, p.now, e.l, canon);
    }
  }
}
