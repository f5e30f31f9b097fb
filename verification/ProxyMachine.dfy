/** The whole proxy: all clients, the shared slot budget, admission, eviction and shutdown.

A client object is created for an identity, serves requests, and may be evicted while it is idle; a later request of
the same identity gets a new object. Steps of different clients interleave freely; the clock only moves forward.
 */
module ProxyMachine {
  import opened Base
  import opened ClientMaps
  import opened Protocol
  import Budget
  import SingleFlight
  import Credential
  import Cooldown
  import Aliases
  import Retry
  import Deadlock
  import Pacer

  datatype Kind = Bot | Bearer | NoAuth

  datatype Identity = Identity(kind: Kind, key: nat)

  const ANONYMOUS: Identity := Identity(NoAuth, 0)

  /** `limitOf` is the global limit of an identity, overrides included. */
  datatype Settings = Settings(
    proto: Config, maxBearers: nat, maxClients: nat, maxSlots: nat, maxWaiters: nat, limitOf: Identity -> nat)

  /** What `New` accepts. */
  predicate Accepted(s: Settings) {
    && s.proto.queueTimeout > 0 && s.proto.upstreamTimeout > 0
    && s.maxBearers > 0 && s.maxClients > 0 && s.maxSlots > 0 && s.maxWaiters > 0
  }

  /** An object keeps its identity for good. */
  datatype Object = Object(id: Identity, client: Client)

  /** What an evictor has read of a client so far, in the order of the reads: nothing, that it is under no global
      cooldown, that it has no active request, that it was not used for a while, and that none of its buckets is busy.
      */
  datatype Seen = Unread | Unblocked | Inactive | Unused | Quiet

  /** An evictor tests clients one by one, at a time `at` that it read before. It holds the lock on the clients. */
  datatype Evictor = Away | Testing(id: Identity, at: int, seen: Seen)

  /** `states` maps the identities to their current objects: the maps `bots` and `bearers` and the field `noAuth`.
      `objs` lists every object ever made; those that are no longer current have been evicted. After Close drops the
      maps, `states` stands for what requests still hold on to. `history` is a history variable: per identity and
      route, the latest instant until which a response blocked the route. */
  datatype Proxy = Proxy(
    now: int,
    objs: seq<Object>,
    states: map<Identity, nat>,
    used: int,
    closed: bool,
    evictor: Evictor,
    history: map<(Identity, Key), int>)

  datatype Event =
    | Tick(later: int)
    | Make(id: Identity)
    | Admit(id: Identity, r: RequestId, route: Key, major: string, interaction: bool, at: int)
    | Step(i: nat, l: Label)
    | Test(id: Identity, at: int)
    | Probe
    | Close

  function Initial(s: Settings, now: int): Proxy {
    var noAuth := NewClient(true, s.limitOf(ANONYMOUS), s.maxWaiters, now);
    Proxy(now, [Object(ANONYMOUS, noAuth)], map[ANONYMOUS := 0], 0, false, Away, map[])
  }

  /** What a step of one client adds to the shared count of slots: what the code reserves, less what it releases. */
  function Charge(cfg: Config, c: Client, l: Label): int {
    match l
    case Look(r, granted) => if r in c.reqs && LookCreates(c, c.reqs[r].spec.route, granted) then 1 else 0
    case Learn(r, granted) =>
      if AtStage(c, r) && c.reqs[r].pc.stage.BucketDone? && LearnApplies(cfg, c, c.reqs[r], granted)
      then Net(c.maps, c.reqs[r].spec.route, Canonical(cfg, c.reqs[r]), c.reqs[r].pc.b) else 0
    case Sweep(at, unused) => -SweepReleases(c, at, unused)
    case _ => 0
  }

  /** Entries deleted by a sweep. */
  function SweepReleases(c: Client, at: int, unused: set<nat>): int {
    (|c.maps.buckets| - |DoSweep(c, at, unused).maps.buckets|)
    + (|c.maps.aliases| - |DoSweep(c, at, unused).maps.aliases|)
  }

  /** The budget's answer must be the one the label carries. */
  predicate Answered(s: Settings, p: Proxy, c: Client, l: Label) {
    match l
    case Look(r, granted) =>
      r in c.reqs && Resolve(c.maps, c.reqs[r].spec.route).None? ==> (granted <==> Budget.Fits(p.used, s.maxSlots, 1))
    case Learn(r, granted) =>
      AtStage(c, r) && c.reqs[r].pc.stage.BucketDone? ==>
        (granted <==> Budget.Fits(p.used, s.maxSlots,
                                  Net(c.maps, c.reqs[r].spec.route, Canonical(s.proto, c.reqs[r]), c.reqs[r].pc.b)))
    case _ => true
  }

  /** The loop of `clientState.idle` over the buckets. */
  predicate BucketsQuiet(c: Client, at: int) {
    forall k :: k in c.maps.buckets && c.maps.buckets[k] < |c.pool| ==>
                  c.pool[c.maps.buckets[k]].active == 0 && !(c.pool[c.maps.buckets[k]].readyAt > at)
  }

  function Cleared(c: Client): Client {
    c.(maps := Empty())
  }

  function Bearers(states: map<Identity, nat>): set<Identity> {
    set id | id in states && id.kind == Bearer
  }

  function Named(states: map<Identity, nat>): set<Identity> {
    set id | id in states && id.kind != NoAuth
  }

  ghost predicate Possible(s: Settings, p: Proxy, e: Event) {
    match e
    case Tick(later) => p.now <= later
    case Make(id) =>
      !p.closed && p.evictor == Away && id !in p.states && id.kind != NoAuth
      && (id.kind == Bearer ==> |Bearers(p.states)| < s.maxBearers)
      && |Named(p.states)| < s.maxClients
    case Admit(id, r, route, major, interaction, at) =>
      !p.closed && p.evictor == Away && id in p.states && p.states[id] < |p.objs|
      && Protocol.Enabled(s.proto, p.objs[p.states[id]].client, p.now, Begin(r, route, major, interaction, at))
    case Step(i, l) =>
      i < |p.objs| && !l.Begin? && Protocol.Enabled(s.proto, p.objs[i].client, p.now, l)
      && Answered(s, p, p.objs[i].client, l)
    case Test(id, at) =>
      p.evictor == Away && id.kind != NoAuth && id in p.states && p.states[id] < |p.objs| && at <= p.now
    case Probe => p.evictor.Testing? && p.evictor.id in p.states && p.states[p.evictor.id] < |p.objs|
    case Close => true
  }

  function Record(history: map<(Identity, Key), int>, id: Identity, c: Client, l: Label): map<(Identity, Key), int> {
    if l.BlockBucket? && AtStage(c, l.r) && c.reqs[l.r].pc.stage.GlobalDone?
       && c.reqs[l.r].pc.stage.plan.bucket.Some? then
      var key := (id, c.reqs[l.r].spec.route);
      var until := l.at + c.reqs[l.r].pc.stage.plan.bucket.value;
      history[key := if key in history then Max(history[key], until) else until]
    else history
  }

  function DoMake(s: Settings, p: Proxy, id: Identity): Proxy {
    p.(objs := p.objs + [Object(id, NewClient(false, s.limitOf(id), s.maxWaiters, p.now))],
       states := p.states[id := |p.objs|])
  }

  function WithClient(p: Proxy, i: nat, c: Client): Proxy
    requires i < |p.objs|
  {
    p.(objs := p.objs[i := p.objs[i].(client := c)])
  }

  function DoStep(s: Settings, p: Proxy, i: nat, l: Label): Proxy
    requires i < |p.objs| && Protocol.Enabled(s.proto, p.objs[i].client, p.now, l)
  {
    var o := p.objs[i];
    WithClient(p, i, Protocol.Apply(s.proto, o.client, p.now, l))
      .(used := p.used + Charge(s.proto, o.client, l), history := Record(p.history, o.id, o.client, l))
  }

  function DoEvict(p: Proxy, id: Identity): Proxy
    requires id in p.states && p.states[id] < |p.objs|
  {
    var c := p.objs[p.states[id]].client;
    WithClient(p, p.states[id], Cleared(c)).(used := p.used - Slots(c.maps), states := p.states - {id})
  }

  /** The next read of the idle test, in the order of `clientState.idle`, or the eviction once all have passed. */
  function DoProbe(p: Proxy): Proxy
    requires p.evictor.Testing? && p.evictor.id in p.states && p.states[p.evictor.id] < |p.objs|
  {
    var id, at := p.evictor.id, p.evictor.at;
    var c := p.objs[p.states[id]].client;
    match p.evictor.seen
    case Unread => p.(evictor := if c.pacer.blockedUntil > at then Away else Testing(id, at, Unblocked))
    case Unblocked => p.(evictor := if c.active != 0 then Away else Testing(id, at, Inactive))
    case Inactive => p.(evictor := if at - c.lastUsed <= IDLE_TIMEOUT then Away else Testing(id, at, Unused))
    case Unused => p.(evictor := if BucketsQuiet(c, at) then Testing(id, at, Quiet) else Away)
    case Quiet => DoEvict(p, id).(evictor := Away)
  }

  function After(s: Settings, p: Proxy, e: Event): Proxy
    requires Possible(s, p, e)
  {
    match e
    case Tick(later) => p.(now := later)
    case Make(id) => DoMake(s, p, id)
    case Admit(id, r, route, major, interaction, at) =>
      DoStep(s, p, p.states[id], Begin(r, route, major, interaction, at))
    case Step(i, l) => DoStep(s, p, i, l)
    case Test(id, at) => p.(evictor := Testing(id, at, Unread))
    case Probe => DoProbe(p)
    case Close => p.(closed := true)
  }

  // ----- invariant -----

  function Total(objs: seq<Object>): int {
    if objs == [] then 0 else Total(objs[..|objs| - 1]) + Slots(objs[|objs| - 1].client.maps)
  }

  ghost predicate ClientOk(s: Settings, c: Client, now: int) {
    SingleFlight.Inv(c) && Credential.Inv(s.proto, c) && Pacer.Inv(c.pacer) && Deadlock.SentBefore(c, now)
  }

  ghost predicate ClientsOk(s: Settings, p: Proxy) {
    forall i :: 0 <= i < |p.objs| ==> ClientOk(s, p.objs[i].client, p.now)
  }

  ghost predicate Current(p: Proxy, i: nat) {
    i < |p.objs| && p.objs[i].id in p.states && p.states[p.objs[i].id] == i
  }

  /** The registry leads to objects of the right identity; an object that it no longer leads to has been cleared and
      serves nobody. */
  ghost predicate Registered(p: Proxy) {
    && (forall id :: id in p.states ==> p.states[id] < |p.objs| && p.objs[p.states[id]].id == id)
    && (forall i: nat :: i < |p.objs| && !Current(p, i) ==>
                           p.objs[i].client.reqs == map[] && p.objs[i].client.maps == Empty())
  }

  /** The shared counter is the number of entries of all clients, and stays within the limit. */
  ghost predicate Conserved(s: Settings, p: Proxy) {
    p.used == Total(p.objs) && 0 <= p.used <= s.maxSlots
  }

  ghost predicate Bounded(s: Settings, p: Proxy) {
    |Bearers(p.states)| <= s.maxBearers && |Named(p.states)| <= s.maxClients
  }

  /** What an evictor has read still holds, except that the cooldown and the time of last use may have moved on. */
  ghost predicate EvictorOk(p: Proxy) {
    p.evictor.Testing? ==>
      var e := p.evictor;
      && e.id.kind != NoAuth && e.id in p.states && p.states[e.id] < |p.objs| && e.at <= p.now
      && var c := p.objs[p.states[e.id]].client;
         && (e.seen.Inactive? || e.seen.Unused? || e.seen.Quiet? ==> c.active == 0)
         && (e.seen.Quiet? ==> BucketsQuiet(c, e.at))
  }

  /** What holds in every run. */
  ghost predicate Inv(s: Settings, p: Proxy) {
    ClientsOk(s, p) && Registered(p) && Conserved(s, p) && Bounded(s, p) && EvictorOk(p)
  }

  /** A cooldown recorded for an identity's route is over, or the identity's current object remembers it. */
  ghost predicate Remembered(p: Proxy, key: (Identity, Key)) {
    key in p.history ==>
      || p.history[key] <= p.now
      || (key.0 in p.states && p.states[key.0] < |p.objs| && key.1 in p.objs[p.states[key.0]].client.cooldown
          && p.history[key] <= p.objs[p.states[key.0]].client.cooldown[key.1])
  }

  ghost predicate AllRemembered(p: Proxy) {
    forall key :: key in p.history ==> Remembered(p, key)
  }

  ghost predicate ClientsTimed(s: Settings, p: Proxy) {
    forall i :: 0 <= i < |p.objs| ==> Retry.Inv(s.proto, p.objs[i].client, p.now)
  }

  /** What holds in addition in every run in which no learning step orphans a cooldown. */
  ghost predicate TimedInv(s: Settings, p: Proxy) {
    ClientsTimed(s, p) && AllRemembered(p)
  }

  ghost predicate Spares(s: Settings, p: Proxy, e: Event) {
    e.Step? && e.i < |p.objs| ==> Cooldown.Spares(s.proto, p.objs[e.i].client, p.now, e.l)
  }

  ghost predicate ClientsAliased(p: Proxy, canon: iset<Key>) {
    forall i :: 0 <= i < |p.objs| ==> Aliases.Inv(p.objs[i].client, canon)
  }

  ghost predicate Disjoint(s: Settings, p: Proxy, e: Event, canon: iset<Key>) {
    match e
    case Admit(_, _, route, _, _, _) => route !in canon
    case Step(i, l) => i < |p.objs| ==> Aliases.Disjoint(s.proto, p.objs[i].client, l, canon)
    case _ => true
  }
}
