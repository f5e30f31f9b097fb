/** What holds in every run of the proxy. */
module Theorems {
  import opened Base
  import opened ClientMaps
  import opened Protocol
  import opened ProxyMachine
  import ProxyInvariant
  import Structure
  import SingleFlight
  import Credential
  import Cooldown
  import Retry
  import Aliases
  import Budget
  import Deadlock
  import Pacer

  datatype Run = Run(states: seq<Proxy>, events: seq<Event>)

  /** A run starts with a new proxy and takes one possible event after the other. */
  ghost predicate IsRun(s: Settings, run: Run) {
    && |run.states| == |run.events| + 1
    && run.states[0] == Initial(s, run.states[0].now)
    && forall k :: 0 <= k < |run.events| ==>
                     Possible(s, run.states[k], run.events[k])
                     && run.states[k + 1] == After(s, run.states[k], run.events[k])
  }

  /** No learning step of the run drops an entry that another route, still cooling down, is aliased to. */
  ghost predicate NoOrphans(s: Settings, run: Run) {
    |run.states| == |run.events| + 1 &&
    forall k :: 0 <= k < |run.events| ==> Spares(s, run.states[k], run.events[k])
  }

  /** No route hash of the run is in `canon`; every hash of a learned bucket name is. */
  ghost predicate HashesDisjoint(s: Settings, run: Run, canon: iset<Key>) {
    |run.states| == |run.events| + 1 &&
    forall k :: 0 <= k < |run.events| ==> Disjoint(s, run.states[k], run.events[k], canon)
  }

  lemma {:induction false} Always(s: Settings, run: Run, k: nat)
    requires IsRun(s, run) && k < |run.states|
    ensures Inv(s, run.states[k])
  {
    hide Inv, Possible, After, Initial;
    if k == 0 {
      ProxyInvariant.InitialIsValid(s, run.states[0].now);
    } else {
      Always(s, run, k - 1);
      ProxyInvariant.EventKeeps(s, run.states[k - 1], run.events[k - 1]);
    }
  }

  lemma {:induction false} AlwaysTimed(s: Settings, run: Run, k: nat)
    requires IsRun(s, run) && NoOrphans(s, run) && k < |run.states| && s.proto.queueTimeout >= 0
    ensures TimedInv(s, run.states[k])
  {
    hide TimedInv, Possible, After, Initial, Spares, ClientsOk, Conserved, Bounded, Registered, EvictorOk;
    if k == 0 {
      ProxyInvariant.InitialIsTimed(s, run.states[0].now);
    } else {
      AlwaysTimed(s, run, k - 1);
      Always(s, run, k - 1);
      ProxyInvariant.EventTimed(s, run.states[k - 1], run.events[k - 1]);
    }
  }

  lemma {:induction false} AlwaysAliased(s: Settings, run: Run, k: nat, canon: iset<Key>)
    requires IsRun(s, run) && HashesDisjoint(s, run, canon) && k < |run.states|
    ensures ClientsAliased(run.states[k], canon)
  {
    hide Possible, After, Disjoint, ClientsOk, Conserved, Bounded, Registered, EvictorOk, NewClient, Aliases.Inv;
    if k == 0 {
      ProxyInvariant.NewAliased(true, s.limitOf(ANONYMOUS), s.maxWaiters, run.states[0].now, canon);
    } else {
      AlwaysAliased(s, run, k - 1, canon);
      Always(s, run, k - 1);
      ProxyInvariant.EventAliased(s, run.states[k - 1], run.events[k - 1], canon);
    }
  }

  /** Where route hashes and hashes of bucket names are disjoint, no cooldown is orphaned. */
  lemma DisjointHashesOrphanNothing(s: Settings, run: Run, canon: iset<Key>)
    requires IsRun(s, run) && HashesDisjoint(s, run, canon)
    ensures NoOrphans(s, run)
  {
    hide Possible, After, Initial, Disjoint, Spares, ClientsAliased;
    forall k | 0 <= k < |run.events|
      ensures Spares(s, run.states[k], run.events[k])
    {
      AlwaysAliased(s, run, k, canon);
      ProxyInvariant.DisjointSpares(s, run.states[k], run.events[k], canon);
    }
  }

  lemma ClientAlways(s: Settings, run: Run, k: nat, i: nat)
    requires IsRun(s, run) && k < |run.states| && i < |run.states[k].objs|
    ensures ClientOk(s, run.states[k].objs[i].client, run.states[k].now)
  {
    hide IsRun, ClientOk, Registered, Conserved, Bounded;
    Always(s, run, k);
  }

  /** Single flight: at no point of any run are two attempts of one client in their windows on one route, in one
      bucket, or on two routes aliased to one learned bucket. No assumption on the hashes. */
  lemma SingleFlightAlways(s: Settings, run: Run, k: nat, i: nat, r: RequestId, t: RequestId)
    requires IsRun(s, run) && k < |run.states| && i < |run.states[k].objs|
    requires var c := run.states[k].objs[i].client;
             r in c.reqs && t in c.reqs && r != t && InWindow(c.reqs[r]) && InWindow(c.reqs[t])
    ensures var c := run.states[k].objs[i].client;
            && c.reqs[r].spec.route != c.reqs[t].spec.route
            && c.reqs[r].pc.b != c.reqs[t].pc.b
            && KeyOf(c.maps, c.reqs[r].spec.route) != KeyOf(c.maps, c.reqs[t].spec.route)
            && Resolve(c.maps, c.reqs[r].spec.route) == Some(c.reqs[r].pc.b)
  {
    hide IsRun, Structure.Inv, Credential.Inv, Pacer.Inv;
    ClientAlways(s, run, k, i);
    SingleFlight.NoSharedFlight(run.states[k].objs[i].client, r, t);
  }

  /** Slot conservation: the shared counter always equals the number of entries of all clients, within the limit. */
  lemma SlotsConservedAlways(s: Settings, run: Run, k: nat)
    requires IsRun(s, run) && k < |run.states|
    ensures run.states[k].used == Total(run.states[k].objs)
    ensures 0 <= run.states[k].used <= s.maxSlots
  {
    hide IsRun, ClientsOk, Registered, Bounded;
    Always(s, run, k);
  }

  /** Admission: the caps hold, and a request never runs on an object that was evicted and cleared. */
  lemma AdmissionAlways(s: Settings, run: Run, k: nat, i: nat, r: RequestId)
    requires IsRun(s, run) && k < |run.states|
    ensures |Bearers(run.states[k].states)| <= s.maxBearers
    ensures |Named(run.states[k].states)| <= s.maxClients
    ensures i < |run.states[k].objs| && r in run.states[k].objs[i].client.reqs ==> Current(run.states[k], i)
  {
    hide IsRun, ClientsOk, Conserved;
    Always(s, run, k);
  }

  /** What the budget answers if this request asks it now. */
  function BudgetAnswer(s: Settings, p: Proxy, c: Client, r: RequestId): bool {
    Budget.Fits(p.used, s.maxSlots,
                if AtStage(c, r) && c.reqs[r].pc.stage.BucketDone?
                then Net(c.maps, c.reqs[r].spec.route, Canonical(s.proto, c.reqs[r]), c.reqs[r].pc.b) else 1)
  }

  lemma ProgressAnswered(s: Settings, p: Proxy, c: Client, now: int, r: RequestId)
    requires r in c.reqs && r in c.table.agents && (c.reqs[r].pc.Own? ==> c.reqs[r].pc.b < |c.pool|)
    ensures Answered(s, p, c, Deadlock.Progress(s.proto, c, now, r, BudgetAnswer(s, p, c, r)))
  {
    hide KnownDelay, TooLate, Pacer.CanGrant, Net, Canonical, ClientMaps.Resolve;
  }

  /** Deadlock freedom: in every state of every run the wait-for graph of a client is acyclic, with paths of at most
      four requests, and as long as a client has a request the proxy can take a step of that client other than an
      arrival, a sweep or a cancellation, with the answer that the shared budget gives at this moment. */
  lemma NoDeadlockAlways(s: Settings, run: Run, k: nat, i: nat, r: RequestId, p: seq<RequestId>) returns (l: Label)
    requires IsRun(s, run) && k < |run.states| && i < |run.states[k].objs|
    requires r in run.states[k].objs[i].client.reqs && Deadlock.WaitPath(run.states[k].objs[i].client, p)
    ensures |p| <= 4 && forall x, y :: 0 <= x < y < |p| ==> p[x] != p[y]
    ensures Possible(s, run.states[k], Step(i, l))
    ensures !l.Begin? && !l.Sweep? && !l.Touch? && !l.Cancel?
  {
    hide IsRun, Structure.Inv, Credential.Inv, Pacer.Inv, SingleFlight.Windows, Deadlock.SentBefore, Enabled,
      Deadlock.WaitPath, Answered, Deadlock.Progress, BudgetAnswer;
    ClientAlways(s, run, k, i);
    var c, now := run.states[k].objs[i].client, run.states[k].now;
    Deadlock.NoCycle(c, p);
    var t := Deadlock.NeverStuck(s.proto, c, now, r);
    ProgressAnswered(s, run.states[k], c, now, t);
    l := Deadlock.Progress(s.proto, c, now, t, BudgetAnswer(s, run.states[k], c, t));
  }

  /** Pacing: no client is granted more global permits in any second than its limit. */
  lemma PacedAlways(s: Settings, run: Run, k: nat, i: nat, from: int)
    requires IsRun(s, run) && k < |run.states| && i < |run.states[k].objs|
    ensures |Pacer.InSecond(run.states[k].objs[i].client.pacer, from)| <= run.states[k].objs[i].client.pacer.limit
  {
    hide IsRun, SingleFlight.Inv, Credential.Inv, Deadlock.SentBefore, Pacer.Inv;
    ClientAlways(s, run, k, i);
    Pacer.WindowBound(run.states[k].objs[i].client.pacer, from);
  }

  // ----- credentials -----

  /** While a credential's validity is unknown, at most one ordinary attempt of the client is with Discord. */
  lemma OneValidatorAlways(s: Settings, run: Run, k: nat, i: nat, r: RequestId, t: RequestId)
    requires IsRun(s, run) && k < |run.states| && i < |run.states[k].objs|
    requires var c := run.states[k].objs[i].client;
             && c.validity == Unknown && r in c.reqs && t in c.reqs
             && Sending(c.reqs[r]) && !c.reqs[r].spec.interaction && Sending(c.reqs[t]) && !c.reqs[t].spec.interaction
    ensures r == t
  {
    hide IsRun, SingleFlight.Inv, Structure.Inv, Pacer.Inv, Deadlock.SentBefore;
    ClientAlways(s, run, k, i);
    Credential.OneValidatingAttempt(s.proto, run.states[k].objs[i].client, r, t);
  }

  lemma EventValidity(s: Settings, p: Proxy, e: Event, i: nat)
    requires Inv(s, p) && Possible(s, p, e) && i < |p.objs|
    ensures i < |After(s, p, e).objs|
    ensures Credential.Allowed(p.objs[i].client.validity, After(s, p, e).objs[i].client.validity)
  {
    hide Protocol.Enabled, Protocol.Apply, Charge, Record, BucketsQuiet, SingleFlight.Inv, Credential.Inv, Pacer.Inv,
      Registered, Conserved, Bounded, NewClient, Answered;
    if e.Step? && e.i == i {
      Credential.StepKeeps(s.proto, p.objs[i].client, p.now, e.l);
    } else if e.Admit? && p.states[e.id] == i {
      Credential.StepKeeps(s.proto, p.objs[i].client, p.now, Begin(e.r, e.route, e.major, e.interaction, e.at));
    }
  }

  /** Validity moves only from unknown to valid or invalid and from valid to invalid, over any stretch of any run. */
  lemma {:induction false} ValidityMonotone(s: Settings, run: Run, j: nat, k: nat, i: nat)
    requires IsRun(s, run) && j <= k < |run.states| && i < |run.states[j].objs|
    ensures i < |run.states[k].objs|
    ensures Credential.Allowed(run.states[j].objs[i].client.validity, run.states[k].objs[i].client.validity)
    decreases k - j
  {
    hide Inv, Possible, After, Initial;
    if j < k {
      ValidityMonotone(s, run, j, k - 1, i);
      Always(s, run, k - 1);
      EventValidity(s, run.states[k - 1], run.events[k - 1], i);
    }
  }

  // ----- cooldowns -----

  lemma EventHistory(s: Settings, p: Proxy, e: Event, key: (Identity, Key))
    requires Possible(s, p, e)
    ensures key in p.history ==> key in After(s, p, e).history && p.history[key] <= After(s, p, e).history[key]
  {
    hide Protocol.Enabled, Protocol.Apply, Charge, BucketsQuiet, NewClient, Answered;
  }

  lemma {:induction false} HistoryGrows(s: Settings, run: Run, j: nat, k: nat, key: (Identity, Key))
    requires IsRun(s, run) && j <= k < |run.states| && key in run.states[j].history
    ensures key in run.states[k].history && run.states[j].history[key] <= run.states[k].history[key]
    decreases k - j
  {
    hide Possible, After, Initial;
    if j < k {
      HistoryGrows(s, run, j, k - 1, key);
      EventHistory(s, run.states[k - 1], run.events[k - 1], key);
    }
  }

  /** A response to a request of this identity on this route blocks the route's bucket until `until`. */
  ghost predicate Blocks(s: Settings, p: Proxy, e: Event, id: Identity, route: Key, until: int) {
    e.Step? && Possible(s, p, e) && e.l.BlockBucket? && p.objs[e.i].id == id &&
    var q := p.objs[e.i].client.reqs[e.l.r];
    q.spec.route == route && q.pc.stage.plan.bucket.Some? && until == e.l.at + q.pc.stage.plan.bucket.value
  }

  /** A request of this identity on this route is sent to Discord. */
  ghost predicate Sends(s: Settings, p: Proxy, e: Event, id: Identity, route: Key) {
    e.Step? && Possible(s, p, e) && e.l.Send? && p.objs[e.i].id == id
    && p.objs[e.i].client.reqs[e.l.r].spec.route == route
  }

  lemma BlockRecorded(s: Settings, p: Proxy, e: Event, id: Identity, route: Key, until: int)
    requires Blocks(s, p, e, id, route, until)
    ensures (id, route) in After(s, p, e).history && After(s, p, e).history[(id, route)] >= until
  {
    hide Protocol.Apply, Charge, Answered;
  }

  lemma SendRespects(s: Settings, p: Proxy, e: Event, id: Identity, route: Key)
    requires Inv(s, p) && TimedInv(s, p) && Sends(s, p, e, id, route) && (id, route) in p.history
    ensures p.history[(id, route)] <= p.now
  {
    hide Charge, Answered, ClientsOk, Conserved, Bounded, Cooldown.Inv, Retry.Timings, LocalStep, Wants, Drops;
    var c := p.objs[e.i].client;
    assert Current(p, e.i);
    assert Remembered(p, (id, route));
    Cooldown.SendAfterCooldown(s.proto, c, p.now, e.l.r);
  }

  /** A route's cooldown is never lost. If at one point of a run a response blocks a route of an identity until some
      instant, every later attempt of that identity on that route is sent at or after it: across alias learning,
      merges, refused learning, sweeps, and even the eviction and re-creation of the identity's object. The one
      exception is a learning step that orphans a cooldown by a collision of hashes. */
  lemma CooldownNeverLost(s: Settings, run: Run, j: nat, k: nat, id: Identity, route: Key, until: int)
    requires IsRun(s, run) && NoOrphans(s, run) && s.proto.queueTimeout >= 0
    requires j < k < |run.events|
    requires Blocks(s, run.states[j], run.events[j], id, route, until)
    requires Sends(s, run.states[k], run.events[k], id, route)
    ensures run.states[k].now >= until
  {
    hide Blocks, Sends, Possible, After, Inv, TimedInv, Initial, Spares;
    BlockRecorded(s, run.states[j], run.events[j], id, route, until);
    HistoryGrows(s, run, j + 1, k, (id, route));
    Always(s, run, k);
    AlwaysTimed(s, run, k);
    SendRespects(s, run.states[k], run.events[k], id, route);
  }

  /** Retries end: in every run in which no cooldown is orphaned, no request is sent more than
      QueueTimeout / 50 ms + 2 times. */
  lemma AttemptsBoundedAlways(s: Settings, run: Run, k: nat, i: nat, r: RequestId)
    requires IsRun(s, run) && NoOrphans(s, run) && s.proto.queueTimeout >= 0
    requires k < |run.states| && i < |run.states[k].objs| && r in run.states[k].objs[i].client.reqs
    ensures run.states[k].objs[i].client.reqs[r].t.attempts <= s.proto.queueTimeout / Retry.PAUSE + 2
  {
    hide IsRun, NoOrphans, AllRemembered, Cooldown.Inv, Retry.Timings;
    AlwaysTimed(s, run, k);
    Retry.AttemptBound(s.proto, run.states[k].objs[i].client, run.states[k].now, r);
  }

  /** In every such run, a retry is sent at least 50 ms after the 429 before it was observed. */
  lemma RetriesPauseAlways(s: Settings, run: Run, k: nat, i: nat, r: RequestId)
    requires IsRun(s, run) && NoOrphans(s, run) && s.proto.queueTimeout >= 0
    requires k < |run.events| && run.events[k] == Step(i, Send(r)) && i < |run.states[k].objs|
    requires r in run.states[k].objs[i].client.reqs && run.states[k].objs[i].client.reqs[r].t.attempts > 0
    ensures run.states[k].now >= run.states[k].objs[i].client.reqs[r].t.observed + Retry.PAUSE
  {
    hide NoOrphans, AllRemembered, Retry.Inv, Answered, Spares;
    AlwaysTimed(s, run, k);
    assert Possible(s, run.states[k], run.events[k]);
    Retry.AttemptsApart(s.proto, run.states[k].objs[i].client, run.states[k].now, r);
  }

  // ----- aliases -----

  /** Alias integrity: every alias names an existing bucket, an aliased route has no entry of its own, and routes with
      one alias share one bucket. */
  lemma AliasesSoundAlways(s: Settings, run: Run, canon: iset<Key>, k: nat, i: nat, r: Key, t: Key)
    requires IsRun(s, run) && HashesDisjoint(s, run, canon)
    requires k < |run.states| && i < |run.states[k].objs| && r in run.states[k].objs[i].client.maps.aliases
    ensures var m := run.states[k].objs[i].client.maps;
            && m.aliases[r] in m.buckets && r !in m.buckets
            && (t in m.aliases && m.aliases[t] == m.aliases[r] ==>
                Resolve(m, t).Some? && Resolve(m, t) == Resolve(m, r))
  {
    hide IsRun, HashesDisjoint;
    AlwaysAliased(s, run, k, canon);
    assert Aliases.Inv(run.states[k].objs[i].client, canon);
  }

  /** The event neither sweeps nor evicts this object. */
  predicate LeavesMaps(p: Proxy, e: Event, i: nat) {
    && (e.Step? && e.i == i ==> !e.l.Sweep?)
    && (e.Probe? && p.evictor.Testing? && p.evictor.id in p.states && p.states[p.evictor.id] == i ==>
          !p.evictor.seen.Quiet?)
  }

  lemma EventKeepsCanonical(s: Settings, p: Proxy, e: Event, canon: iset<Key>, i: nat, key: Key)
    requires Possible(s, p, e) && i < |p.objs| && LeavesMaps(p, e, i) && Aliases.Inv(p.objs[i].client, canon)
    requires key in canon && key in p.objs[i].client.maps.buckets
    ensures i < |After(s, p, e).objs| && key in After(s, p, e).objs[i].client.maps.buckets
    ensures After(s, p, e).objs[i].client.maps.buckets[key] == p.objs[i].client.maps.buckets[key]
  {
    hide Protocol.Enabled, Protocol.Apply, Charge, Record, NewClient, Answered, BucketsQuiet, Aliases.Inv, Cleared;
    if e.Step? && e.i == i {
      Aliases.CanonicalKept(s.proto, p.objs[i].client, p.now, e.l, canon, key);
    } else if e.Admit? && p.states[e.id] == i {
      Aliases.CanonicalKept(s.proto, p.objs[i].client, p.now, Begin(e.r, e.route, e.major, e.interaction, e.at), canon,
                            key);
    }
  }

  lemma {:induction false} CanonicalStays(s: Settings, run: Run, canon: iset<Key>, j: nat, k: nat, i: nat, key: Key)
    requires IsRun(s, run) && HashesDisjoint(s, run, canon) && j <= k < |run.states| && i < |run.states[j].objs|
    requires forall m :: j <= m < k ==> LeavesMaps(run.states[m], run.events[m], i)
    requires key in canon && key in run.states[j].objs[i].client.maps.buckets
    ensures i < |run.states[k].objs| && key in run.states[k].objs[i].client.maps.buckets
    ensures run.states[k].objs[i].client.maps.buckets[key] == run.states[j].objs[i].client.maps.buckets[key]
    decreases k - j
  {
    hide Possible, After, Initial, Disjoint, LeavesMaps, Aliases.Inv;
    if j < k {
      CanonicalStays(s, run, canon, j, k - 1, i, key);
      AlwaysAliased(s, run, k - 1, canon);
      EventKeepsCanonical(s, run.states[k - 1], run.events[k - 1], canon, i, key);
    }
  }

  /** Until the object is swept or evicted, a bucket name keeps its bucket: routes that are aliased to it, at whatever
      two points of the stretch, resolve to one and the same bucket object. */
  lemma SharedUntilSwept(s: Settings, run: Run, canon: iset<Key>, j: nat, k: nat, i: nat, r: Key, t: Key)
    requires IsRun(s, run) && HashesDisjoint(s, run, canon) && j <= k < |run.states| && i < |run.states[j].objs|
    requires forall m :: j <= m < k ==> LeavesMaps(run.states[m], run.events[m], i)
    requires i < |run.states[k].objs|
    requires r in run.states[j].objs[i].client.maps.aliases && t in run.states[k].objs[i].client.maps.aliases
    requires run.states[j].objs[i].client.maps.aliases[r] == run.states[k].objs[i].client.maps.aliases[t]
    ensures Resolve(run.states[j].objs[i].client.maps, r).Some?
    ensures Resolve(run.states[k].objs[i].client.maps, t) == Resolve(run.states[j].objs[i].client.maps, r)
  {
    hide IsRun, HashesDisjoint, LeavesMaps;
    AlwaysAliased(s, run, j, canon);
    assert Aliases.Inv(run.states[j].objs[i].client, canon);
    CanonicalStays(s, run, canon, j, k, i, run.states[j].objs[i].client.maps.aliases[r]);
  }
}
