/** The exception to `CooldownNeverLost` is real wherever it arises: once a learning step has orphaned the cooldown of a
    route, the next request on that route can be sent before the cooldown is over.
 */
module Orphaning {
  import opened Base
  import opened ClientMaps
  import opened Protocol
  import opened ProxyMachine
  import opened Theorems
  import opened Scenario
  import Cooldown
  import Structure
  import GateTable
  import Pacer

  // ----- where a cooldown comes from -----

  /** Only a block changes what is known of cooldowns, and only for the route of its request. */
  lemma StepCooldown(cfg: Config, c: Client, now: int, l: Label, route: Key)
    requires Enabled(cfg, c, now, l)
    ensures var d := Apply(cfg, c, now, l);
            route in d.cooldown ==>
              || (route in c.cooldown && d.cooldown[route] == c.cooldown[route])
              || (&& l.BlockBucket? && c.reqs[l.r].spec.route == route && c.reqs[l.r].pc.stage.plan.bucket.Some?
                  && d.cooldown[route] == l.at + c.reqs[l.r].pc.stage.plan.bucket.value)
  {
    hide LocalStep, Wants, Drops, DoLook, DoLearn, DoEnter, DoCount, DoUncount, DoMark, DoSend, DoBlockGlobal,
      DoVerdict, GateTable.Release, LocalNext, OnGot, OnFail, AfterDrop;
    if Structure.Moves(l) && !l.BlockBucket? {
      Structure.MoveFrame(cfg, c, now, l);
    }
  }

  /** The same for an event. */
  lemma EventCooldown(s: Settings, p: Proxy, e: Event, i: nat, route: Key)
    requires Possible(s, p, e) && i < |After(s, p, e).objs| && route in After(s, p, e).objs[i].client.cooldown
    ensures var until := After(s, p, e).objs[i].client.cooldown[route];
            || (i < |p.objs| && route in p.objs[i].client.cooldown && p.objs[i].client.cooldown[route] == until)
            || (i < |p.objs| && Blocks(s, p, e, p.objs[i].id, route, until))
    ensures i < |p.objs| ==> After(s, p, e).objs[i].id == p.objs[i].id
  {
    hide Enabled, Apply, Charge, Record, Answered, BucketsQuiet, Pacer.New;
    if e.Step? && e.i == i {
      StepCooldown(s.proto, p.objs[i].client, p.now, e.l, route);
    } else if e.Admit? && p.states[e.id] == i {
      StepCooldown(s.proto, p.objs[i].client, p.now, Begin(e.r, e.route, e.major, e.interaction, e.at), route);
    }
  }

  lemma NoCooldownYet(s: Settings, now: int, i: nat)
    requires i < |Initial(s, now).objs|
    ensures Initial(s, now).objs[i].client.cooldown == map[]
  {
    hide Pacer.New;
  }

  /** Every cooldown that a client knows of was announced by a response, earlier in the run. */
  lemma {:induction false} CooldownWasAnnounced(s: Settings, run: Run, k: nat, i: nat, route: Key) returns (j: nat)
    requires IsRun(s, run) && k < |run.states| && i < |run.states[k].objs|
    requires route in run.states[k].objs[i].client.cooldown
    ensures j < k && j < |run.events|
    ensures Blocks(s, run.states[j], run.events[j], run.states[k].objs[i].id, route,
                   run.states[k].objs[i].client.cooldown[route])
    decreases k
  {
    hide Possible, After, Initial, Blocks;
    if k == 0 {
      NoCooldownYet(s, run.states[0].now, i);
    } else {
      var p, e := run.states[k - 1], run.events[k - 1];
      EventCooldown(s, p, e, i, route);
      if i < |p.objs| && route in p.objs[i].client.cooldown
         && p.objs[i].client.cooldown[route] == run.states[k].objs[i].client.cooldown[route] {
        j := CooldownWasAnnounced(s, run, k - 1, i, route);
      } else {
        j := k - 1;
      }
    }
  }

  // ----- what an orphaning step leads to -----

  /** The step makes object `i` learn, and thereby drops the entry that the cooling route `other` is aliased to. */
  ghost predicate Orphaned(s: Settings, p: Proxy, i: nat, r: RequestId, other: Key) {
    && i < |p.objs| && Possible(s, p, Step(i, Protocol.Learn(r, true)))
    && var c := p.objs[i].client;
       && LearnApplies(s.proto, c, c.reqs[r], true)
       && DropsRoute(c.maps, c.reqs[r].spec.route, Canonical(s.proto, c.reqs[r]), c.reqs[r].pc.b)
       && other in c.cooldown && c.cooldown[other] > p.now && other != c.reqs[r].spec.route
       && other in c.maps.aliases && c.maps.aliases[other] == c.reqs[r].spec.route
  }

  /** An orphaning step in the sense of `Cooldown` is one for some route. */
  lemma SomeRouteIsOrphaned(s: Settings, p: Proxy, i: nat, r: RequestId) returns (other: Key)
    requires i < |p.objs| && Possible(s, p, Step(i, Protocol.Learn(r, true)))
    requires !Cooldown.Spares(s.proto, p.objs[i].client, p.now, Protocol.Learn(r, true))
    ensures Orphaned(s, p, i, r, other)
  {
    hide Possible, Canonical, DropsRoute, LearnApplies;
    var c := p.objs[i].client;
    assert Cooldown.Orphans(s.proto, c, p.now, c.reqs[r]);
    other :| other in c.cooldown && c.cooldown[other] > p.now && other != c.reqs[r].spec.route
             && other in c.maps.aliases && c.maps.aliases[other] == c.reqs[r].spec.route;
  }

  /** After the step the route has no bucket. */
  lemma LearnThenGone(s: Settings, run: Run, i: nat, r: RequestId, other: Key) returns (next: Run, d: Client)
    requires IsRun(s, run) && |run.states| == |run.events| + 1 && Orphaned(s, Last(run), i, r, other)
    ensures Reaches(s, next, i, d, Last(run).now) && Extends(run, next) && OnlyObject(Last(run), Last(next), i)
    ensures |next.events| == |run.events| + 1 && next.events[|run.events|] == Step(i, Protocol.Learn(r, true))
    ensures Last(next).used == After(s, Last(run), Step(i, Protocol.Learn(r, true))).used
    ensures Resolve(d.maps, other).None? && d.reqs.Keys == Last(run).objs[i].client.reqs.Keys
    ensures d.validity == Last(run).objs[i].client.validity
  {
    hide IsRun, Canonical, DropsRoute, Net, ClientMaps.Learn, Resolve;
    var c := Last(run).objs[i].client;
    next, d := Take(s, run, i, c, Last(run).now, Protocol.Learn(r, true));
    CollisionLosesBucket(c.maps, c.reqs[r].spec.route, Canonical(s.proto, c.reqs[r]), c.reqs[r].pc.b, other);
  }

  /** A new interaction request on a route that has no bucket is ready to be sent at once. */
  lemma ReadyAtOnce(s: Settings, run: Run, i: nat, c: Client, now: int, id: Identity, r: RequestId, route: Key)
    returns (next: Run, d: Client)
    requires Reaches(s, run, i, c, now) && r !in c.reqs && Resolve(c.maps, route).None? && c.validity != Invalid
    requires s.proto.queueTimeout > 0 && now >= ZERO_TIME && Room(s, run, 2)
    requires var p := Last(run); !p.closed && p.evictor == Away && id in p.states && p.states[id] == i
    ensures Reaches(s, next, i, d, now) && Goes(run, next, i, 1)
    ensures AtStage(d, r) && d.reqs[r].pc.stage.Ready? && d.reqs[r].spec.route == route
  {
    hide Reaches, Goes, Room, Resolve, Create;
    var run1, c1 := Arrive(s, run, i, c, now, id, r, route, true);
    RoomLeft(s, run, run1, i, 0, 2);
    var run2, c2 := AcquireNew(s, run1, i, c1, now, r);
    GoesTwice(run, run1, run2, i, 0, 1);
    var run3, c3 := PassGate(s, run2, i, c2, now, r);
    GoesTwice(run, run2, run3, i, 1, 0);
    next, d := WaitThrough(s, run3, i, c3, now, r);
    GoesTwice(run, run3, next, i, 1, 0);
  }

  lemma SendAtOnce(s: Settings, run: Run, i: nat, c: Client, now: int, id: Identity, r: RequestId, route: Key)
    returns (next: Run)
    requires Reaches(s, run, i, c, now) && r !in c.reqs && Resolve(c.maps, route).None? && c.validity != Invalid
    requires s.proto.queueTimeout > 0 && now >= ZERO_TIME && Room(s, run, 2)
    requires var p := Last(run);
             !p.closed && p.evictor == Away && id in p.states && p.states[id] == i && p.objs[i].id == id
    ensures IsRun(s, next) && Extends(run, next) && |next.states| == |next.events| + 1 && |next.events| > |run.events|
    ensures var k := |next.events| - 1;
            next.states[k].now == now && Sends(s, next.states[k], next.events[k], id, route)
  {
    hide IsRun, Possible, Stores, Room, Resolve;
    var mid, m := ReadyAtOnce(s, run, i, c, now, id, r, route);
    var d;
    next, d := SendNow(s, mid, i, m, now, r);
  }

  /** From every state of every run of an open proxy in which a learning step orphans the cooldown of a route, that step
      has a continuation which sends a request on the route before the cooldown is over; it takes a credential that is
      not known to be invalid and two free slots. So `CooldownNeverLost` needs its hypothesis on every such step. */
  lemma OrphanLosesCooldown(s: Settings, run: Run, i: nat, r: RequestId, other: Key, unused: RequestId)
    returns (next: Run, j: nat, k: nat, until: int)
    requires IsRun(s, run) && |run.states| == |run.events| + 1 && Orphaned(s, Last(run), i, r, other)
    requires var p := Last(run);
             && !p.closed && p.evictor == Away && Current(p, i) && p.now >= ZERO_TIME
             && unused !in p.objs[i].client.reqs && p.objs[i].client.validity != Invalid
             && After(s, p, Step(i, Protocol.Learn(r, true))).used + 2 <= s.maxSlots
    requires s.proto.queueTimeout > 0
    ensures IsRun(s, next) && Extends(run, next) && j < |run.events| < k < |next.events| && k < |next.states|
    ensures next.events[|run.events|] == Step(i, Protocol.Learn(r, true))
    ensures Blocks(s, next.states[j], next.events[j], Last(run).objs[i].id, other, until)
    ensures Sends(s, next.states[k], next.events[k], Last(run).objs[i].id, other) && next.states[k].now < until
  {
    hide IsRun, Blocks, Sends, Orphaned, After, Resolve, Possible;
    var id := Last(run).objs[i].id;
    until := Cooling(s, Last(run), i, r, other);
    j := CooldownWasAnnounced(s, run, |run.events|, i, other);
    var mid, d := LearnThenGone(s, run, i, r, other);
    next := SendAtOnce(s, mid, i, d, Last(run).now, id, unused, other);
    k := |next.events| - 1;
    assert next.states[j] == run.states[j] && next.events[j] == run.events[j];
  }

  lemma Cooling(s: Settings, p: Proxy, i: nat, r: RequestId, other: Key) returns (until: int)
    requires i < |p.objs| && Orphaned(s, p, i, r, other)
    ensures other in p.objs[i].client.cooldown && until == p.objs[i].client.cooldown[other] > p.now
  {
    hide Possible, Canonical, DropsRoute, LearnApplies;
    until := p.objs[i].client.cooldown[other];
  }
}
