/** A global cooldown holds for an identity, not only for the client object that received it.

The evictor reads the cooldown of a client before it reads the rest, so a cooldown that arrives in between has to be
betrayed by the time of last use. That time is stored some while after the clock was read, and an older reading may
overwrite a newer one. So the cooldown is betrayed if the age of the request that raises it and the staleness of the
stored times make up no more than the idle timeout.
 */
module GlobalCooldown {
  import opened Base
  import opened Protocol
  import opened ProxyMachine
  import opened Theorems
  import ProxyInvariant
  import Structure
  import SingleFlight
  import Credential
  import GateTable
  import Pacer
  import RateLimit

  // ----- the time of last use -----

  /** The client reads as last used now or earlier, and no request was admitted more than `stale` after that. */
  ghost predicate Used(c: Client, now: int, stale: nat) {
    c.lastUsed <= now && forall r :: r in c.reqs ==> c.reqs[r].spec.began <= Min(now, c.lastUsed + stale)
  }

  /** If the step stores a time of last use, the clock was read at most `stale` ago. */
  predicate Fresh(l: Label, now: int, stale: nat) {
    l.Begin? || l.Touch? ==> now - l.at <= stale
  }

  lemma MoveUsed(cfg: Config, c: Client, now: int, l: Label, stale: nat)
    requires Used(c, now, stale) && Protocol.Enabled(cfg, c, now, l) && Structure.Moves(l)
    ensures Used(Protocol.Apply(cfg, c, now, l), now, stale) && Protocol.Apply(cfg, c, now, l).lastUsed == c.lastUsed
  {
    hide Protocol.Apply, Protocol.Enabled, Structure.Moved;
    Structure.MoveFrame(cfg, c, now, l);
    Structure.MoveRequest(cfg, c, now, l);
    MovedBegan(c, now, l, c.reqs[l.r], Structure.Mover(cfg, c, now, l));
  }

  lemma MovedBegan(c: Client, now: int, l: Label, q: Request, n: Request)
    requires Structure.Moved(c, now, l, q, n)
    ensures n.spec == q.spec
  {
    hide LocalNext, OnGot, OnFail, AfterDrop, AfterLook, LookTarget, RateLimit.Observe;
  }

  lemma StepUsed(cfg: Config, c: Client, now: int, l: Label, stale: nat)
    requires Used(c, now, stale) && Protocol.Enabled(cfg, c, now, l) && Fresh(l, now, stale)
    ensures Used(Protocol.Apply(cfg, c, now, l), now, stale)
    ensures Protocol.Apply(cfg, c, now, l).lastUsed >= Min(c.lastUsed, now - stale)
  {
    if Structure.Moves(l) {
      MoveUsed(cfg, c, now, l, stale);
    } else {
      hide LocalStep, Wants, Drops, DoLook, DoLearn, DoEnter, DoCount, DoUncount, DoMark, DoSend, DoBlockGlobal,
        DoBlockBucket, DoVerdict, GateTable.Release, LocalNext, OnGot, OnFail, AfterDrop;
    }
  }

  // ----- the cooldown of one client -----

  /** Only a global block changes the cooldown, and only upwards. */
  lemma StepBlocked(cfg: Config, c: Client, now: int, l: Label)
    requires Protocol.Enabled(cfg, c, now, l)
    ensures Protocol.Apply(cfg, c, now, l).pacer.blockedUntil >= c.pacer.blockedUntil
    ensures !(l.BlockGlobal? && c.reqs[l.r].pc.stage.plan.global.Some?) ==>
              Protocol.Apply(cfg, c, now, l).pacer.blockedUntil == c.pacer.blockedUntil
  {
    hide LocalStep, Wants, Drops, DoLook, DoLearn, DoEnter, DoCount, DoUncount, DoMark, DoSend, DoBlockBucket,
      DoVerdict, GateTable.Release, LocalNext, OnGot, OnFail, AfterDrop;
    match l
    case Pace(r) =>
    case BlockGlobal(r, at) =>
    case _ =>
      if Structure.Moves(l) {
        Structure.MoveFrame(cfg, c, now, l);
      }
  }

  // ----- what the evictor may conclude -----

  /** What the evictor has read of the cooldown, less what came after: a cooldown that it missed shows in the time of
      last use, and once that has been read there is none. */
  ghost predicate TestOk(c: Client, at: int, seen: Seen) {
    && (!seen.Unread? ==> c.pacer.blockedUntil <= at || at - c.lastUsed <= IDLE_TIMEOUT)
    && (seen.Unused? || seen.Quiet? ==> c.pacer.blockedUntil <= at)
  }

  ghost predicate Inv(p: Proxy, stale: nat) {
    && (forall i :: 0 <= i < |p.objs| ==> Used(p.objs[i].client, p.now, stale))
    && (p.evictor.Testing? && p.evictor.id in p.states && p.states[p.evictor.id] < |p.objs| ==>
          TestOk(p.objs[p.states[p.evictor.id]].client, p.evictor.at, p.evictor.seen))
  }

  /** If the event raises the global cooldown, its request is no older than `bound`. */
  ghost predicate Prompt(p: Proxy, e: Event, bound: int) {
    e.Step? && e.i < |p.objs| && e.l.BlockGlobal? && AtStage(p.objs[e.i].client, e.l.r) &&
    p.objs[e.i].client.reqs[e.l.r].pc.stage.Marked? &&
    p.objs[e.i].client.reqs[e.l.r].pc.stage.plan.global.Some? ==>
      p.now - p.objs[e.i].client.reqs[e.l.r].spec.began <= bound
  }

  /** No request raises the global cooldown when it is older than `bound`. */
  ghost predicate PromptBlocks(run: Run, bound: int) {
    |run.states| == |run.events| + 1 &&
    forall k :: 0 <= k < |run.events| ==> Prompt(run.states[k], run.events[k], bound)
  }

  /** If the event stores a time of last use, the clock was read at most `stale` ago. */
  predicate FreshEvent(p: Proxy, e: Event, stale: nat) {
    match e
    case Admit(_, _, _, _, _, at) => p.now - at <= stale
    case Step(_, l) => Fresh(l, p.now, stale)
    case _ => true
  }

  /** No time of last use is stored more than `stale` after the clock was read. */
  ghost predicate PromptStores(run: Run, stale: nat) {
    |run.states| == |run.events| + 1 &&
    forall k :: 0 <= k < |run.events| ==> FreshEvent(run.states[k], run.events[k], stale)
  }

  lemma StepTestOk(s: Settings, c: Client, now: int, l: Label, at: int, seen: Seen, bound: nat, stale: nat)
    requires ClientOk(s, c, now) && Used(c, now, stale) && TestOk(c, at, seen) && at <= now
    requires Protocol.Enabled(s.proto, c, now, l) && !l.Begin? && Fresh(l, now, stale) && bound + stale <= IDLE_TIMEOUT
    requires seen.Unused? || seen.Quiet? ==> c.active == 0
    requires l.BlockGlobal? && c.reqs[l.r].pc.stage.plan.global.Some? ==> now - c.reqs[l.r].spec.began <= bound
    ensures TestOk(Protocol.Apply(s.proto, c, now, l), at, seen)
  {
    hide Protocol.Apply, SingleFlight.Windows, Structure.Inv, Credential.Inv, Pacer.Inv, LocalStep, Wants, Drops;
    StepUsed(s.proto, c, now, l, stale);
    StepBlocked(s.proto, c, now, l);
    if c.active == 0 {
      ProxyInvariant.InactiveStays(s.proto, c, now, l, at);
    }
  }

  lemma StepInv(s: Settings, p: Proxy, i: nat, l: Label, bound: nat, stale: nat)
    requires ClientsOk(s, p) && EvictorOk(p) && Inv(p, stale)
    requires i < |p.objs| && Protocol.Enabled(s.proto, p.objs[i].client, p.now, l) && (l.Begin? ==> p.evictor == Away)
    requires Prompt(p, Step(i, l), bound) && Fresh(l, p.now, stale) && bound + stale <= IDLE_TIMEOUT
    ensures Inv(DoStep(s, p, i, l), stale)
  {
    hide Protocol.Apply, Charge, Record, ClientOk, Used, TestOk, BucketsQuiet, LocalStep, Wants, Drops;
    var c := p.objs[i].client;
    assert c.reqs == p.objs[i].client.reqs;
    UsedKept(s, c, p.now, l, stale);
    if p.evictor.Testing? && p.states[p.evictor.id] == i {
      StepTestOk(s, c, p.now, l, p.evictor.at, p.evictor.seen, bound, stale);
    }
  }

  lemma UsedKept(s: Settings, c: Client, now: int, l: Label, stale: nat)
    requires Used(c, now, stale) && Protocol.Enabled(s.proto, c, now, l) && Fresh(l, now, stale)
    ensures Used(Protocol.Apply(s.proto, c, now, l), now, stale)
  {
    StepUsed(s.proto, c, now, l, stale);
  }

  lemma ProbeInv(p: Proxy, stale: nat)
    requires Inv(p, stale) && p.evictor.Testing? && p.evictor.id in p.states && p.states[p.evictor.id] < |p.objs|
    ensures Inv(DoProbe(p), stale)
  {
    hide BucketsQuiet, Used;
    var i := p.states[p.evictor.id];
    if p.evictor.seen.Quiet? {
      hide TestOk;
      ClearedUsed(p.objs[i].client, p.now, stale);
    } else {
      assert DoProbe(p).objs == p.objs && DoProbe(p).states == p.states && DoProbe(p).now == p.now;
    }
  }

  lemma ClearedUsed(c: Client, now: int, stale: nat)
    requires Used(c, now, stale)
    ensures Used(Cleared(c), now, stale)
  {
  }

  lemma EventInv(s: Settings, p: Proxy, e: Event, bound: nat, stale: nat)
    requires ProxyMachine.Inv(s, p) && Inv(p, stale) && Possible(s, p, e)
    requires Prompt(p, e, bound) && FreshEvent(p, e, stale) && bound + stale <= IDLE_TIMEOUT
    ensures Inv(After(s, p, e), stale)
  {
    hide ClientsOk, Registered, Conserved, Bounded, Protocol.Enabled, DoStep, DoProbe, BucketsQuiet, Answered, TestOk;
    match e
    case Make(id) => hide Pacer.New;
    case Admit(id, r, route, major, interaction, at) =>
      StepInv(s, p, p.states[id], Begin(r, route, major, interaction, at), bound, stale);
    case Step(i, l) => StepInv(s, p, i, l, bound, stale);
    case Test(id, at) => UntestedOk(p.objs[p.states[id]].client, at);
    case Probe => ProbeInv(p, stale);
    case _ =>
  }

  /** The ages of the requests that raise the cooldown and of the times of last use are within the idle timeout. */
  ghost predicate Timely(run: Run, bound: nat, stale: nat) {
    PromptBlocks(run, bound) && PromptStores(run, stale) && bound + stale <= IDLE_TIMEOUT
  }

  lemma UntestedOk(c: Client, at: int)
    ensures TestOk(c, at, Unread)
  {
  }

  lemma {:induction false} AlwaysInv(s: Settings, run: Run, k: nat, bound: nat, stale: nat)
    requires IsRun(s, run) && Timely(run, bound, stale) && k < |run.states|
    ensures Inv(run.states[k], stale)
  {
    hide ProxyMachine.Inv, Inv, Possible, After, Initial, Prompt, FreshEvent;
    if k == 0 {
      InitialInv(s, run.states[0].now, stale);
    } else {
      AlwaysInv(s, run, k - 1, bound, stale);
      Always(s, run, k - 1);
      EventInv(s, run.states[k - 1], run.events[k - 1], bound, stale);
    }
  }

  lemma InitialInv(s: Settings, now: int, stale: nat)
    ensures Inv(Initial(s, now), stale)
  {
    hide Pacer.New;
  }

  // ----- the cooldown of an identity -----

  /** The cooldown is over, or the object that received it is still the identity's and still knows it. */
  ghost predicate Kept(p: Proxy, i: nat, until: int) {
    until <= p.now || (Current(p, i) && p.objs[i].client.pacer.blockedUntil >= until)
  }

  lemma StepKept(s: Settings, p: Proxy, i: nat, until: int, j: nat, l: Label)
    requires j < |p.objs| && Protocol.Enabled(s.proto, p.objs[j].client, p.now, l) && Kept(p, i, until)
    ensures Kept(DoStep(s, p, j, l), i, until)
  {
    hide Protocol.Enabled, Protocol.Apply, Charge, Record;
    StepBlocked(s.proto, p.objs[j].client, p.now, l);
  }

  /** An eviction forgets only a cooldown that is over. */
  lemma ProbeKept(p: Proxy, i: nat, until: int, stale: nat)
    requires Inv(p, stale) && EvictorOk(p) && Kept(p, i, until) && p.evictor.Testing?
    ensures Kept(DoProbe(p), i, until)
  {
    hide BucketsQuiet, Used;
  }

  lemma EventKept(s: Settings, p: Proxy, e: Event, i: nat, until: int, stale: nat)
    requires Inv(p, stale) && EvictorOk(p) && Possible(s, p, e) && Kept(p, i, until)
    ensures Kept(After(s, p, e), i, until)
  {
    hide Protocol.Enabled, Answered, NewClient, DoStep, DoProbe, BucketsQuiet, Inv, EvictorOk;
    match e
    case Admit(id, r, route, major, interaction, at) =>
      StepKept(s, p, i, until, p.states[id], Begin(r, route, major, interaction, at));
    case Step(j, l) => StepKept(s, p, i, until, j, l);
    case Probe => ProbeKept(p, i, until, stale);
    case _ =>
  }

  lemma {:induction false} KeptOn(s: Settings, run: Run, j: nat, k: nat, i: nat, until: int, bound: nat, stale: nat)
    requires IsRun(s, run) && Timely(run, bound, stale) && j <= k < |run.states| && Kept(run.states[j], i, until)
    ensures Kept(run.states[k], i, until)
    decreases k - j
  {
    hide Possible, After, Initial, Kept, Timely, Inv, ClientsOk, Registered, Conserved, Bounded, EvictorOk;
    if j < k {
      KeptOn(s, run, j, k - 1, i, until, bound, stale);
      AlwaysInv(s, run, k - 1, bound, stale);
      Always(s, run, k - 1);
      EventKept(s, run.states[k - 1], run.events[k - 1], i, until, stale);
    }
  }

  /** A response to a request of this identity blocks the identity globally until `until`. */
  ghost predicate BlocksAll(s: Settings, p: Proxy, e: Event, id: Identity, until: int) {
    e.Step? && Possible(s, p, e) && e.l.BlockGlobal? && p.objs[e.i].id == id &&
    var plan := p.objs[e.i].client.reqs[e.l.r].pc.stage.plan;
    plan.global.Some? && until == e.l.at + Max(plan.global.value, RateLimit.MINIMUM_RETRY_DELAY)
  }

  /** A request of this identity is granted a global permit. */
  ghost predicate Paces(s: Settings, p: Proxy, e: Event, id: Identity) {
    e.Step? && Possible(s, p, e) && e.l.Pace? && p.objs[e.i].id == id
  }

  lemma BlockIsKept(s: Settings, p: Proxy, e: Event, id: Identity, until: int)
    requires Registered(p) && BlocksAll(s, p, e, id, until)
    ensures Kept(After(s, p, e), e.i, until)
  {
    hide Charge, Record, Answered;
    assert Current(p, e.i);
  }

  lemma PaceWaits(s: Settings, p: Proxy, e: Event, id: Identity, i: nat, until: int)
    requires Registered(p) && Paces(s, p, e, id) && Kept(p, i, until) && i < |p.objs| && p.objs[i].id == id
    ensures until <= p.now
  {
    hide Answered;
    assert Current(p, e.i);
  }

  lemma {:induction false} ObjectsKeepIdentity(s: Settings, run: Run, j: nat, k: nat, i: nat)
    requires IsRun(s, run) && j <= k < |run.states| && i < |run.states[j].objs|
    ensures i < |run.states[k].objs| && run.states[k].objs[i].id == run.states[j].objs[i].id
    decreases k - j
  {
    hide Possible, Initial, After;
    if j < k {
      ObjectsKeepIdentity(s, run, j, k - 1, i);
      IdentityKept(s, run.states[k - 1], run.events[k - 1], i);
    }
  }

  lemma IdentityKept(s: Settings, p: Proxy, e: Event, i: nat)
    requires Possible(s, p, e) && i < |p.objs|
    ensures i < |After(s, p, e).objs| && After(s, p, e).objs[i].id == p.objs[i].id
  {
    hide Protocol.Enabled, Protocol.Apply, Charge, Record, NewClient, Answered, BucketsQuiet;
  }

  /** Once a response blocks an identity globally, no request of that identity is granted a global permit before the
      cooldown is over: on whatever route, and even if the identity's object is evicted and made anew. It takes that the
      age of a request that raises the cooldown and the staleness of a stored time of last use together are within the
      idle timeout; `LateBlock` shows that this is exact. */
  lemma GlobalCooldownNeverLost(s: Settings, run: Run, j: nat, k: nat, id: Identity, until: int, bound: nat, stale: nat)
    requires IsRun(s, run) && j < k < |run.events|
    requires PromptBlocks(run, bound) && PromptStores(run, stale) && bound + stale <= IDLE_TIMEOUT
    requires BlocksAll(s, run.states[j], run.events[j], id, until)
    requires Paces(s, run.states[k], run.events[k], id)
    ensures run.states[k].now >= until
  {
    hide Possible, After, Initial, BlocksAll, Paces, Kept, Registered, ClientsOk, Conserved, Bounded, PromptBlocks,
      PromptStores, EvictorOk;
    var i := StepIndex(s, run.states[j], run.events[j], id, until);
    Always(s, run, j);
    BlockIsKept(s, run.states[j], run.events[j], id, until);
    KeptOn(s, run, j + 1, k, i, until, bound, stale);
    ObjectsKeepIdentity(s, run, j, k, i);
    Always(s, run, k);
    PaceWaits(s, run.states[k], run.events[k], id, i, until);
  }

  lemma StepIndex(s: Settings, p: Proxy, e: Event, id: Identity, until: int) returns (i: nat)
    requires BlocksAll(s, p, e, id, until)
    ensures e.Step? && i == e.i < |p.objs| && p.objs[i].id == id && Possible(s, p, e)
  {
    i := e.i;
  }
}
