/** Nothing is held back without reason: every cooldown in force was announced by a response, a request waits only for
    cooldowns that leave it time for an attempt, and it is turned away only from queues that are full.
 */
module Announced {
  import opened Base
  import opened ClientMaps
  import opened Protocol
  import opened ProxyMachine
  import opened Theorems
  import GlobalCooldown
  import GateTable
  import FifoGate
  import Pacer
  import RateLimit

  // ----- cooldowns of buckets -----

  /** The event blocks a bucket of object `i` until `until`, as a response asked. */
  ghost predicate BlocksBucket(s: Settings, p: Proxy, e: Event, i: nat, until: int) {
    && e.Step? && e.i == i < |p.objs| && e.l.BlockBucket? && Possible(s, p, e)
    && var plan := p.objs[i].client.reqs[e.l.r].pc.stage.plan;
       plan.bucket.Some? && until == e.l.at + plan.bucket.value
  }

  /** A bucket is ready when one was before, or when it always was, or when the response of this step says. */
  ghost predicate ReadyFrom(c: Client, l: Label, ready: int) {
    || ready == ZERO_TIME
    || (exists b :: 0 <= b < |c.pool| && c.pool[b].readyAt == ready)
    || (&& l.BlockBucket? && AtStage(c, l.r) && c.reqs[l.r].pc.stage.GlobalDone?
        && c.reqs[l.r].pc.stage.plan.bucket.Some? && ready == l.at + c.reqs[l.r].pc.stage.plan.bucket.value)
  }

  lemma SameReady(c: Client, l: Label, b: nat, ready: int)
    requires b < |c.pool| && c.pool[b].readyAt == ready
    ensures ReadyFrom(c, l, ready)
  {
  }

  lemma LearnReady(cfg: Config, c: Client, r: RequestId, granted: bool, b: nat)
    requires AtStage(c, r) && c.reqs[r].pc.stage.BucketDone? && b < |DoLearn(cfg, c, r, granted).pool|
    ensures |DoLearn(cfg, c, r, granted).pool| == |c.pool|
    ensures exists a :: 0 <= a < |c.pool| && c.pool[a].readyAt == DoLearn(cfg, c, r, granted).pool[b].readyAt
  {
    hide Canonical, ClientMaps.Learn, Net;
    var d := DoLearn(cfg, c, r, granted);
    var own := c.reqs[r].pc.b;
    assert d.pool[b].readyAt == c.pool[b].readyAt || d.pool[b].readyAt == c.pool[own].readyAt;
  }

  lemma StepReady(cfg: Config, c: Client, now: int, l: Label, b: nat)
    requires Enabled(cfg, c, now, l) && b < |Apply(cfg, c, now, l).pool|
    ensures ReadyFrom(c, l, Apply(cfg, c, now, l).pool[b].readyAt)
  {
    hide LocalStep, Wants, Drops, DoLearn, DoEnter, DoMark, DoSend, DoBlockGlobal, DoVerdict, GateTable.Release,
      LocalNext, OnGot, OnFail, AfterDrop, AfterLook, LookTarget, ReadyFrom;
    var d := Apply(cfg, c, now, l);
    if l.Learn? {
      LearnReady(cfg, c, l.r, l.granted, b);
      var a :| 0 <= a < |c.pool| && c.pool[a].readyAt == d.pool[b].readyAt;
      SameReady(c, l, a, d.pool[b].readyAt);
    } else if b < |c.pool| && d.pool[b].readyAt == c.pool[b].readyAt {
      SameReady(c, l, b, d.pool[b].readyAt);
    } else {
      OtherReady(cfg, c, now, l, b);
    }
  }

  lemma OtherReady(cfg: Config, c: Client, now: int, l: Label, b: nat)
    requires Enabled(cfg, c, now, l) && b < |Apply(cfg, c, now, l).pool| && !l.Learn?
    requires b < |c.pool| ==> Apply(cfg, c, now, l).pool[b].readyAt != c.pool[b].readyAt
    ensures ReadyFrom(c, l, Apply(cfg, c, now, l).pool[b].readyAt)
  {
    hide LocalStep, Wants, Drops, GateTable.Enter, GateTable.Release, LocalNext, OnGot, OnFail, AfterDrop, AfterLook,
      LookTarget, RateLimit.Observe, Pacer.BlockFor;
  }

  lemma EventReady(s: Settings, p: Proxy, e: Event, i: nat, b: nat)
    requires Possible(s, p, e) && i < |After(s, p, e).objs| && b < |After(s, p, e).objs[i].client.pool|
    ensures var ready := After(s, p, e).objs[i].client.pool[b].readyAt;
            || ready == ZERO_TIME || BlocksBucket(s, p, e, i, ready)
            || (i < |p.objs| &&
                exists a :: 0 <= a < |p.objs[i].client.pool| && p.objs[i].client.pool[a].readyAt == ready)
  {
    hide Enabled, Apply, Charge, Record, Answered, BucketsQuiet, Pacer.New;
    if e.Step? && e.i == i {
      StepReady(s.proto, p.objs[i].client, p.now, e.l, b);
    } else if e.Admit? && p.states[e.id] == i {
      StepReady(s.proto, p.objs[i].client, p.now, Begin(e.r, e.route, e.major, e.interaction, e.at), b);
    } else if i < |p.objs| {
      assert p.objs[i].client.pool[b].readyAt == After(s, p, e).objs[i].client.pool[b].readyAt;
    }
  }

  /** In every run, a bucket is held back only until an instant that a response to its client announced earlier. */
  lemma {:induction false} BucketCooldownWasAnnounced(s: Settings, run: Run, k: nat, i: nat, b: nat) returns (j: nat)
    requires IsRun(s, run) && k < |run.states| && i < |run.states[k].objs| && b < |run.states[k].objs[i].client.pool|
    requires run.states[k].objs[i].client.pool[b].readyAt != ZERO_TIME
    ensures j < k && j < |run.events|
    ensures BlocksBucket(s, run.states[j], run.events[j], i, run.states[k].objs[i].client.pool[b].readyAt)
    decreases k
  {
    hide Possible, After, Initial, BlocksBucket;
    if k == 0 {
      NoBucketsYet(s, run.states[0].now, i);
    } else {
      var p, e := run.states[k - 1], run.events[k - 1];
      var ready := run.states[k].objs[i].client.pool[b].readyAt;
      EventReady(s, p, e, i, b);
      if BlocksBucket(s, p, e, i, ready) {
        j := k - 1;
      } else {
        var a :| 0 <= a < |p.objs[i].client.pool| && p.objs[i].client.pool[a].readyAt == ready;
        j := BucketCooldownWasAnnounced(s, run, k - 1, i, a);
      }
    }
  }

  lemma NoBucketsYet(s: Settings, now: int, i: nat)
    requires i < |Initial(s, now).objs|
    ensures Initial(s, now).objs[i].client.pool == []
    ensures Initial(s, now).objs[i].client.pacer.blockedUntil == ZERO_TIME
    ensures Initial(s, now).objs[i].client.table.maxWaiters == s.maxWaiters
  {
  }

  // ----- the global cooldown -----

  lemma StepBlockedFrom(cfg: Config, c: Client, now: int, l: Label)
    requires Enabled(cfg, c, now, l)
    ensures var until := Apply(cfg, c, now, l).pacer.blockedUntil;
            || until == c.pacer.blockedUntil
            || (&& l.BlockGlobal? && c.reqs[l.r].pc.stage.plan.global.Some?
                && until == l.at + Max(c.reqs[l.r].pc.stage.plan.global.value, RateLimit.MINIMUM_RETRY_DELAY))
  {
    hide LocalStep, Wants, Drops, DoLook, DoLearn, DoEnter, DoCount, DoUncount, DoMark, DoSend, DoBlockBucket,
      DoVerdict, GateTable.Release, LocalNext, OnGot, OnFail, AfterDrop;
    if !l.BlockGlobal? {
      GlobalCooldown.StepBlocked(cfg, c, now, l);
    }
  }

  lemma EventBlockedFrom(s: Settings, p: Proxy, e: Event, i: nat)
    requires Possible(s, p, e) && i < |After(s, p, e).objs|
    ensures var until := After(s, p, e).objs[i].client.pacer.blockedUntil;
            || until == ZERO_TIME
            || (i < |p.objs| && p.objs[i].client.pacer.blockedUntil == until)
            || (i < |p.objs| && e.Step? && e.i == i && GlobalCooldown.BlocksAll(s, p, e, p.objs[i].id, until))
    ensures i < |p.objs| ==> After(s, p, e).objs[i].id == p.objs[i].id
  {
    hide Enabled, Apply, Charge, Record, Answered, BucketsQuiet;
    if e.Step? && e.i == i {
      StepBlockedFrom(s.proto, p.objs[i].client, p.now, e.l);
    } else if e.Admit? && p.states[e.id] == i {
      StepBlockedFrom(s.proto, p.objs[i].client, p.now, Begin(e.r, e.route, e.major, e.interaction, e.at));
    }
  }

  /** In every run, the pacer of a client is held back only until an instant that a global 429 announced earlier. */
  lemma {:induction false} GlobalCooldownWasAnnounced(s: Settings, run: Run, k: nat, i: nat) returns (j: nat)
    requires IsRun(s, run) && k < |run.states| && i < |run.states[k].objs|
    requires run.states[k].objs[i].client.pacer.blockedUntil != ZERO_TIME
    ensures j < k && j < |run.events| && run.events[j].Step? && run.events[j].i == i
    ensures GlobalCooldown.BlocksAll(s, run.states[j], run.events[j], run.states[k].objs[i].id,
                                     run.states[k].objs[i].client.pacer.blockedUntil)
    decreases k
  {
    hide Possible, After, Initial, GlobalCooldown.BlocksAll;
    if k == 0 {
      NoBucketsYet(s, run.states[0].now, i);
    } else {
      var p, e := run.states[k - 1], run.events[k - 1];
      EventBlockedFrom(s, p, e, i);
      if i < |p.objs| && p.objs[i].client.pacer.blockedUntil == run.states[k].objs[i].client.pacer.blockedUntil {
        j := GlobalCooldownWasAnnounced(s, run, k - 1, i);
      } else {
        j := k - 1;
      }
    }
  }

  // ----- deadlines -----

  /** A cooldown that is over, or that ends early enough for an attempt before the deadline. */
  predicate InReach(cfg: Config, q: Request, until: int, now: int) {
    until <= now || until + cfg.upstreamTimeout < q.t.deadline
  }

  /** At the top of the attempt loop a request goes on to wait exactly when the cooldown of its bucket, and for an
      ordinary request that of the pacer, is in reach. */
  lemma LoopTopIff(cfg: Config, c: Client, now: int, r: RequestId)
    requires AtStage(c, r) && c.reqs[r].pc.stage.LoopTop?
    ensures var q, b := c.reqs[r], c.reqs[r].pc.b;
            Enabled(cfg, c, now, Local(r, Own(b, WaitCtx))) <==>
              && InReach(cfg, q, c.pool[b].readyAt, now)
              && (q.spec.interaction || InReach(cfg, q, c.pacer.blockedUntil, now))
  {
  }

  /** A request that waits for its bucket goes on exactly when the cooldown it has read is still in reach, and is done
      with waiting exactly when it is over. */
  lemma BucketWaitIff(cfg: Config, c: Client, now: int, r: RequestId)
    requires AtStage(c, r) && c.reqs[r].pc.stage.WaitEval?
    ensures var q, b, seen := c.reqs[r], c.reqs[r].pc.b, c.reqs[r].pc.stage.seen;
            && (Enabled(cfg, c, now, Local(r, Own(b, WaitCtx))) <==>
                  seen > now && seen + cfg.upstreamTimeout < q.t.deadline)
            && (Enabled(cfg, c, now, Local(r, Own(b, if q.spec.interaction then Ready else PaceEnter))) <==>
                  seen <= now)
  {
  }

  /** A request that waits at the pacer goes on exactly when the schedule does not let it through yet and the global
      cooldown is in reach; it is granted a permit exactly when the schedule does let it through. */
  lemma PacerWaitIff(cfg: Config, c: Client, now: int, r: RequestId)
    requires AtStage(c, r) && c.reqs[r].pc.stage.PaceTry?
    ensures var q, b := c.reqs[r], c.reqs[r].pc.b;
            && (Enabled(cfg, c, now, Local(r, Own(b, PaceLoop))) <==>
                  (c.pacer.next > now || c.pacer.blockedUntil > now) && InReach(cfg, q, c.pacer.blockedUntil, now))
            && (Enabled(cfg, c, now, Pace(r)) <==> c.pacer.next <= now && c.pacer.blockedUntil <= now)
  {
  }

  /** A request whose response has been dealt with starts over exactly when that was a 429 and the cooldowns of the
      bucket it was taught, and of the pacer for an ordinary request, are in reach. */
  lemma RetryIff(cfg: Config, c: Client, now: int, r: RequestId)
    requires AtStage(c, r) && c.reqs[r].pc.stage.Decided? && c.reqs[r].pc.stage.seenBucket < |c.pool|
    ensures var q, b := c.reqs[r], c.reqs[r].pc.b;
            Enabled(cfg, c, now, Local(r, Uncounting(b, Again))) <==>
              && q.pc.stage.plan.limited && InReach(cfg, q, c.pool[q.pc.stage.seenBucket].readyAt, now)
              && (q.spec.interaction || InReach(cfg, q, c.pacer.blockedUntil, now))
  {
  }

  // ----- queues -----

  lemma StepWaiters(cfg: Config, c: Client, now: int, l: Label)
    requires Enabled(cfg, c, now, l)
    ensures Apply(cfg, c, now, l).table.maxWaiters == c.table.maxWaiters
  {
    hide LocalStep, Wants, Drops, LocalNext, OnGot, OnFail, AfterDrop, AfterLook, LookTarget, RateLimit.Observe,
      Canonical, ClientMaps.Learn, Create, FifoGate.Enter, FifoGate.Cancel, FifoGate.Release;
  }

  lemma EventWaiters(s: Settings, p: Proxy, e: Event)
    requires Possible(s, p, e) && forall i :: 0 <= i < |p.objs| ==> p.objs[i].client.table.maxWaiters == s.maxWaiters
    ensures forall i :: 0 <= i < |After(s, p, e).objs| ==>
                          After(s, p, e).objs[i].client.table.maxWaiters == s.maxWaiters
  {
    hide Enabled, Apply, Charge, Record, Answered, BucketsQuiet, Pacer.New;
    match e
    case Step(i, l) => StepWaiters(s.proto, p.objs[i].client, p.now, l);
    case Admit(id, r, route, major, interaction, at) =>
      StepWaiters(s.proto, p.objs[p.states[id]].client, p.now, Begin(r, route, major, interaction, at));
    case _ =>
  }

  lemma {:induction false} AlwaysWaiters(s: Settings, run: Run, k: nat)
    requires IsRun(s, run) && k < |run.states|
    ensures forall i :: 0 <= i < |run.states[k].objs| ==> run.states[k].objs[i].client.table.maxWaiters == s.maxWaiters
  {
    hide Possible, After;
    if k == 0 {
      hide Pacer.New;
    } else {
      AlwaysWaiters(s, run, k - 1);
      EventWaiters(s, run.states[k - 1], run.events[k - 1]);
    }
  }

  /** The gate that a request is about to enter. */
  function Door(pc: PC): Option<GateTable.GateId> {
    if pc.Entering? then Some(GateTable.BucketGate(pc.b))
    else if pc.Own? && pc.stage.ValEnter? then Some(GateTable.ValidationGate)
    else if pc.Own? && pc.stage.PaceEnter? then Some(GateTable.PacerGate)
    else None
  }

  /** What a request is left with when the queue is full. */
  predicate TurnedAway(pc: PC) {
    pc.AbortCount? || (pc.Own? && pc.stage.Exiting?)
  }

  lemma EnterOutcome(cfg: Config, c: Client, now: int, r: RequestId)
    requires Enabled(cfg, c, now, Protocol.Enter(r))
    ensures var d := Apply(cfg, c, now, Protocol.Enter(r));
            && Door(c.reqs[r].pc).Some? && Door(c.reqs[r].pc).value in c.table.gates && r in d.reqs
            && var gate := c.table.gates[Door(c.reqs[r].pc).value];
               && (TurnedAway(d.reqs[r].pc) <==> gate.held && |gate.waiters| >= c.table.maxWaiters)
               && (d.reqs[r].pc == c.reqs[r].pc <==> gate.held && |gate.waiters| < c.table.maxWaiters)
  {
    hide LocalStep, Drops;
  }

  /** In every run, a request that enters a gate is turned away exactly when the gate is taken and as many requests
      queue there as the configuration allows, and queues exactly when the gate is taken and there is room. */
  lemma TurnedAwayIffFull(s: Settings, run: Run, k: nat, i: nat, r: RequestId)
    requires IsRun(s, run) && k < |run.events| && k + 1 < |run.states| && run.events[k] == Step(i, Protocol.Enter(r))
    ensures i < |run.states[k].objs| && i < |run.states[k + 1].objs|
    ensures var c, d := run.states[k].objs[i].client, run.states[k + 1].objs[i].client;
            && r in c.reqs && r in d.reqs && Door(c.reqs[r].pc).Some? && Door(c.reqs[r].pc).value in c.table.gates
            && var gate := c.table.gates[Door(c.reqs[r].pc).value];
               && (TurnedAway(d.reqs[r].pc) <==> gate.held && |gate.waiters| >= s.maxWaiters)
               && (d.reqs[r].pc == c.reqs[r].pc <==> gate.held && |gate.waiters| < s.maxWaiters)
  {
    hide Enabled, Apply, Charge, Record, Answered, Initial, Door, TurnedAway;
    var p, e := run.states[k], run.events[k];
    assert Possible(s, p, e) && run.states[k + 1] == After(s, p, e);
    EnterOutcome(s.proto, p.objs[i].client, p.now, r);
    AlwaysWaiters(s, run, k);
    assert r in p.objs[i].client.reqs by { EntersHere(s.proto, p.objs[i].client, p.now, r); }
  }

  lemma EntersHere(cfg: Config, c: Client, now: int, r: RequestId)
    requires Enabled(cfg, c, now, Protocol.Enter(r))
    ensures r in c.reqs
  {
  }
}
