/** Retries end: every 429 puts off the next attempt by at least 50 ms, so the queue timeout bounds the attempts. */
module Retry {
  import opened Base
  import opened Protocol
  import Structure
  import Cooldown
  import Pacer
  import RateLimit
  import GateTable

  const PAUSE: int := RateLimit.MINIMUM_RETRY_DELAY

  /** Before the first attempt. */
  ghost predicate Preparing(pc: PC) {
    || pc.Admitted?
    || (pc.Own? && match pc.stage
                   case Fresh => true
                   case ValEnter => true
                   case ValAcquired => true
                   case ValRecheck => true
                   case ValDrop(_) => true
                   case ValidityGate => true
                   case _ => false)
  }

  /** On the way from a 429 to the next attempt. */
  ghost predicate Returning(q: Request) {
    q.t.attempts > 0 &&
    match q.pc
    case Own(_, s) =>
      (match s
       case LoopTop => true
       case WaitCtx => true
       case WaitRead => true
       case WaitEval(_) => true
       case PaceEnter => true
       case PaceAcquired => true
       case PaceLoop => true
       case PaceTry => true
       case PaceDrop(_) => true
       case Ready => true
       case BucketDone(plan) => plan.limited
       case Learned(plan, _) => plan.limited
       case ValStored(plan, _) => plan.limited
       case Decided(plan, _) => plan.limited
       case _ => false)
    case Uncounting(_, next) => !next.Finish?
    case Unlocking(_, next) => !next.Finish?
    case Start => true
    case Resolved(_) => true
    case Entering(_) => true
    case Acquired(_) => true
    case Rechecking(_) => true
    case _ => false
  }

  /** Past the deadline check of the bucket wait. */
  ghost predicate Checked(pc: PC) {
    pc.Own? && match pc.stage
               case WaitRead => true
               case WaitEval(_) => true
               case PaceEnter => true
               case PaceAcquired => true
               case PaceLoop => true
               case PaceTry => true
               case PaceDrop(_) => true
               case Ready => true
               case _ => false
  }

  /** The next attempt is due a pause after the response was observed, and either the pacer or the route's cooldown sees
      to it. */
  ghost predicate DueAt(c: Client, spec: Spec, observed: int, due: int, viaGlobal: bool) {
    && due >= observed + PAUSE
    && (if viaGlobal then !spec.interaction && due <= c.pacer.blockedUntil
        else spec.route in c.cooldown && due <= c.cooldown[spec.route])
  }

  ghost predicate Due(c: Client, q: Request) {
    DueAt(c, q.spec, q.t.observed, q.t.notBefore, q.t.viaGlobal)
  }

  /** What has been established of a 429 before its bucket cooldown is recorded. */
  ghost predicate Observed(c: Client, q: Request) {
    q.pc.Own? ==>
      match q.pc.stage
      case Marked(plan) => RateLimit.DelaysRetry(plan, q.spec.interaction)
      case GlobalDone(plan) =>
        && RateLimit.DelaysRetry(plan, q.spec.interaction)
        && (plan.limited && plan.bucket.None? ==> Due(c, q))
      case _ => true
  }

  ghost predicate Counted(cfg: Config, now: int, t: Timing) {
    && t.start <= now && t.lastSent <= now
    && t.deadline <= t.start + cfg.queueTimeout
    && (t.attempts > 0 ==> t.lastSent >= t.start + (t.attempts - 1) * PAUSE)
    && (t.attempts > 1 ==> (t.attempts - 2) * PAUSE < cfg.queueTimeout)
  }

  /** From the observation of a response on, it is no earlier than the attempt it answers. */
  ghost predicate Answered(q: Request) {
    Returning(q) || (q.pc.Own? && (q.pc.stage.Marked? || q.pc.stage.GlobalDone?)) ==> q.t.lastSent <= q.t.observed
  }

  ghost predicate RequestOk(cfg: Config, c: Client, now: int, q: Request) {
    && Counted(cfg, now, q.t)
    && Answered(q)
    && (Preparing(q.pc) ==> q.t.attempts == 0)
    && (Returning(q) ==> Due(c, q))
    && (Checked(q.pc) && q.t.attempts > 0 ==> q.t.lastSent <= q.t.checked < q.t.deadline)
    && (q.pc.Own? && (q.pc.stage.Ready? || q.pc.stage == PaceDrop(true)) && q.t.attempts > 0 && q.t.viaGlobal ==>
        q.t.notBefore <= now)
    && Observed(c, q)
  }

  ghost predicate Timings(cfg: Config, c: Client, now: int) {
    forall r :: r in c.reqs ==> RequestOk(cfg, c, now, c.reqs[r])
  }

  ghost predicate Inv(cfg: Config, c: Client, now: int) {
    cfg.queueTimeout >= 0 && Cooldown.Inv(c, now) && Timings(cfg, c, now)
  }

  /** Cooldowns only grow, so what was due stays due. */
  ghost predicate Grows(c: Client, d: Client) {
    && c.pacer.blockedUntil <= d.pacer.blockedUntil
    && forall route :: route in c.cooldown ==> route in d.cooldown && c.cooldown[route] <= d.cooldown[route]
  }

  lemma GrowsOk(cfg: Config, c: Client, d: Client, now: int, later: int, q: Request)
    requires RequestOk(cfg, c, now, q) && Grows(c, d) && now <= later
    ensures RequestOk(cfg, d, later, q)
  {
    hide Preparing, Returning, Checked, RateLimit.DelaysRetry;
    if Due(c, q) {
      assert Due(d, q);
    }
  }

  lemma TimePasses(cfg: Config, c: Client, now: int, later: int)
    requires Inv(cfg, c, now) && now <= later
    ensures Inv(cfg, c, later)
  {
    hide Cooldown.Inv, RequestOk;
    Cooldown.TimePasses(c, now, later);
    forall r | r in c.reqs
      ensures RequestOk(cfg, c, later, c.reqs[r])
    {
      GrowsOk(cfg, c, c, now, later, c.reqs[r]);
    }
  }

  // ----- moves -----

  lemma LocalOk(cfg: Config, c: Client, now: int, q: Request, n: PC)
    requires LocalStep(cfg, c, now, q, n) && RequestOk(cfg, c, now, q)
    ensures RequestOk(cfg, c, now, LocalNext(q, n, now))
  {
    hide KnownDelay, TooLate, Pacer.CanGrant, RateLimit.DelaysRetry;
  }

  lemma GateOk(cfg: Config, c: Client, now: int, q: Request)
    requires RequestOk(cfg, c, now, q)
    ensures RequestOk(cfg, c, now, OnGot(q)) && RequestOk(cfg, c, now, OnFail(q))
    ensures RequestOk(cfg, c, now, AfterDrop(q))
  {
    hide DueAt, RateLimit.DelaysRetry, Counted;
  }

  lemma LookOk(cfg: Config, c: Client, now: int, q: Request, t: Option<nat>)
    requires RequestOk(cfg, c, now, q)
    ensures RequestOk(cfg, c, now, AfterLook(q, t))
  {
    hide DueAt, RateLimit.DelaysRetry, Counted;
  }

  lemma PlainOk(cfg: Config, c: Client, now: int, l: Label, q: Request, n: Request)
    requires Structure.Moved(c, now, l, q, n) && RequestOk(cfg, c, now, q)
    requires l.Count? || l.Uncount? || l.Learn? || l.Verdict?
    ensures RequestOk(cfg, c, now, n)
  {
    hide DueAt, RateLimit.DelaysRetry, Counted, LocalNext, OnGot, OnFail, AfterDrop, AfterLook, LookTarget;
  }

  lemma OpenOk(cfg: Config, c: Client, now: int, q: Request, deadline: int)
    requires RequestOk(cfg, c, now, q) && q.pc.Admitted? && deadline <= now + cfg.queueTimeout
    ensures RequestOk(cfg, c, now, Opened(q, deadline, now))
  {
  }

  lemma MarkOk(cfg: Config, c: Client, now: int, q: Request)
    requires RequestOk(cfg, c, now, q) && q.pc.Own? && q.pc.stage.Got?
    ensures RequestOk(cfg, c, now,
                      At(q, q.pc.b, Marked(RateLimit.Observe(q.pc.stage.response, q.spec.interaction, now)))
                        .(t := q.t.(observed := now)))
  {
    hide DueAt, RateLimit.DelaysRetry, RateLimit.Observe;
    RateLimit.EveryRateLimitDelaysRetry(q.pc.stage.response, q.spec.interaction, now);
  }

  lemma PaceOk(cfg: Config, c: Client, now: int, q: Request)
    requires RequestOk(cfg, c, now, q) && q.pc.Own? && q.pc.stage.PaceTry? && Pacer.CanGrant(c.pacer, now)
    ensures RequestOk(cfg, c, now, At(q, q.pc.b, PaceDrop(true)))
  {
    hide RateLimit.DelaysRetry, Counted;
  }

  /** Sending adds an attempt, one pause or more after the previous one and before the deadline was up. */
  lemma SendCounted(cfg: Config, now: int, t: Timing)
    requires Counted(cfg, now, t)
    requires t.attempts > 0 ==> t.lastSent + PAUSE <= now && t.lastSent <= t.checked < t.deadline
    ensures Counted(cfg, now, t.(attempts := t.attempts + 1, lastSent := now))
  {
    var k := t.attempts;
    if k > 0 {
      assert (k + 1 - 1) * PAUSE == (k - 1) * PAUSE + PAUSE;
      assert (k + 1 - 2) * PAUSE == (k - 1) * PAUSE;
    }
  }

  lemma SendOk(cfg: Config, c: Client, now: int, q: Request)
    requires RequestOk(cfg, c, now, q) && q.pc.Own? && q.pc.stage.Ready?
    requires Cooldown.Over(c.cooldown, q.spec.route, now)
    ensures RequestOk(cfg, c, now, At(q, q.pc.b, InFlight).(t := q.t.(attempts := q.t.attempts + 1, lastSent := now)))
  {
    hide Counted, RateLimit.DelaysRetry;
    assert q.t.attempts > 0 ==> Returning(q);
    SendCounted(cfg, now, q.t);
  }

  lemma BlockGlobalOk(cfg: Config, c: Client, d: Client, now: int, l: Label, q: Request, n: Request)
    requires l.BlockGlobal? && Structure.Moved(c, now, l, q, n) && RequestOk(cfg, c, now, q) && q.t.observed <= l.at
    requires q.pc.stage.plan.global.Some? ==> d.pacer == Pacer.BlockFor(c.pacer, l.at, q.pc.stage.plan.global.value)
    ensures RequestOk(cfg, d, now, n)
  {
    hide LocalNext, OnGot, OnFail, AfterDrop, AfterLook, LookTarget, RateLimit.Observe;
  }

  lemma BlockBucketOk(cfg: Config, c: Client, d: Client, now: int, l: Label, q: Request, n: Request)
    requires l.BlockBucket? && Structure.Moved(c, now, l, q, n) && RequestOk(cfg, c, now, q) && q.t.observed <= l.at
    requires q.pc.stage.plan.bucket.Some? ==>
               q.spec.route in d.cooldown && d.cooldown[q.spec.route] >= l.at + q.pc.stage.plan.bucket.value
    requires Grows(c, d)
    ensures RequestOk(cfg, d, now, n)
  {
    hide LocalNext, OnGot, OnFail, AfterDrop, AfterLook, LookTarget, RateLimit.Observe;
  }

  lemma StepGrows(cfg: Config, c: Client, now: int, l: Label)
    requires Enabled(cfg, c, now, l)
    ensures Grows(c, Apply(cfg, c, now, l))
  {
    hide LocalStep, Wants, Drops, DoLook, DoLearn, DoEnter, DoCount, DoUncount, DoMark, DoSend, DoBlockBucket,
      DoVerdict, GateTable.Release, LocalNext, OnGot, OnFail, AfterDrop;
    Cooldown.CooldownRecorded(cfg, c, now, l);
    if Structure.Moves(l) {
      Structure.MoveFrame(cfg, c, now, l);
    }
  }

  /** The moving request stays within its bounds; `over` stands for what the cooldown invariant says at Ready. */
  lemma MovedOk(cfg: Config, c: Client, now: int, l: Label, q: Request, n: Request)
    requires Structure.Moved(c, now, l, q, n) && RequestOk(cfg, c, now, q) && !l.BlockGlobal? && !l.BlockBucket?
    requires l.Local? ==> LocalStep(cfg, c, now, q, l.pc)
    requires l.Open? ==> q.pc.Admitted? && l.deadline <= now + cfg.queueTimeout
    requires l.Pace? ==> Pacer.CanGrant(c.pacer, now)
    requires l.Send? ==> Cooldown.Over(c.cooldown, q.spec.route, now)
    ensures RequestOk(cfg, c, now, n)
  {
    hide LocalStep, LocalNext, OnGot, OnFail, AfterDrop, AfterLook, LookTarget, RateLimit.Observe, RequestOk, Opened,
      Pacer.CanGrant, Cooldown.Over;
    if l.Local? {
      LocalOk(cfg, c, now, q, l.pc);
    } else if l.Enter? || l.Wake? || l.Cancel? || l.Drop? {
      GateOk(cfg, c, now, q);
    } else if l.Look? {
      LookOk(cfg, c, now, q, LookTarget(c, q.spec.route, l.granted));
    } else if l.Open? {
      OpenOk(cfg, c, now, q, l.deadline);
    } else if l.Pace? {
      PaceOk(cfg, c, now, q);
    } else if l.Send? {
      SendOk(cfg, c, now, q);
    } else if l.Mark? {
      MarkOk(cfg, c, now, q);
    } else {
      PlainOk(cfg, c, now, l, q, n);
    }
  }

  lemma BlockMoved(cfg: Config, c: Client, now: int, l: Label)
    requires Timings(cfg, c, now) && Enabled(cfg, c, now, l) && (l.BlockGlobal? || l.BlockBucket?)
    ensures RequestOk(cfg, Apply(cfg, c, now, l), now, Structure.Mover(cfg, c, now, l))
  {
    var d := Apply(cfg, c, now, l);
    StepGrows(cfg, c, now, l);
    Structure.MoveRequest(cfg, c, now, l);
    Cooldown.CooldownRecorded(cfg, c, now, l);
    if l.BlockGlobal? {
      BlockedBy(c, l.r, l.at);
      BlockGlobalOk(cfg, c, d, now, l, c.reqs[l.r], d.reqs[l.r]);
    } else {
      BlockBucketOk(cfg, c, d, now, l, c.reqs[l.r], d.reqs[l.r]);
    }
    hide RequestOk, Structure.Moved, LocalStep, Wants, Drops, DoLook, DoLearn, DoEnter, DoCount, DoUncount, DoMark,
      DoSend, DoBlockGlobal, DoBlockBucket, DoVerdict, GateTable.Release, LocalNext, OnGot, OnFail, AfterDrop, Grows;
  }

  lemma BlockedBy(c: Client, r: RequestId, at: int)
    requires AtStage(c, r) && c.reqs[r].pc.stage.Marked?
    ensures c.reqs[r].pc.stage.plan.global.Some? ==>
              DoBlockGlobal(c, r, at).pacer == Pacer.BlockFor(c.pacer, at, c.reqs[r].pc.stage.plan.global.value)
  {
  }

  lemma MoveOk(cfg: Config, c: Client, now: int, l: Label)
    requires Inv(cfg, c, now) && Enabled(cfg, c, now, l) && Structure.Moves(l)
    ensures RequestOk(cfg, Apply(cfg, c, now, l), now, Structure.Mover(cfg, c, now, l))
  {
    hide Cooldown.Inv, Apply, Structure.Moved, LocalStep, Wants, Drops, RequestOk, Pacer.CanGrant, Grows;
    var d := Apply(cfg, c, now, l);
    var n := Structure.Mover(cfg, c, now, l);
    if l.BlockGlobal? || l.BlockBucket? {
      BlockMoved(cfg, c, now, l);
    } else {
      Structure.MoveRequest(cfg, c, now, l);
      if l.Send? {
        Cooldown.SendAfterCooldown(cfg, c, now, l.r);
      }
      MovedOk(cfg, c, now, l, c.reqs[l.r], n);
      StepGrows(cfg, c, now, l);
      GrowsOk(cfg, c, d, now, now, n);
    }
  }

  lemma MoveTimings(cfg: Config, c: Client, now: int, l: Label)
    requires Inv(cfg, c, now) && Enabled(cfg, c, now, l) && Structure.Moves(l)
    ensures Timings(cfg, Apply(cfg, c, now, l), now)
  {
    hide Cooldown.Inv, Apply, Enabled, RequestOk, Grows;
    var d := Apply(cfg, c, now, l);
    Structure.MoveFrame(cfg, c, now, l);
    MoveOk(cfg, c, now, l);
    StepGrows(cfg, c, now, l);
    forall r | r in d.reqs
      ensures RequestOk(cfg, d, now, d.reqs[r])
    {
      if r != l.r {
        GrowsOk(cfg, c, d, now, now, c.reqs[r]);
      }
    }
  }

  lemma AdmitTimings(cfg: Config, c: Client, now: int, l: Label)
    requires cfg.queueTimeout >= 0 && Timings(cfg, c, now) && Enabled(cfg, c, now, l) && !Structure.Moves(l)
    ensures Timings(cfg, Apply(cfg, c, now, l), now)
  {
    hide Grows, LocalStep, Wants, Drops, DoLook, DoLearn, DoEnter, DoCount, DoUncount, DoMark, DoSend, DoBlockGlobal,
      DoBlockBucket, DoVerdict, GateTable.Release, LocalNext, OnGot, OnFail, AfterDrop, Observed, Returning, Checked;
    var d := Apply(cfg, c, now, l);
    StepGrows(cfg, c, now, l);
    forall r | r in d.reqs
      ensures RequestOk(cfg, d, now, d.reqs[r])
    {
      if r in c.reqs {
        GrowsOk(cfg, c, d, now, now, c.reqs[r]);
      } else {
        NewcomerOk(cfg, d, now, d.reqs[r]);
      }
    }
  }

  lemma NewcomerOk(cfg: Config, d: Client, now: int, q: Request)
    requires cfg.queueTimeout >= 0 && q.pc.Admitted? && q.t == Timing(now, now, now, 0, now, now, now, false)
    ensures RequestOk(cfg, d, now, q)
  {
  }

  lemma StepKeeps(cfg: Config, c: Client, now: int, l: Label)
    requires Inv(cfg, c, now) && Enabled(cfg, c, now, l) && Cooldown.Spares(cfg, c, now, l)
    ensures Inv(cfg, Apply(cfg, c, now, l), now)
  {
    hide Cooldown.Inv, Timings, Apply, Enabled, Cooldown.Spares;
    Cooldown.StepKeeps(cfg, c, now, l);
    if Structure.Moves(l) {
      MoveTimings(cfg, c, now, l);
    } else {
      AdmitTimings(cfg, c, now, l);
    }
  }

  /** The bound: no request is ever sent more than QueueTimeout / 50 ms + 2 times. */
  lemma AttemptBound(cfg: Config, c: Client, now: int, r: RequestId)
    requires cfg.queueTimeout >= 0 && Timings(cfg, c, now) && r in c.reqs
    ensures c.reqs[r].t.attempts <= cfg.queueTimeout / PAUSE + 2
  {
    assert Counted(cfg, now, c.reqs[r].t) by {
      assert RequestOk(cfg, c, now, c.reqs[r]);
    }
    var k := c.reqs[r].t.attempts;
    if k > 1 {
      DivBound(k - 2, cfg.queueTimeout);
    }
  }

  lemma DivBound(k: int, q: int)
    requires 0 <= k && k * PAUSE < q
    ensures k <= q / PAUSE
  {
  }

  /** A retry is sent at least a pause after the 429 that it answers to was observed. */
  lemma AttemptsApart(cfg: Config, c: Client, now: int, r: RequestId)
    requires Inv(cfg, c, now) && Enabled(cfg, c, now, Send(r)) && c.reqs[r].t.attempts > 0
    ensures now >= c.reqs[r].t.observed + PAUSE && c.reqs[r].t.observed >= c.reqs[r].t.lastSent
  {
    hide Cooldown.Inv;
    Cooldown.SendAfterCooldown(cfg, c, now, r);
    assert RequestOk(cfg, c, now, c.reqs[r]) && Returning(c.reqs[r]);
  }
}
