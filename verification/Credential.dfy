/** The validity of a credential: how it changes, and what may be in flight while it is unknown. */
module Credential {
  import opened Base
  import opened GateTable
  import opened Protocol
  import Structure
  import Pacer
  import RateLimit

  /** An ordinary request that has been let past the validity check, for the attempt under way or the next one. */
  ghost predicate Cleared(q: Request) {
    !q.spec.interaction &&
    match q.pc
    case Own(_, s) =>
      (match s
       case Fresh => false
       case ValEnter => false
       case ValAcquired => false
       case ValRecheck => false
       case ValDrop(ok) => ok
       case Exiting => false
       case _ => true)
    case Uncounting(_, next) => q.t.attempts > 0 && !next.Finish?
    case Unlocking(_, next) => q.t.attempts > 0 && !next.Finish?
    case Start => q.t.attempts > 0
    case Resolved(_) => q.t.attempts > 0
    case Entering(_) => q.t.attempts > 0
    case Acquired(_) => q.t.attempts > 0
    case Rechecking(_) => q.t.attempts > 0
    case _ => false
  }

  function Judged(cfg: Config, plan: RateLimit.Plan): Validity {
    if plan.unauthorized && !cfg.disable401Lock then Invalid else Unknown
  }

  /** What the validator knows of the validity at each stage. */
  ghost predicate ValidatorView(cfg: Config, v: Validity, s: Stage) {
    match s
    case Marked(plan) => v == Judged(cfg, plan)
    case GlobalDone(plan) => v == Judged(cfg, plan)
    case BucketDone(plan) => v == Judged(cfg, plan)
    case Learned(plan, _) => v == Judged(cfg, plan)
    case ValStored(_, _) => v != Unknown
    case _ => v == Unknown
  }

  ghost predicate RequestOk(cfg: Config, v: Validity, q: Request) {
    && (Cleared(q) ==> q.validating || v != Unknown)
    && (q.validating && q.pc.Own? ==> ValidatorView(cfg, v, q.pc.stage))
    && (q.pc.Admitted? ==> q.t.attempts == 0)
  }

  ghost predicate Credentials(cfg: Config, c: Client) {
    && (c.anonymous ==> c.validity == Valid)
    && (forall r :: r in c.reqs ==> RequestOk(cfg, c.validity, c.reqs[r]))
  }

  ghost predicate Inv(cfg: Config, c: Client) {
    Structure.Inv(c) && Credentials(cfg, c)
  }

  /** Unknown may become anything, valid may become invalid, invalid stays. */
  predicate Allowed(before: Validity, after: Validity) {
    before == after || before == Unknown || (before == Valid && after == Invalid)
  }

  lemma ValidatorHolds(q: Request)
    requires q.validating
    ensures ValidationGate in HoldsOf(q)
  {
  }

  lemma OneValidator(c: Client, r: RequestId, s: RequestId)
    requires Structure.Inv(c) && r in c.reqs && s in c.reqs && c.reqs[r].validating && c.reqs[s].validating
    ensures r == s
  {
    hide HoldsOf, RecordsExact, QueuesExact, QueuesBounded, HeldExact, Structure.Counters, Structure.Gates,
      Structure.Shaped, Structure.Links;
    Structure.LinkOf(c, r);
    Structure.LinkOf(c, s);
    ValidatorHolds(c.reqs[r]);
    ValidatorHolds(c.reqs[s]);
    SoleOwner(c.table, r, s, ValidationGate);
  }

  // ----- moves that leave the validity alone -----

  lemma LocalOk(cfg: Config, c: Client, now: int, q: Request, n: PC)
    requires LocalStep(cfg, c, now, q, n) && RequestOk(cfg, c.validity, q) && Structure.Shaped(q, |c.pool|)
    ensures RequestOk(cfg, c.validity, LocalNext(q, n, now))
  {
    hide KnownDelay, TooLate, Pacer.CanGrant;
  }

  lemma GateOk(cfg: Config, v: Validity, q: Request, n: nat)
    requires RequestOk(cfg, v, q) && Structure.Shaped(q, n)
    ensures Wants(q).Some? ==> RequestOk(cfg, v, OnGot(q)) && RequestOk(cfg, v, OnFail(q))
    ensures Drops(q).Some? ==> RequestOk(cfg, v, AfterDrop(q))
  {
  }

  lemma LookOk(cfg: Config, v: Validity, q: Request, t: Option<nat>, n: nat)
    requires RequestOk(cfg, v, q) && Structure.Shaped(q, n)
    ensures RequestOk(cfg, v, AfterLook(q, t))
  {
  }

  lemma PlainOk(cfg: Config, c: Client, now: int, l: Label, q: Request, n: Request)
    requires Structure.Moved(c, now, l, q, n) && RequestOk(cfg, c.validity, q)
    requires l.Open? || l.Count? || l.Uncount? || l.Pace? || l.Send? || l.BlockGlobal? || l.BlockBucket? || l.Learn?
    requires l.Open? ==> q.pc.Admitted?
    ensures RequestOk(cfg, c.validity, n)
  {
    hide LocalNext, OnGot, OnFail, AfterDrop, AfterLook, LookTarget, RateLimit.Observe;
  }

  lemma MovedOk(cfg: Config, c: Client, now: int, l: Label, q: Request, n: Request)
    requires Structure.Moved(c, now, l, q, n) && RequestOk(cfg, c.validity, q) && Structure.Shaped(q, |c.pool|)
    requires !l.Mark? && !l.Verdict?
    requires l.Local? ==> LocalStep(cfg, c, now, q, l.pc)
    requires l.Enter? || l.Wake? || l.Cancel? ==> Wants(q).Some?
    requires l.Drop? ==> Drops(q).Some?
    requires l.Open? ==> q.pc.Admitted?
    ensures RequestOk(cfg, c.validity, n)
  {
    hide LocalStep, LocalNext, OnGot, OnFail, AfterDrop, AfterLook, LookTarget, Wants, Drops, Structure.Shaped,
      RequestOk, RateLimit.Observe, Opened;
    if l.Local? {
      LocalOk(cfg, c, now, q, l.pc);
    } else if l.Enter? || l.Wake? || l.Cancel? || l.Drop? {
      GateOk(cfg, c.validity, q, |c.pool|);
    } else if l.Look? {
      LookOk(cfg, c.validity, q, LookTarget(c, q.spec.route, l.granted), |c.pool|);
    } else {
      PlainOk(cfg, c, now, l, q, n);
    }
  }

  lemma CredentialsFrame(cfg: Config, c: Client, d: Client, r: RequestId, n: Request)
    requires Credentials(cfg, c) && r in c.reqs && d.reqs == c.reqs[r := n]
    requires d.validity == c.validity && d.anonymous == c.anonymous && RequestOk(cfg, c.validity, n)
    ensures Credentials(cfg, d)
  {
    hide RequestOk;
  }

  // ----- the two stores -----

  /** A cleared request sees either itself as the validator or a known validity, so a verdict or a 401 of somebody
      else never contradicts what the validator assumes. */
  lemma OthersOk(cfg: Config, v: Validity, w: Validity, q: Request)
    requires RequestOk(cfg, v, q) && !q.validating && w != Unknown
    ensures RequestOk(cfg, w, q)
  {
  }

  lemma MarkOthers(cfg: Config, v: Validity, q: Request)
    requires RequestOk(cfg, v, q) && v != Unknown
    ensures RequestOk(cfg, Invalid, q)
  {
  }

  lemma MarkOk(cfg: Config, c: Client, r: RequestId, now: int)
    requires Inv(cfg, c) && AtStage(c, r) && c.reqs[r].pc.stage.Got?
    ensures Credentials(cfg, DoMark(cfg, c, r, now))
    ensures Allowed(c.validity, DoMark(cfg, c, r, now).validity)
  {
    hide Structure.Inv, Structure.Counters, RequestOk;
    var q := c.reqs[r];
    var d := DoMark(cfg, c, r, now);
    ShapeOf(c, r);
    MarkSelf(cfg, c, r, now);
    forall s | s in d.reqs
      ensures RequestOk(cfg, d.validity, d.reqs[s])
    {
      if s != r && d.validity != c.validity {
        ClearedKnown(cfg, c, r);
        if q.validating {
          if c.reqs[s].validating {
            OneValidator(c, r, s);
          }
          OthersOk(cfg, c.validity, d.validity, c.reqs[s]);
        } else {
          MarkOthers(cfg, c.validity, c.reqs[s]);
        }
      }
    }
  }

  lemma ClearedKnown(cfg: Config, c: Client, r: RequestId)
    requires Credentials(cfg, c) && r in c.reqs && c.reqs[r].pc.Own? && c.reqs[r].pc.stage.Got?
    ensures !c.reqs[r].spec.interaction && !c.reqs[r].validating ==> c.validity != Unknown
  {
    assert RequestOk(cfg, c.validity, c.reqs[r]);
  }

  lemma ShapeOf(c: Client, r: RequestId)
    requires Structure.Inv(c) && r in c.reqs
    ensures r in c.table.agents && Structure.Shaped(c.reqs[r], |c.pool|)
  {
    hide GateTable.Inv, Structure.Counters, Structure.Shaped, Structure.Gates, HoldsOf, Wants;
  }

  lemma MarkSelf(cfg: Config, c: Client, r: RequestId, now: int)
    requires Credentials(cfg, c) && AtStage(c, r) && c.reqs[r].pc.stage.Got? && Structure.Shaped(c.reqs[r], |c.pool|)
    ensures RequestOk(cfg, DoMark(cfg, c, r, now).validity, DoMark(cfg, c, r, now).reqs[r])
  {
    assert RequestOk(cfg, c.validity, c.reqs[r]);
    hide RateLimit.Parse;
  }

  lemma VerdictOk(cfg: Config, c: Client, r: RequestId)
    requires Inv(cfg, c) && AtStage(c, r) && c.reqs[r].pc.stage.Learned? && c.reqs[r].validating
    ensures Credentials(cfg, DoVerdict(cfg, c, r))
    ensures Allowed(c.validity, DoVerdict(cfg, c, r).validity)
  {
    hide Structure.Inv, Structure.Counters;
    var d := DoVerdict(cfg, c, r);
    assert RequestOk(cfg, c.validity, c.reqs[r]);
    forall s | s in d.reqs
      ensures RequestOk(cfg, d.validity, d.reqs[s])
    {
      if s != r {
        if c.reqs[s].validating {
          OneValidator(c, r, s);
        }
        OthersOk(cfg, c.validity, d.validity, c.reqs[s]);
      }
    }
  }

  lemma PlainCredentials(cfg: Config, c: Client, now: int, l: Label)
    requires Inv(cfg, c) && Enabled(cfg, c, now, l) && Structure.Moves(l) && !l.Mark? && !l.Verdict?
    ensures Credentials(cfg, Apply(cfg, c, now, l))
    ensures Apply(cfg, c, now, l).validity == c.validity
  {
    hide Structure.Inv, Apply, RequestOk, Structure.Moved, LocalStep, Wants, Drops, Structure.Shaped;
    var d := Apply(cfg, c, now, l);
    Structure.MoveFrame(cfg, c, now, l);
    Structure.MoveRequest(cfg, c, now, l);
    ShapeOf(c, l.r);
    MovedOk(cfg, c, now, l, c.reqs[l.r], d.reqs[l.r]);
    CredentialsFrame(cfg, c, d, l.r, d.reqs[l.r]);
  }

  lemma AdmitCredentials(cfg: Config, c: Client, now: int, l: Label)
    requires Credentials(cfg, c) && Enabled(cfg, c, now, l) && !Structure.Moves(l)
    ensures Credentials(cfg, Apply(cfg, c, now, l))
    ensures Apply(cfg, c, now, l).validity == c.validity
  {
    hide LocalStep, Wants, Drops, DoLook, DoLearn, DoEnter, DoCount, DoUncount, DoMark, DoSend, DoBlockGlobal,
      DoBlockBucket, DoVerdict, Release, ValidatorView;
  }

  /** Every step of every request keeps the credential invariant, and moves the validity forward only. */
  lemma StepKeeps(cfg: Config, c: Client, now: int, l: Label)
    requires Inv(cfg, c) && Enabled(cfg, c, now, l)
    ensures Inv(cfg, Apply(cfg, c, now, l))
    ensures Allowed(c.validity, Apply(cfg, c, now, l).validity)
  {
    hide Structure.Inv, Credentials, LocalStep, Wants, Drops, DoBegin, DoEnd, DoSweep, DoLook, DoLearn, DoEnter,
      DoCount, DoUncount, DoMark, DoSend, DoBlockGlobal, DoBlockBucket, DoVerdict, Release, LocalNext, OnGot, OnFail,
      AfterDrop;
    Structure.StepKeeps(cfg, c, now, l);
    match l
    case Mark(r) => MarkOk(cfg, c, r, now);
    case Verdict(r) => VerdictOk(cfg, c, r);
    case _ =>
      if Structure.Moves(l) {
        PlainCredentials(cfg, c, now, l);
      } else {
        AdmitCredentials(cfg, c, now, l);
      }
  }

  /** While the validity is unknown, at most one ordinary attempt is with Discord. */
  lemma OneValidatingAttempt(cfg: Config, c: Client, r: RequestId, s: RequestId)
    requires Inv(cfg, c) && c.validity == Unknown && r in c.reqs && s in c.reqs
    requires Sending(c.reqs[r]) && !c.reqs[r].spec.interaction
    requires Sending(c.reqs[s]) && !c.reqs[s].spec.interaction
    ensures r == s
  {
    hide Structure.Inv;
    assert RequestOk(cfg, c.validity, c.reqs[r]) && RequestOk(cfg, c.validity, c.reqs[s]);
    OneValidator(c, r, s);
  }
}
