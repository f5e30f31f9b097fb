/** Alias integrity, when no route hash is also the hash of a bucket name. */
module Aliases {
  import opened Base
  import opened ClientMaps
  import opened Protocol
  import Structure
  import SingleFlight
  import Cooldown
  import RateLimit
  import GateTable

  /** `canon` holds the hashes of bucket names. */
  ghost predicate Inv(c: Client, canon: iset<Key>) {
    Integrity(c.maps, canon) && forall r :: r in c.reqs ==> c.reqs[r].spec.route !in canon
  }

  /** Route hashes stay out of `canon`; the hash of every bucket name that is learned is in it. */
  ghost predicate Disjoint(cfg: Config, c: Client, l: Label, canon: iset<Key>) {
    match l
    case Begin(_, route, _, _, _) => route !in canon
    case Learn(r, _) =>
      AtStage(c, r) && c.reqs[r].pc.stage.BucketDone? && c.reqs[r].pc.stage.plan.name != "" ==>
        Canonical(cfg, c.reqs[r]) in canon
    case _ => true
  }

  lemma Frame(c: Client, d: Client, canon: iset<Key>, r: RequestId, n: Request)
    requires Inv(c, canon) && r in c.reqs && d.reqs == c.reqs[r := n] && n.spec == c.reqs[r].spec
    requires Integrity(d.maps, canon)
    ensures Inv(d, canon)
  {
    hide Integrity;
  }

  lemma LookIntegrity(c: Client, r: RequestId, granted: bool, canon: iset<Key>)
    requires Integrity(c.maps, canon) && r in c.reqs
    ensures Integrity(DoLook(c, r, granted).maps, canon)
  {
    hide Resolve, Create, Integrity, AfterLook, GateTable.AddGate;
    var route := c.reqs[r].spec.route;
    if LookCreates(c, route, granted) {
      CreateKeepsIntegrity(c.maps, route, |c.pool|, canon);
    }
  }

  lemma LearnIntegrity(cfg: Config, c: Client, r: RequestId, granted: bool, canon: iset<Key>)
    requires SingleFlight.Inv(c) && Inv(c, canon)
    requires AtStage(c, r) && c.reqs[r].pc.stage.BucketDone?
    requires c.reqs[r].pc.stage.plan.name != "" ==> Canonical(cfg, c.reqs[r]) in canon
    ensures Integrity(DoLearn(cfg, c, r, granted).maps, canon)
  {
    hide Structure.Inv, Integrity, Resolve, ClientMaps.Learn, LearnTarget, Net, Blocked, Canonical;
    var q := c.reqs[r];
    assert Resolve(c.maps, q.spec.route) == Some(q.pc.b);
    if LearnApplies(cfg, c, q, granted) {
      LearnKeepsIntegrity(c.maps, q.spec.route, Canonical(cfg, q), q.pc.b, canon);
    }
  }

  lemma MapsKept(cfg: Config, c: Client, now: int, l: Label, canon: iset<Key>)
    requires SingleFlight.Inv(c) && Inv(c, canon) && Enabled(cfg, c, now, l) && Disjoint(cfg, c, l, canon)
    ensures Integrity(Apply(cfg, c, now, l).maps, canon)
  {
    hide SingleFlight.Inv, Inv, LocalStep, Wants, Drops, DoEnter, DoLook, DoLearn, DoCount, DoUncount, DoMark, DoSend,
      DoBlockGlobal, DoBlockBucket, DoVerdict, GateTable.Release, LocalNext, OnGot, OnFail, AfterDrop, Integrity, Swept;
    assert Integrity(c.maps, canon) by { MapsOf(c, canon); }
    match l
    case Look(r, granted) => LookIntegrity(c, r, granted, canon);
    case Learn(r, granted) => LearnIntegrity(cfg, c, r, granted, canon);
    case Sweep(at, unused) => SweptKeepsIntegrity(c.maps, IdleBuckets(c.pool, at, unused), canon);
    case _ =>
      if Structure.Moves(l) {
        Structure.MoveFrame(cfg, c, now, l);
      }
  }

  lemma MapsOf(c: Client, canon: iset<Key>)
    requires Inv(c, canon)
    ensures Integrity(c.maps, canon)
  {
  }

  lemma MovedSpec(c: Client, now: int, l: Label, q: Request, n: Request)
    requires Structure.Moved(c, now, l, q, n)
    ensures n.spec == q.spec
  {
    hide LocalNext, OnGot, OnFail, AfterDrop, AfterLook, LookTarget, RateLimit.Observe;
  }

  lemma StepKeeps(cfg: Config, c: Client, now: int, l: Label, canon: iset<Key>)
    requires SingleFlight.Inv(c) && Inv(c, canon) && Enabled(cfg, c, now, l) && Disjoint(cfg, c, l, canon)
    ensures Inv(Apply(cfg, c, now, l), canon)
  {
    hide SingleFlight.Inv, LocalStep, Wants, Drops, DoEnter, DoLook, DoLearn, DoCount, DoUncount, DoMark, DoSend,
      DoBlockGlobal, DoBlockBucket, DoVerdict, GateTable.Release, LocalNext, OnGot, OnFail, AfterDrop, Integrity, Swept,
      Structure.Moved;
    MapsKept(cfg, c, now, l, canon);
    var d := Apply(cfg, c, now, l);
    if Structure.Moves(l) {
      Structure.MoveFrame(cfg, c, now, l);
      Structure.MoveRequest(cfg, c, now, l);
      MovedSpec(c, now, l, c.reqs[l.r], d.reqs[l.r]);
      Frame(c, d, canon, l.r, d.reqs[l.r]);
    }
  }

  /** Where the hashes are disjoint, no learning step orphans a cooldown. */
  lemma DisjointSpares(cfg: Config, c: Client, now: int, l: Label, canon: iset<Key>)
    requires Inv(c, canon) && Enabled(cfg, c, now, l) && Disjoint(cfg, c, l, canon)
    ensures Cooldown.Spares(cfg, c, now, l)
  {
    hide Canonical, Net;
  }

  /** Free of the separator, which no header value contains. */
  predicate Clean(name: string) {
    '\0' !in name
  }

  lemma SeparatedOnce(a: string, x: string, b: string, y: string)
    requires Clean(a) && Clean(b) && a + "\0" + x == b + "\0" + y
    ensures a == b && x == y
  {
    var s, t := a + "\0" + x, b + "\0" + y;
    assert s[|a|] == '\0' && t[|b|] == '\0';
    assert forall i :: 0 <= i < |a| ==> s[i] == a[i] != '\0';
    assert forall i :: 0 <= i < |b| ==> t[i] == b[i] != '\0';
    assert |a| == |b|;
    assert a == s[..|a|] == t[..|b|] == b;
    assert x == s[|a| + 1..] == t[|b| + 1..] == y;
  }

  /** Unless the hash collides, requests learn one key exactly when Discord gives them one bucket name and they have one
      major parameter: a bucket name alone does not join the buckets of different channels. */
  lemma CanonicalIff(cfg: Config, p: Request, q: Request)
    requires p.pc.Own? && p.pc.stage.BucketDone? && q.pc.Own? && q.pc.stage.BucketDone?
    requires Clean(p.pc.stage.plan.name) && Clean(q.pc.stage.plan.name)
    requires var x, y := p.pc.stage.plan.name + "\0" + p.spec.major, q.pc.stage.plan.name + "\0" + q.spec.major;
             cfg.hash(x) == cfg.hash(y) ==> x == y
    ensures Canonical(cfg, p) == Canonical(cfg, q) <==>
              p.pc.stage.plan.name == q.pc.stage.plan.name && p.spec.major == q.spec.major
  {
    if Canonical(cfg, p) == Canonical(cfg, q) {
      SeparatedOnce(p.pc.stage.plan.name, p.spec.major, q.pc.stage.plan.name, q.spec.major);
    }
  }

  /** The bucket under the hash of a bucket name stays there through every step but a sweep. */
  lemma CanonicalKept(cfg: Config, c: Client, now: int, l: Label, canon: iset<Key>, k: Key)
    requires Inv(c, canon) && Enabled(cfg, c, now, l) && !l.Sweep?
    requires k in canon && k in c.maps.buckets
    ensures k in Apply(cfg, c, now, l).maps.buckets && Apply(cfg, c, now, l).maps.buckets[k] == c.maps.buckets[k]
  {
    hide LocalStep, Wants, Drops, DoEnter, DoCount, DoUncount, DoMark, DoSend, DoBlockGlobal, DoBlockBucket, DoVerdict,
      GateTable.Release, LocalNext, OnGot, OnFail, AfterDrop, Canonical, Net, AfterLook, Blocked, GateTable.AddGate;
    if !l.Look? && !l.Learn? && Structure.Moves(l) {
      Structure.MoveFrame(cfg, c, now, l);
    }
  }
}
