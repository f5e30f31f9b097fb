/** Single flight: no two attempts of one client share a route or a bucket, however routes are re-aliased meanwhile. */
module SingleFlight {
  import opened Base
  import opened GateTable
  import opened ClientMaps
  import opened Protocol
  import Structure
  import Pacer
  import RateLimit

  /** From the confirming lookup to its own learnBucket, a request holds the gate of exactly the bucket that its route
      resolves to. */
  ghost predicate Windows(c: Client) {
    forall r :: r in c.reqs && InWindow(c.reqs[r]) ==>
                  Resolve(c.maps, c.reqs[r].spec.route) == Some(c.reqs[r].pc.b)
  }

  ghost predicate Inv(c: Client) {
    Structure.Inv(c) && Windows(c)
  }

  lemma HoldsBucketGate(q: Request)
    requires HeldBucket(q.pc).Some?
    ensures BucketGate(HeldBucket(q.pc).value) in HoldsOf(q)
  {
  }

  /** A bucket gate has one holder. */
  lemma OneHolder(c: Client, r: RequestId, s: RequestId)
    requires Structure.Inv(c) && r in c.reqs && s in c.reqs
    requires HeldBucket(c.reqs[r].pc).Some? && HeldBucket(c.reqs[r].pc) == HeldBucket(c.reqs[s].pc)
    ensures r == s
  {
    hide HoldsOf, HeldBucket, RecordsExact, QueuesExact, QueuesBounded, HeldExact, Structure.Counters, Structure.Gates,
      Structure.Shaped, Structure.Links;
    Structure.LinkOf(c, r);
    Structure.LinkOf(c, s);
    HoldsBucketGate(c.reqs[r]);
    HoldsBucketGate(c.reqs[s]);
    SoleOwner(c.table, r, s, BucketGate(HeldBucket(c.reqs[r].pc).value));
  }

  // ----- steps that leave the maps alone -----

  lemma WindowsFrame(c: Client, d: Client, r: RequestId, n: Request)
    requires Windows(c) && r in c.reqs && d.reqs == c.reqs[r := n] && d.maps == c.maps
    requires NoNewWindow(c.reqs[r], n)
    ensures Windows(d)
  {
    hide InWindow, Resolve;
  }

  lemma LocalWindow(cfg: Config, c: Client, now: int, q: Request, n: PC)
    requires LocalStep(cfg, c, now, q, n)
    ensures NoNewWindow(q, LocalNext(q, n, now))
  {
    hide KnownDelay, TooLate, Pacer.CanGrant;
  }

  /** `n` is in its window only if `q` was, with the same bucket. */
  ghost predicate NoNewWindow(q: Request, n: Request) {
    InWindow(n) ==> InWindow(q) && n.pc.b == q.pc.b && n.spec == q.spec
  }

  lemma GateWindow(q: Request)
    ensures NoNewWindow(q, OnGot(q)) && NoNewWindow(q, OnFail(q)) && NoNewWindow(q, AfterDrop(q))
  {
  }

  lemma MovedWindow(cfg: Config, c: Client, now: int, l: Label, q: Request, n: Request)
    requires Structure.Moved(c, now, l, q, n) && !l.Look? && (l.Local? ==> LocalStep(cfg, c, now, q, l.pc))
    ensures NoNewWindow(q, n)
  {
    hide LocalStep, LocalNext, OnGot, OnFail, AfterDrop, RateLimit.Observe;
    if l.Local? {
      LocalWindow(cfg, c, now, q, l.pc);
    }
    GateWindow(q);
  }

  // ----- steps that change the maps -----

  lemma LookWindows(c: Client, r: RequestId, granted: bool)
    requires Windows(c) && r in c.reqs && (c.reqs[r].pc.Start? || c.reqs[r].pc.Rechecking?)
    ensures Windows(DoLook(c, r, granted))
  {
    hide Resolve, Create;
    var route := c.reqs[r].spec.route;
    if LookCreates(c, route, granted) {
      CreateResolves(c.maps, route, |c.pool|);
    }
    var d := DoLook(c, r, granted);
    forall s | s in d.reqs && InWindow(d.reqs[s])
      ensures Resolve(d.maps, d.reqs[s].spec.route) == Some(d.reqs[s].pc.b)
    {
      if s != r {
        assert d.reqs[s] == c.reqs[s];
      }
    }
  }

  /** The heart of the matter: a request that learns re-aliases its own route only. Another request in its window
      holds another bucket, so its route is another one and keeps its bucket, whatever the hashes collide with. */
  lemma LearnWindows(cfg: Config, c: Client, r: RequestId, granted: bool)
    requires Inv(c) && AtStage(c, r) && c.reqs[r].pc.stage.BucketDone?
    ensures Windows(DoLearn(cfg, c, r, granted))
  {
    hide Structure.Inv, Resolve, ClientMaps.Learn, LearnTarget, Net, Blocked;
    var q := c.reqs[r];
    var d := DoLearn(cfg, c, r, granted);
    forall s | s in d.reqs && InWindow(d.reqs[s])
      ensures Resolve(d.maps, d.reqs[s].spec.route) == Some(d.reqs[s].pc.b)
    {
      assert s != r && d.reqs[s] == c.reqs[s];
      if c.reqs[s].pc.b == q.pc.b {
        OneHolder(c, r, s);
      }
      assert Resolve(c.maps, q.spec.route) == Some(q.pc.b);
      if LearnApplies(cfg, c, q, granted) {
        LearnKeepsForeign(c.maps, q.spec.route, Canonical(cfg, q), q.pc.b, c.reqs[s].spec.route);
      }
    }
  }

  /** A bucket with a request on it is not idle, so a sweep does not take it away. */
  lemma CountedIsActive(c: Client, r: RequestId)
    requires Structure.Inv(c) && r in c.reqs && c.reqs[r].pc.Own?
    ensures c.reqs[r].pc.b < |c.pool| && c.pool[c.reqs[r].pc.b].active > 0
  {
    hide GateTable.Inv, Structure.Gates, Structure.Links, Structure.Pointers;
    Structure.LinkOf(c, r);
    assert r in Structure.Counted(c.reqs, c.reqs[r].pc.b);
  }

  lemma SweepWindows(c: Client, at: int, unused: set<nat>)
    requires Inv(c)
    ensures Windows(DoSweep(c, at, unused))
  {
    hide Structure.Inv, Resolve, Swept;
    var d := DoSweep(c, at, unused);
    SweptResolves(c.maps, IdleBuckets(c.pool, at, unused));
    forall s | s in d.reqs && InWindow(d.reqs[s])
      ensures Resolve(d.maps, d.reqs[s].spec.route) == Some(d.reqs[s].pc.b)
    {
      CountedIsActive(c, s);
    }
  }

  lemma StepKeeps(cfg: Config, c: Client, now: int, l: Label)
    requires Inv(c) && Enabled(cfg, c, now, l)
    ensures Inv(Apply(cfg, c, now, l))
  {
    hide Structure.Inv, LocalStep, Wants, Drops, DoLook, DoLearn, DoSweep, Resolve, Windows, InWindow,
      Apply, AtStage;
    Structure.StepKeeps(cfg, c, now, l);
    StepWindows(cfg, c, now, l);
  }

  lemma StepWindows(cfg: Config, c: Client, now: int, l: Label)
    requires Inv(c) && Enabled(cfg, c, now, l)
    ensures Windows(Apply(cfg, c, now, l))
  {
    hide Structure.Inv, LocalStep, LocalNext, OnGot, OnFail, AfterDrop, Wants, Drops, DoLook, DoLearn, DoSweep,
      DoEnter, DoCount, DoUncount, DoMark, DoSend, DoBlockGlobal, DoBlockBucket, DoVerdict, Release,
      Resolve, Windows;
    var d := Apply(cfg, c, now, l);
    match l
    case Begin(r, _, _, _, _) => BeginWindows(c, d, r);
    case End(r) => EndWindows(c, d, r);
    case Touch(x, at) => TouchWindows(c, d);
    case Look(r, granted) => LookWindows(c, r, granted);
    case Learn(r, granted) => LearnWindows(cfg, c, r, granted);
    case Sweep(at, unused) => SweepWindows(c, at, unused);
    case _ => PlainWindows(cfg, c, now, l);
  }

  lemma TouchWindows(c: Client, d: Client)
    requires Windows(c) && d.reqs == c.reqs && d.maps == c.maps
    ensures Windows(d)
  {
  }

  lemma PlainWindows(cfg: Config, c: Client, now: int, l: Label)
    requires Windows(c) && Enabled(cfg, c, now, l) && Structure.Moves(l) && !l.Look? && !l.Learn?
    ensures Windows(Apply(cfg, c, now, l))
  {
    hide Apply, Windows, NoNewWindow, Structure.Moved, LocalStep, Wants, Drops;
    var d := Apply(cfg, c, now, l);
    Structure.MoveFrame(cfg, c, now, l);
    Structure.MoveRequest(cfg, c, now, l);
    MovedWindow(cfg, c, now, l, c.reqs[l.r], d.reqs[l.r]);
    WindowsFrame(c, d, l.r, d.reqs[l.r]);
  }

  lemma BeginWindows(c: Client, d: Client, r: RequestId)
    requires Windows(c) && r in d.reqs && d.reqs == c.reqs[r := d.reqs[r]] && d.maps == c.maps && !InWindow(d.reqs[r])
    ensures Windows(d)
  {
    hide InWindow, Resolve;
  }

  lemma EndWindows(c: Client, d: Client, r: RequestId)
    requires Windows(c) && d.reqs == c.reqs - {r} && d.maps == c.maps
    ensures Windows(d)
  {
    hide InWindow, Resolve;
  }

  /** Two different requests in their windows, and so any two attempts with Discord, are on different routes, hold
      different buckets, and are not aliased to one learned bucket. */
  lemma NoSharedFlight(c: Client, r: RequestId, s: RequestId)
    requires Inv(c) && r in c.reqs && s in c.reqs && r != s
    requires InWindow(c.reqs[r]) && InWindow(c.reqs[s])
    ensures c.reqs[r].spec.route != c.reqs[s].spec.route
    ensures c.reqs[r].pc.b != c.reqs[s].pc.b
    ensures KeyOf(c.maps, c.reqs[r].spec.route) != KeyOf(c.maps, c.reqs[s].spec.route)
  {
    hide Structure.Inv;
    if c.reqs[r].pc.b == c.reqs[s].pc.b {
      OneHolder(c, r, s);
    }
  }
}
