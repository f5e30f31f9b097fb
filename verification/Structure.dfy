/** The structural invariant of the protocol: program counters, gates, pointers and counters agree. */
module Structure {
  import opened Base
  import opened GateTable
  import opened ClientMaps
  import opened Protocol
  import Pacer
  import RateLimit

  // ----- invariant -----

  /** The gates a request holds are those its program counter says, and it waits only for the gate it wants. */
  ghost predicate Linked(q: Request, a: Agent) {
    && a.holds == HoldsOf(q)
    && (a.wait != NotWaiting ==> Wants(q) == Some(a.wait.gate))
  }

  function Pointer(pc: PC): Option<nat> {
    match pc
    case Admitted => None
    case Start => None
    case Finished => None
    case _ => Some(pc.b)
  }

  /** Only an ordinary request validates, and only between the validity gate and its verdict. */
  ghost predicate Validates(pc: PC) {
    pc.Own? && match pc.stage
               case Fresh => false
               case ValEnter => false
               case ValAcquired => false
               case ValRecheck => false
               case ValDrop(_) => false
               case Decided(_, _) => false
               case _ => true
  }

  ghost predicate Shaped(q: Request, buckets: nat) {
    && (Pointer(q.pc).Some? ==> Pointer(q.pc).value < buckets)
    && (q.pc.Uncounting? && q.pc.next.Migrate? ==> q.pc.next.target < buckets)
    && (q.pc.Unlocking? && q.pc.next.Migrate? ==> q.pc.next.target < buckets)
    && (q.validating ==> Validates(q.pc) && !q.spec.interaction)
    && (q.pc.Own? && (q.pc.stage.Learned? || q.pc.stage.ValStored? || q.pc.stage.Decided?) ==>
        q.pc.stage.seenBucket < buckets)
    && (q.pc.Own? && q.pc.stage.ValStored? ==> q.validating)
    && (q.pc.Own? && (q.pc.stage.ValEnter? || q.pc.stage.ValAcquired? || q.pc.stage.ValRecheck?) ==>
        !q.spec.interaction)
  }

  ghost predicate Gates(c: Client) {
    forall g :: g in c.table.gates <==> g == ValidationGate || g == PacerGate || (g.BucketGate? && g.id < |c.pool|)
  }

  ghost predicate Links(c: Client) {
    && c.table.agents.Keys == c.reqs.Keys
    && (forall r :: r in c.reqs ==> Linked(c.reqs[r], c.table.agents[r]) && Shaped(c.reqs[r], |c.pool|))
  }

  ghost predicate Pointers(c: Client) {
    forall k :: k in c.maps.buckets ==> c.maps.buckets[k] < |c.pool|
  }

  ghost function Counted(reqs: map<RequestId, Request>, b: nat): set<RequestId> {
    set r | r in reqs && CountsOn(reqs[r]) == Some(b)
  }

  /** The active counters count: each bucket's equals the number of requests between its increment and decrement, and
      the client's equals the number of admitted requests. */
  ghost predicate Counters(c: Client) {
    && (forall b: nat :: b < |c.pool| ==> c.pool[b].active == |Counted(c.reqs, b)|)
    && c.active == |c.reqs|
  }

  ghost predicate Inv(c: Client) {
    GateTable.Inv(c.table) && Gates(c) && Links(c) && Pointers(c) && Counters(c)
  }

  // ----- facts about program counters -----

  lemma WantsNotHeld(q: Request, n: nat)
    requires Shaped(q, n) && Wants(q).Some?
    ensures Wants(q).value !in HoldsOf(q)
    ensures HoldsOf(OnGot(q)) == HoldsOf(q) + {Wants(q).value}
    ensures HoldsOf(OnFail(q)) == HoldsOf(q)
    ensures Shaped(OnGot(q), n) && Shaped(OnFail(q), n)
    ensures Wants(OnGot(q)).None? && Wants(OnFail(q)).None?
    ensures CountsOn(OnGot(q)) == CountsOn(q) == CountsOn(OnFail(q))
    ensures Wants(q).value.BucketGate? ==> Wants(q).value.id < n
  {
  }

  lemma DropsHeld(q: Request, n: nat)
    requires Shaped(q, n) && Drops(q).Some?
    ensures Drops(q).value in HoldsOf(q)
    ensures HoldsOf(AfterDrop(q)) == HoldsOf(q) - {Drops(q).value}
    ensures Shaped(AfterDrop(q), n)
    ensures Wants(q).None? && Wants(AfterDrop(q)).None?
    ensures CountsOn(AfterDrop(q)) == CountsOn(q)
  {
  }

  lemma LocalHolds(cfg: Config, c: Client, now: int, q: Request, n: PC)
    requires Shaped(q, |c.pool|) && LocalStep(cfg, c, now, q, n)
    ensures HoldsOf(LocalNext(q, n, now)) == HoldsOf(q)
  {
    hide KnownDelay, TooLate, Pacer.CanGrant;
  }

  lemma LocalShaped(cfg: Config, c: Client, now: int, q: Request, n: PC)
    requires Shaped(q, |c.pool|) && LocalStep(cfg, c, now, q, n)
    ensures Shaped(LocalNext(q, n, now), |c.pool|)
  {
    hide KnownDelay, TooLate, Pacer.CanGrant;
  }

  lemma LocalFrame(cfg: Config, c: Client, now: int, q: Request, n: PC)
    requires LocalStep(cfg, c, now, q, n)
    ensures Wants(q).None?
    ensures CountsOn(LocalNext(q, n, now)) == CountsOn(q)
  {
    hide KnownDelay, TooLate, Pacer.CanGrant;
  }

  // ----- generic preservation -----

  lemma {:induction false} CountedFrame(reqs: map<RequestId, Request>, r: RequestId, n: Request, b: nat)
    requires r in reqs && CountsOn(n) == CountsOn(reqs[r])
    ensures Counted(reqs[r := n], b) == Counted(reqs, b)
  {
  }

  lemma SizeFrame(reqs: map<RequestId, Request>, r: RequestId, n: Request)
    requires r in reqs
    ensures |reqs[r := n]| == |reqs|
  {
    assert reqs[r := n].Keys == reqs.Keys;
    assert |reqs[r := n]| == |reqs[r := n].Keys| && |reqs| == |reqs.Keys|;
  }

  /** A step that changes one request, and otherwise neither the number of buckets nor their counters, keeps the
      counters if the request counts on the same bucket as before. */
  lemma CountersFrame(c: Client, d: Client, r: RequestId, n: Request)
    requires Counters(c) && r in c.reqs && d.reqs == c.reqs[r := n] && CountsOn(n) == CountsOn(c.reqs[r])
    requires |d.pool| == |c.pool| && d.active == c.active
    requires forall b: nat :: b < |c.pool| ==> d.pool[b].active == c.pool[b].active
    ensures Counters(d)
  {
    forall b: nat | b < |d.pool|
      ensures d.pool[b].active == |Counted(d.reqs, b)|
    {
      CountedFrame(c.reqs, r, n, b);
    }
    SizeFrame(c.reqs, r, n);
  }

  /** A gate step leaves the other requests' records alone, except that a queued request may become a granted one. */
  ghost predicate OthersSame(t: Table, u: Table, r: RequestId) {
    && u.agents.Keys == t.agents.Keys
    && u.gates.Keys == t.gates.Keys
    && (forall s :: s in t.agents && s != r ==>
                      && u.agents[s].holds == t.agents[s].holds
                      && (u.agents[s].wait != NotWaiting ==>
                            t.agents[s].wait != NotWaiting && u.agents[s].wait.gate == t.agents[s].wait.gate))
  }

  lemma LinksFrame(c: Client, d: Client, r: RequestId, n: Request)
    requires Gates(c) && Links(c) && r in c.reqs
    requires d.reqs == c.reqs[r := n] && |d.pool| == |c.pool| && OthersSame(c.table, d.table, r)
    requires Linked(n, d.table.agents[r]) && Shaped(n, |c.pool|)
    ensures Gates(d) && Links(d)
  {
    hide HoldsOf, Wants, Shaped;
  }

  lemma ReleaseOthers(t: Table, r: RequestId, g: GateId)
    requires GateTable.Inv(t) && r in t.agents && g in t.agents[r].holds && g in t.gates
    ensures OthersSame(t, Release(t, r, g), r)
    ensures Release(t, r, g).agents[r] == t.agents[r].(holds := t.agents[r].holds - {g})
  {
    hide HeldExact, QueuesBounded, Owns;
    var w := t.gates[g].waiters;
    if w != [] {
      assert w[0] in w;
      assert t.agents[w[0]].wait == Queued(g);
    }
  }

  // ----- frames -----

  /** Labels by which one admitted request moves on. */
  predicate Moves(l: Label) {
    !l.Begin? && !l.End? && !l.Touch? && !l.Sweep?
  }

  /** A move changes no other request; only lookups and learning change the maps. */
  lemma MoveFrame(cfg: Config, c: Client, now: int, l: Label)
    requires Enabled(cfg, c, now, l) && Moves(l)
    ensures var d := Apply(cfg, c, now, l);
            && l.r in c.reqs && l.r in d.reqs
            && d.reqs == c.reqs[l.r := d.reqs[l.r]]
            && (!l.Look? && !l.Learn? ==> d.maps == c.maps)
            && (!l.Look? ==> |d.pool| == |c.pool|)
            && (!l.Mark? && !l.Verdict? ==> d.validity == c.validity)
            && (!l.BlockBucket? ==> d.cooldown == c.cooldown)
            && (!l.Pace? && !l.BlockGlobal? ==> d.pacer == c.pacer)
            && d.anonymous == c.anonymous && d.lastUsed == c.lastUsed
  {
    hide LocalStep, LocalNext, OnGot, OnFail, AfterDrop, Wants, Drops, Release, GateTable.Wake, GateTable.Cancel,
      GateTable.Enter, Entry, RateLimit.Observe, Pacer.BlockFor, Pacer.Grant, Opened, AfterLook, LookTarget, Canonical,
      ClientMaps.Learn, LearnTarget, Net, Create, Blocked, AddGate;
  }

  /** How a move changes the request that makes it. */
  ghost predicate Moved(c: Client, now: int, l: Label, q: Request, n: Request) {
    n.spec == q.spec &&
    match l
    case Open(_, deadline) => n == Opened(q, deadline, now)
    case Local(_, pc) => n == LocalNext(q, pc, now)
    case Enter(_) => n == OnGot(q) || n == q || n == OnFail(q)
    case Wake(_) => n == OnGot(q)
    case Cancel(_) => n == OnFail(q)
    case Drop(_) => n == AfterDrop(q)
    case Look(_, granted) => n == AfterLook(q, LookTarget(c, q.spec.route, granted))
    case Count(_) => q.pc.Resolved? && n == q.(pc := Entering(q.pc.b))
    case Uncount(_) =>
      || (q.pc.AbortCount? && n == q.(pc := Finished))
      || (q.pc.Uncounting? && n == q.(pc := Unlocking(q.pc.b, q.pc.next)))
    case Pace(_) => q.pc.Own? && q.pc.stage.PaceTry? && n == At(q, q.pc.b, PaceDrop(true))
    case Send(_) =>
      q.pc.Own? && q.pc.stage.Ready?
      && n == At(q, q.pc.b, InFlight).(t := q.t.(attempts := q.t.attempts + 1, lastSent := now))
    case Mark(_) =>
      q.pc.Own? && q.pc.stage.Got?
      && n == At(q, q.pc.b, Marked(RateLimit.Observe(q.pc.stage.response, q.spec.interaction, now)))
              .(t := q.t.(observed := now))
    case BlockGlobal(_, at) =>
      q.pc.Own? && q.pc.stage.Marked?
      && n == At(q, q.pc.b, GlobalDone(q.pc.stage.plan))
              .(t := if q.pc.stage.plan.global.Some? && !q.spec.interaction
                     then q.t.(notBefore := at + RateLimit.MINIMUM_RETRY_DELAY, viaGlobal := true) else q.t)
    case BlockBucket(_, at) =>
      q.pc.Own? && q.pc.stage.GlobalDone?
      && n == At(q, q.pc.b, BucketDone(q.pc.stage.plan))
              .(t := if q.pc.stage.plan.bucket.Some? && q.pc.stage.plan.limited
                     then q.t.(notBefore := at + RateLimit.MINIMUM_RETRY_DELAY, viaGlobal := false) else q.t)
    case Learn(_, _) =>
      q.pc.Own? && q.pc.stage.BucketDone? && n.pc.Own? && n.pc.stage.Learned?
      && n == At(q, q.pc.b, Learned(q.pc.stage.plan, n.pc.stage.seenBucket))
    case Verdict(_) =>
      q.pc.Own? && q.pc.stage.Learned? && q.validating
      && n == At(q, q.pc.b, ValStored(q.pc.stage.plan, q.pc.stage.seenBucket))
    case _ => false
  }

  lemma SpecKept(q: Request, n: PC, now: int, deadline: int, t: Option<nat>)
    ensures LocalNext(q, n, now).spec == q.spec && Opened(q, deadline, now).spec == q.spec
    ensures OnGot(q).spec == q.spec && OnFail(q).spec == q.spec && AfterDrop(q).spec == q.spec
    ensures AfterLook(q, t).spec == q.spec
  {
  }

  /** The request that moved, afterwards. */
  ghost function Mover(cfg: Config, c: Client, now: int, l: Label): Request
    requires Enabled(cfg, c, now, l) && Moves(l)
  {
    MoveFrame(cfg, c, now, l);
    Apply(cfg, c, now, l).reqs[l.r]
  }

  predicate AfterAdmission(l: Label) {
    l.Pace? || l.Send? || l.Mark? || l.BlockGlobal? || l.BlockBucket? || l.Learn? || l.Verdict?
  }

  lemma MoveRequestEarly(cfg: Config, c: Client, now: int, l: Label)
    requires Enabled(cfg, c, now, l) && Moves(l) && !AfterAdmission(l)
    ensures l.r in c.reqs && Moved(c, now, l, c.reqs[l.r], Mover(cfg, c, now, l))
  {
    hide LocalStep, LocalNext, OnGot, OnFail, AfterDrop, Wants, Drops, Release, GateTable.Wake, GateTable.Cancel,
      GateTable.Enter, RateLimit.Observe, Pacer.BlockFor, Pacer.Grant, AfterLook, LookTarget, Canonical, Opened,
      ClientMaps.Learn, LearnTarget, Net, Create, Blocked, AddGate;
    SpecKept(c.reqs[l.r], if l.Local? then l.pc else Start, now, if l.Open? then l.deadline else 0,
             if l.Look? then LookTarget(c, c.reqs[l.r].spec.route, l.granted) else None);
  }

  lemma MoveRequestLate(cfg: Config, c: Client, now: int, l: Label)
    requires Enabled(cfg, c, now, l) && Moves(l) && AfterAdmission(l)
    ensures l.r in c.reqs && Moved(c, now, l, c.reqs[l.r], Mover(cfg, c, now, l))
  {
    hide LocalStep, LocalNext, OnGot, OnFail, AfterDrop, Wants, Drops, Release, GateTable.Wake, GateTable.Cancel,
      GateTable.Enter, RateLimit.Observe, Pacer.BlockFor, Pacer.Grant, AfterLook, LookTarget, Canonical, Opened,
      ClientMaps.Learn, LearnTarget, Net, Create, Blocked, AddGate;
  }

  lemma MoveRequest(cfg: Config, c: Client, now: int, l: Label)
    requires Enabled(cfg, c, now, l) && Moves(l)
    ensures l.r in c.reqs && Moved(c, now, l, c.reqs[l.r], Mover(cfg, c, now, l))
  {
    hide Enabled, Moved, Mover, Moves;
    if AfterAdmission(l) {
      MoveRequestLate(cfg, c, now, l);
    } else {
      MoveRequestEarly(cfg, c, now, l);
    }
  }

  // ----- the labels -----

  lemma LinkOf(c: Client, r: RequestId)
    requires Links(c) && r in c.reqs
    ensures r in c.table.agents && Linked(c.reqs[r], c.table.agents[r]) && Shaped(c.reqs[r], |c.pool|)
  {
  }

  lemma CountedAfterBegin(reqs: map<RequestId, Request>, r: RequestId, q: Request, b: nat)
    requires r !in reqs && CountsOn(q).None?
    ensures Counted(reqs[r := q], b) == Counted(reqs, b)
  {
    hide CountsOn;
  }

  lemma BegunCounts(c: Client, d: Client, r: RequestId, q: Request)
    requires Counters(c) && d.pool == c.pool && d.active == c.active + 1
    requires r !in c.reqs && d.reqs == c.reqs[r := q] && CountsOn(q).None?
    ensures Counters(d)
  {
    hide CountsOn, Counted;
    forall b: nat | b < |d.pool|
      ensures d.pool[b].active == |Counted(d.reqs, b)|
    {
      CountedAfterBegin(c.reqs, r, q, b);
    }
    assert d.reqs.Keys == c.reqs.Keys + {r};
    assert |d.reqs| == |d.reqs.Keys| && |c.reqs| == |c.reqs.Keys|;
  }

  lemma EndedCounts(c: Client, d: Client, r: RequestId)
    requires Counters(c) && d.pool == c.pool && d.active == c.active - 1
    requires r in c.reqs && d.reqs == c.reqs - {r} && CountsOn(c.reqs[r]).None?
    ensures Counters(d)
  {
    hide CountsOn;
    forall b: nat | b < |d.pool|
      ensures d.pool[b].active == |Counted(d.reqs, b)|
    {
      assert Counted(d.reqs, b) == Counted(c.reqs, b);
    }
    assert d.reqs.Keys == c.reqs.Keys - {r};
    assert |d.reqs| == |d.reqs.Keys| && |c.reqs| == |c.reqs.Keys|;
  }

  lemma BeginLinks(c: Client, r: RequestId, route: Key, major: string, interaction: bool, at: int, now: int)
    requires Gates(c) && Links(c) && r !in c.reqs
    ensures Gates(DoBegin(c, r, route, major, interaction, at, now))
    ensures Links(DoBegin(c, r, route, major, interaction, at, now))
  {
    var d := DoBegin(c, r, route, major, interaction, at, now);
    assert Linked(d.reqs[r], IDLE) && Shaped(d.reqs[r], |c.pool|);
    hide HoldsOf, Wants, Shaped;
  }

  lemma BeginKeeps(c: Client, r: RequestId, route: Key, major: string, interaction: bool, at: int, now: int)
    requires Inv(c) && r !in c.reqs
    ensures Inv(DoBegin(c, r, route, major, interaction, at, now))
  {
    hide GateTable.Inv, Gates, Counters, Linked, Shaped;
    BeginLinks(c, r, route, major, interaction, at, now);
    AddAgentKeeps(c.table, r);
    var d := DoBegin(c, r, route, major, interaction, at, now);
    BegunCounts(c, d, r, d.reqs[r]);
  }

  lemma EndLinks(c: Client, r: RequestId, now: int)
    requires Gates(c) && Links(c) && r in c.reqs && c.reqs[r].pc.Finished?
    ensures r in c.table.agents && c.table.agents[r] == IDLE
    ensures Gates(DoEnd(c, r, now)) && Links(DoEnd(c, r, now))
  {
    hide HoldsOf, Wants, Shaped;
    LinkOf(c, r);
    FinishedIsIdle(c.reqs[r], |c.pool|);
  }

  lemma FinishedIsIdle(q: Request, n: nat)
    requires q.pc.Finished? && Shaped(q, n)
    ensures HoldsOf(q) == {} && Wants(q).None?
  {
  }

  lemma EndKeeps(c: Client, r: RequestId, now: int)
    requires Inv(c) && r in c.reqs && c.reqs[r].pc.Finished?
    ensures Inv(DoEnd(c, r, now))
  {
    hide GateTable.Inv, Gates, Counters, Linked, Shaped;
    EndLinks(c, r, now);
    RemoveAgentKeeps(c.table, r);
    EndedCounts(c, DoEnd(c, r, now), r);
  }

  lemma TouchKeeps(c: Client, x: nat, at: int)
    requires Inv(c) && x < |c.ending|
    ensures Inv(DoTouch(c, x, at))
  {
    hide GateTable.Inv, Linked, Shaped, Counted;
  }

  lemma OpenKeeps(c: Client, now: int, r: RequestId, deadline: int)
    requires Inv(c) && r in c.reqs && c.reqs[r].pc.Admitted?
    ensures Inv(WithReq(c, r, Opened(c.reqs[r], deadline, now)))
  {
    hide GateTable.Inv, Gates, Links, Counters;
    var n := Opened(c.reqs[r], deadline, now);
    LinkOf(c, r);
    LinksFrame(c, WithReq(c, r, n), r, n);
    CountersFrame(c, WithReq(c, r, n), r, n);
  }

  lemma LocalKeeps(cfg: Config, c: Client, now: int, r: RequestId, n: PC)
    requires Inv(c) && r in c.reqs && LocalStep(cfg, c, now, c.reqs[r], n)
    ensures Inv(WithReq(c, r, LocalNext(c.reqs[r], n, now)))
  {
    hide GateTable.Inv, Gates, Links, Counters, LocalStep, LocalNext, HoldsOf, Shaped, Wants, CountsOn;
    var q := c.reqs[r];
    var m := LocalNext(q, n, now);
    LinkOf(c, r);
    LocalHolds(cfg, c, now, q, n);
    LocalShaped(cfg, c, now, q, n);
    LocalFrame(cfg, c, now, q, n);
    LinksFrame(c, WithReq(c, r, m), r, m);
    CountersFrame(c, WithReq(c, r, m), r, m);
  }

  lemma WantedExists(c: Client, r: RequestId)
    requires Gates(c) && r in c.reqs && Shaped(c.reqs[r], |c.pool|) && Wants(c.reqs[r]).Some?
    ensures Wants(c.reqs[r]).value in c.table.gates
  {
    WantsNotHeld(c.reqs[r], |c.pool|);
  }

  lemma EnterKeepsInv(c: Client, r: RequestId)
    requires Inv(c) && r in c.reqs && Wants(c.reqs[r]).Some? && c.table.agents[r].wait == NotWaiting
    ensures Wants(c.reqs[r]).value in c.table.gates && Inv(DoEnter(c, r))
  {
    hide GateTable.Inv, Gates, Counters, Links, HoldsOf, Shaped, Wants, CountsOn, OnGot, OnFail;
    LinkOf(c, r);
    WantedExists(c, r);
    var q := c.reqs[r];
    var g := Wants(q).value;
    WantsNotHeld(q, |c.pool|);
    EnterKeeps(c.table, r, g);
    var d := DoEnter(c, r);
    LinksFrame(c, d, r, d.reqs[r]);
    CountersFrame(c, d, r, d.reqs[r]);
  }

  lemma WakeKeepsInv(c: Client, r: RequestId)
    requires Inv(c) && r in c.reqs && Wants(c.reqs[r]).Some?
    requires c.table.agents[r].wait == Granted(Wants(c.reqs[r]).value)
    ensures Inv(WithReq(c, r, OnGot(c.reqs[r])).(table := GateTable.Wake(c.table, r, Wants(c.reqs[r]).value)))
  {
    hide GateTable.Inv, Gates, Counters, Links, HoldsOf, Shaped, Wants, CountsOn, OnGot;
    LinkOf(c, r);
    var q := c.reqs[r];
    var g := Wants(q).value;
    WantsNotHeld(q, |c.pool|);
    WakeKeeps(c.table, r, g);
    var d := WithReq(c, r, OnGot(q)).(table := GateTable.Wake(c.table, r, g));
    LinksFrame(c, d, r, OnGot(q));
    CountersFrame(c, d, r, OnGot(q));
  }

  lemma CancelKeepsInv(c: Client, r: RequestId)
    requires Inv(c) && r in c.reqs && Wants(c.reqs[r]).Some?
    requires c.table.agents[r].wait == Queued(Wants(c.reqs[r]).value)
    ensures Wants(c.reqs[r]).value in c.table.gates
    ensures Inv(WithReq(c, r, OnFail(c.reqs[r])).(table := GateTable.Cancel(c.table, r, Wants(c.reqs[r]).value)))
  {
    hide GateTable.Inv, Gates, Counters, Links, HoldsOf, Shaped, Wants, CountsOn, OnFail;
    LinkOf(c, r);
    var q := c.reqs[r];
    var g := Wants(q).value;
    WantsNotHeld(q, |c.pool|);
    CancelKeeps(c.table, r, g);
    var d := WithReq(c, r, OnFail(q)).(table := GateTable.Cancel(c.table, r, g));
    LinksFrame(c, d, r, OnFail(q));
    CountersFrame(c, d, r, OnFail(q));
  }

  lemma DropKeepsInv(c: Client, r: RequestId)
    requires Inv(c) && r in c.reqs && Drops(c.reqs[r]).Some?
    ensures Drops(c.reqs[r]).value in c.table.gates
    ensures Inv(WithReq(c, r, AfterDrop(c.reqs[r])).(table := Release(c.table, r, Drops(c.reqs[r]).value)))
  {
    hide GateTable.Inv, Gates, Counters, Links, HoldsOf, Shaped, Wants, CountsOn, Drops, AfterDrop, Release, OthersSame;
    LinkOf(c, r);
    var q := c.reqs[r];
    var g := Drops(q).value;
    DropsHeld(q, |c.pool|);
    ReleaseKeeps(c.table, r, g);
    ReleaseOthers(c.table, r, g);
    var d := WithReq(c, r, AfterDrop(q)).(table := Release(c.table, r, g));
    LinksFrame(c, d, r, AfterDrop(q));
    CountersFrame(c, d, r, AfterDrop(q));
  }

  lemma MadeLinks(c: Client, route: Key)
    requires Gates(c) && Links(c)
    ensures Gates(Made(c, route)) && Links(Made(c, route))
  {
    hide HoldsOf, Wants;
  }

  lemma MadeCounters(c: Client, route: Key)
    requires Counters(c) && Links(c)
    ensures Counters(Made(c, route))
  {
    assert Counted(c.reqs, |c.pool|) == {} by {
      forall r | r in c.reqs
        ensures CountsOn(c.reqs[r]) != Some(|c.pool|)
      {
        LinkOf(c, r);
      }
    }
  }

  lemma MadeKeeps(c: Client, route: Key)
    requires Inv(c)
    ensures Inv(Made(c, route))
  {
    hide GateTable.Inv, Links, Counters;
    MadeLinks(c, route);
    MadeCounters(c, route);
    AddGateKeeps(c.table, BucketGate(|c.pool|));
  }

  lemma LookPc(q: Request, t: Option<nat>, n: nat)
    requires Shaped(q, n) && (q.pc.Start? || q.pc.Rechecking?) && (t.Some? ==> t.value < n)
    ensures Shaped(AfterLook(q, t), n)
    ensures HoldsOf(AfterLook(q, t)) == HoldsOf(q) && Wants(q).None?
    ensures CountsOn(AfterLook(q, t)) == CountsOn(q)
  {
  }

  lemma LookKeeps(c: Client, r: RequestId, granted: bool)
    requires Inv(c) && r in c.reqs && (c.reqs[r].pc.Start? || c.reqs[r].pc.Rechecking?)
    ensures Inv(DoLook(c, r, granted))
  {
    hide GateTable.Inv, Gates, Counters, Links, HoldsOf, Shaped, Wants, CountsOn, AfterLook;
    var q := c.reqs[r];
    var t := LookTarget(c, q.spec.route, granted);
    var d := if LookCreates(c, q.spec.route, granted) then Made(c, q.spec.route) else c;
    if LookCreates(c, q.spec.route, granted) {
      MadeKeeps(c, q.spec.route);
    }
    assert d.reqs == c.reqs;
    LinkOf(d, r);
    LookPc(q, t, |d.pool|);
    var n := AfterLook(q, t);
    LinksFrame(d, WithReq(d, r, n), r, n);
    CountersFrame(d, WithReq(d, r, n), r, n);
  }

  lemma CountedAdd(reqs: map<RequestId, Request>, r: RequestId, n: Request, b: nat)
    requires r in reqs && CountsOn(reqs[r]).None? && CountsOn(n).Some?
    ensures |Counted(reqs[r := n], b)| == |Counted(reqs, b)| + if CountsOn(n) == Some(b) then 1 else 0
  {
    hide CountsOn;
    if CountsOn(n) == Some(b) {
      assert Counted(reqs[r := n], b) == Counted(reqs, b) + {r};
    } else {
      assert Counted(reqs[r := n], b) == Counted(reqs, b);
    }
  }

  lemma CountedRemove(reqs: map<RequestId, Request>, r: RequestId, n: Request, b: nat)
    requires r in reqs && CountsOn(reqs[r]).Some? && CountsOn(n).None?
    ensures |Counted(reqs[r := n], b)| == |Counted(reqs, b)| - if CountsOn(reqs[r]) == Some(b) then 1 else 0
  {
    hide CountsOn;
    if CountsOn(reqs[r]) == Some(b) {
      assert r in Counted(reqs, b);
      assert Counted(reqs[r := n], b) == Counted(reqs, b) - {r};
    } else {
      assert Counted(reqs[r := n], b) == Counted(reqs, b);
    }
  }

  lemma CountCounters(c: Client, r: RequestId)
    requires Counters(c) && r in c.reqs && c.reqs[r].pc.Resolved? && c.reqs[r].pc.b < |c.pool|
    ensures Counters(DoCount(c, r))
  {
    var d := DoCount(c, r);
    forall b: nat | b < |d.pool|
      ensures d.pool[b].active == |Counted(d.reqs, b)|
    {
      CountedAdd(c.reqs, r, d.reqs[r], b);
    }
    SizeFrame(c.reqs, r, d.reqs[r]);
  }

  lemma CountKeeps(c: Client, r: RequestId)
    requires Inv(c) && r in c.reqs && c.reqs[r].pc.Resolved?
    ensures c.reqs[r].pc.b < |c.pool| && Inv(DoCount(c, r))
  {
    hide GateTable.Inv, Gates, Counters, Links;
    LinkOf(c, r);
    var d := DoCount(c, r);
    CountCounters(c, r);
    LinksFrame(c, d, r, d.reqs[r]);
  }

  lemma UncountCounters(c: Client, r: RequestId)
    requires Counters(c) && r in c.reqs && (c.reqs[r].pc.Uncounting? || c.reqs[r].pc.AbortCount?)
    requires c.reqs[r].pc.b < |c.pool|
    ensures Counters(DoUncount(c, r))
  {
    var d := DoUncount(c, r);
    forall b: nat | b < |d.pool|
      ensures d.pool[b].active == |Counted(d.reqs, b)|
    {
      CountedRemove(c.reqs, r, d.reqs[r], b);
    }
    SizeFrame(c.reqs, r, d.reqs[r]);
  }

  lemma UncountKeeps(c: Client, r: RequestId)
    requires Inv(c) && r in c.reqs && (c.reqs[r].pc.Uncounting? || c.reqs[r].pc.AbortCount?)
    ensures c.reqs[r].pc.b < |c.pool| && Inv(DoUncount(c, r))
  {
    hide GateTable.Inv, Gates, Counters, Links;
    LinkOf(c, r);
    var d := DoUncount(c, r);
    UncountCounters(c, r);
    LinksFrame(c, d, r, d.reqs[r]);
  }

  /** Steps of an owner that change its stage and data outside the gates. */
  lemma StageKeeps(c: Client, d: Client, r: RequestId, n: Request)
    requires Inv(c) && r in c.reqs && c.reqs[r].pc.Own? && n.pc.Own? && n.pc.b == c.reqs[r].pc.b
    requires d.reqs == c.reqs[r := n] && d.table == c.table && d.active == c.active
    requires HoldsOf(n) == HoldsOf(c.reqs[r]) && Wants(c.reqs[r]).None? && Shaped(n, |c.pool|)
    requires |d.pool| == |c.pool| && forall b: nat :: b < |c.pool| ==> d.pool[b].active == c.pool[b].active
    requires Pointers(d)
    ensures Inv(d)
  {
    hide GateTable.Inv, Gates, Counters, Links, HoldsOf, Wants, Shaped;
    LinkOf(c, r);
    LinksFrame(c, d, r, n);
    CountersFrame(c, d, r, n);
  }

  lemma LearnPointers(m: Maps<nat>, route: Key, k: Key, b: nat, n: nat)
    requires b < n && forall j :: j in m.buckets ==> m.buckets[j] < n
    ensures forall j :: j in ClientMaps.Learn(m, route, k, b).buckets ==>
                          ClientMaps.Learn(m, route, k, b).buckets[j] < n
    ensures LearnTarget(m, k, b) < n
  {
  }

  lemma SweepKeeps(c: Client, at: int, unused: set<nat>)
    requires Inv(c)
    ensures Inv(DoSweep(c, at, unused))
  {
    hide GateTable.Inv;
  }

  /** Moving on between two stages that hold the same gates and want none. */
  lemma StageMove(q: Request, s: Stage, n: nat)
    requires Shaped(q, n) && q.pc.Own?
    requires || (q.pc.stage.PaceTry? && s == PaceDrop(true))
             || (q.pc.stage.Ready? && s.InFlight?)
             || (q.pc.stage.Got? && s.Marked?)
             || (q.pc.stage.Marked? && s.GlobalDone?)
             || (q.pc.stage.GlobalDone? && s.BucketDone?)
             || (q.pc.stage.BucketDone? && s.Learned? && s.seenBucket < n)
             || (q.pc.stage.Learned? && q.validating && s.ValStored? && s.seenBucket == q.pc.stage.seenBucket)
    ensures HoldsOf(At(q, q.pc.b, s)) == HoldsOf(q) && Wants(q).None?
    ensures Shaped(At(q, q.pc.b, s), n)
  {
  }

  /** What the invariant reads of a request. */
  lemma SameShape(q: Request, p: Request, n: nat)
    requires p.pc == q.pc && p.validating == q.validating && p.spec == q.spec
    ensures HoldsOf(p) == HoldsOf(q) && (Shaped(q, n) ==> Shaped(p, n))
  {
  }

  lemma OwnerKeeps(c: Client, d: Client, r: RequestId, n: Request, s: Stage)
    requires Inv(c) && r in c.reqs && c.reqs[r].pc.Own?
    requires n.pc == Own(c.reqs[r].pc.b, s) && n.validating == c.reqs[r].validating && n.spec == c.reqs[r].spec
    requires HoldsOf(At(c.reqs[r], c.reqs[r].pc.b, s)) == HoldsOf(c.reqs[r]) && Wants(c.reqs[r]).None?
    requires Shaped(At(c.reqs[r], c.reqs[r].pc.b, s), |c.pool|)
    requires d.reqs == c.reqs[r := n] && d.table == c.table && d.active == c.active
    requires |d.pool| == |c.pool| && forall b: nat :: b < |c.pool| ==> d.pool[b].active == c.pool[b].active
    requires Pointers(d)
    ensures Inv(d)
  {
    hide Inv, HoldsOf, Wants, Shaped, Pointers;
    SameShape(At(c.reqs[r], c.reqs[r].pc.b, s), n, |c.pool|);
    StageKeeps(c, d, r, n);
  }

  lemma PaceKeeps(c: Client, r: RequestId, now: int)
    requires Inv(c) && AtStage(c, r) && c.reqs[r].pc.stage.PaceTry?
    ensures Inv(WithReq(c, r, At(c.reqs[r], c.reqs[r].pc.b, PaceDrop(true))).(pacer := Pacer.Grant(c.pacer, now)))
  {
    hide GateTable.Inv, Gates, Links, Counters, HoldsOf, Wants, Shaped, Pacer.Grant;
    LinkOf(c, r);
    StageMove(c.reqs[r], PaceDrop(true), |c.pool|);
    var d := WithReq(c, r, At(c.reqs[r], c.reqs[r].pc.b, PaceDrop(true))).(pacer := Pacer.Grant(c.pacer, now));
    OwnerKeeps(c, d, r, d.reqs[r], PaceDrop(true));
  }

  lemma SendKeeps(c: Client, r: RequestId, now: int)
    requires Inv(c) && AtStage(c, r) && c.reqs[r].pc.stage.Ready?
    ensures Inv(DoSend(c, r, now))
  {
    hide GateTable.Inv, Gates, Links, Counters, HoldsOf, Wants, Shaped;
    LinkOf(c, r);
    StageMove(c.reqs[r], InFlight, |c.pool|);
    OwnerKeeps(c, DoSend(c, r, now), r, DoSend(c, r, now).reqs[r], InFlight);
  }

  lemma MarkKeeps(cfg: Config, c: Client, r: RequestId, now: int)
    requires Inv(c) && AtStage(c, r) && c.reqs[r].pc.stage.Got?
    ensures Inv(DoMark(cfg, c, r, now))
  {
    hide GateTable.Inv, Gates, Links, Counters, HoldsOf, Wants, Shaped, RateLimit.Observe;
    var d := DoMark(cfg, c, r, now);
    LinkOf(c, r);
    StageMove(c.reqs[r], d.reqs[r].pc.stage, |c.pool|);
    OwnerKeeps(c, d, r, d.reqs[r], d.reqs[r].pc.stage);
  }

  lemma BlockGlobalKeeps(c: Client, r: RequestId, at: int)
    requires Inv(c) && AtStage(c, r) && c.reqs[r].pc.stage.Marked?
    ensures Inv(DoBlockGlobal(c, r, at))
  {
    hide GateTable.Inv, Gates, Links, Counters, HoldsOf, Wants, Shaped, Pacer.BlockFor;
    var d := DoBlockGlobal(c, r, at);
    LinkOf(c, r);
    StageMove(c.reqs[r], d.reqs[r].pc.stage, |c.pool|);
    OwnerKeeps(c, d, r, d.reqs[r], d.reqs[r].pc.stage);
  }

  lemma BlockBucketKeeps(c: Client, r: RequestId, at: int)
    requires Inv(c) && AtStage(c, r) && c.reqs[r].pc.stage.GlobalDone?
    ensures Inv(DoBlockBucket(c, r, at))
  {
    hide GateTable.Inv, Gates, Links, Counters, HoldsOf, Wants, Shaped;
    var d := DoBlockBucket(c, r, at);
    LinkOf(c, r);
    StageMove(c.reqs[r], d.reqs[r].pc.stage, |c.pool|);
    OwnerKeeps(c, d, r, d.reqs[r], d.reqs[r].pc.stage);
  }

  lemma VerdictKeeps(cfg: Config, c: Client, r: RequestId)
    requires Inv(c) && AtStage(c, r) && c.reqs[r].pc.stage.Learned? && c.reqs[r].validating
    ensures Inv(DoVerdict(cfg, c, r))
  {
    hide GateTable.Inv, Gates, Links, Counters, HoldsOf, Wants, Shaped;
    var d := DoVerdict(cfg, c, r);
    LinkOf(c, r);
    StageMove(c.reqs[r], d.reqs[r].pc.stage, |c.pool|);
    OwnerKeeps(c, d, r, d.reqs[r], d.reqs[r].pc.stage);
  }

  lemma LearnKeepsInv(cfg: Config, c: Client, r: RequestId, granted: bool)
    requires Inv(c) && AtStage(c, r) && c.reqs[r].pc.stage.BucketDone?
    ensures Inv(DoLearn(cfg, c, r, granted))
  {
    hide GateTable.Inv, Gates, Links, Counters, HoldsOf, Wants, Shaped, ClientMaps.Learn, LearnTarget, Net;
    var q := c.reqs[r];
    var d := DoLearn(cfg, c, r, granted);
    LearnPointers(c.maps, q.spec.route, Canonical(cfg, q), q.pc.b, |c.pool|);
    LinkOf(c, r);
    StageMove(q, d.reqs[r].pc.stage, |c.pool|);
    OwnerKeeps(c, d, r, d.reqs[r], d.reqs[r].pc.stage);
  }

  /** Every step of every request keeps the structural invariant. */
  lemma StepKeeps(cfg: Config, c: Client, now: int, l: Label)
    requires Inv(c) && Enabled(cfg, c, now, l)
    ensures Inv(Apply(cfg, c, now, l))
  {
    hide Inv, LocalStep, LocalNext, OnGot, OnFail, AfterDrop, Wants, Drops, Release, DoEnter, DoLook, DoCount,
      DoUncount, DoLearn, DoBegin, DoEnd, DoSend, DoMark, DoBlockGlobal, DoBlockBucket, DoVerdict, DoSweep;
    match l
    case Begin(r, route, major, interaction, at) => BeginKeeps(c, r, route, major, interaction, at, now);
    case Open(r, deadline) => OpenKeeps(c, now, r, deadline);
    case Local(r, n) => LocalKeeps(cfg, c, now, r, n);
    case Enter(r) => EnterKeepsInv(c, r);
    case Wake(r) => WakeKeepsInv(c, r);
    case Cancel(r) => CancelKeepsInv(c, r);
    case Drop(r) => DropKeepsInv(c, r);
    case Look(r, granted) => LookKeeps(c, r, granted);
    case Count(r) => CountKeeps(c, r);
    case Uncount(r) => UncountKeeps(c, r);
    case Pace(r) => PaceKeeps(c, r, now);
    case Send(r) => SendKeeps(c, r, now);
    case Mark(r) => MarkKeeps(cfg, c, r, now);
    case BlockGlobal(r, at) => BlockGlobalKeeps(c, r, at);
    case BlockBucket(r, at) => BlockBucketKeeps(c, r, at);
    case Verdict(r) => VerdictKeeps(cfg, c, r);
    case Learn(r, granted) => LearnKeepsInv(cfg, c, r, granted);
    case End(r) => EndKeeps(c, r, now);
    case Touch(x, at) => TouchKeeps(c, x, at);
    case Sweep(at, unused) => SweepKeeps(c, at, unused);
  }

  lemma NewClientIsValid(anonymous: bool, limit: nat, maxWaiters: nat, now: int)
    ensures Inv(NewClient(anonymous, limit, maxWaiters, now))
  {
  }
}
