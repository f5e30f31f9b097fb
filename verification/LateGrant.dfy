/** What happens when a request is granted a permit while the time of last use reads as almost the idle timeout ago: a
    run in which an identity with a limit of one permit per second is granted two. It shows that the hypothesis of
    `IdentityPacedAlways` is exact.

A bot's first request ends at instant zero and reads the clock. The second is admitted at instant `stale`; only then
does the first store what it has read. The second waits at the pacer for another `bound`, is granted its permit, and
leaves without sending. It has not yet renewed the time of last use when an evictor comes. The bot's next request gets a
new client with a fresh pacer.
 */
module LateGrant {
  import opened Base
  import opened ClientMaps
  import opened Protocol
  import opened ProxyMachine
  import opened Theorems
  import opened Scenario
  import opened LateBlock
  import opened GlobalCooldown
  import Paced = IdentityPacing
  import Pacer

  /** When the evictor may come, if a permit was granted at `first`. */
  function Next(first: int): int {
    Max(first, IDLE_TIMEOUT + 1)
  }

  // ----- the first client -----

  /** The permit is granted and given up. */
  lemma GrantAndExit(s: Settings, run: Run, i: nat, c: Client, came: int, now: int, deadline: int)
    returns (next: Run, d: Client)
    requires Reaches(s, run, i, c, now) && AtPacer(c, 1, 0, came, deadline) && now >= 0
    ensures Reaches(s, next, i, d, now) && Goes(run, next, i, 0)
    ensures d.reqs.Keys == {0} && d.maps == OneBucket() && d.pool == c.pool && d.lastUsed == 0 && d.active == 1
    ensures d.pacer == Pacer.Grant(Pacer.New(1, ZERO_TIME), now)
    ensures d.reqs[0].pc == Own(0, Exiting) && d.reqs[0].validating
  {
    hide Reaches, Goes, Stepped, OneBucket, KnownDelay, TooLate;
    var run1, c1 := PaceNow(s, run, i, c, now, 0);
    assert c1.reqs[0].pc == Own(0, PaceDrop(true)) && c1.reqs.Keys == {0};
    var run2, c2 := GiveBack(s, run1, i, c1, now, 0);
    GoesTwice(run, run1, run2, i, 0, 0);
    assert c2.reqs[0].pc == Own(0, Ready);
    next, d := TakeLocal(s, run2, i, c2, now, 0, Own(0, Exiting));
    GoesTwice(run, run2, next, i, 0, 0);
  }

  /** The request gives the validation gate and the bucket back and leaves. */
  lemma ExitAndEnd(s: Settings, run: Run, i: nat, c: Client, now: int) returns (next: Run, d: Client)
    requires Reaches(s, run, i, c, now) && c.reqs.Keys == {0} && |c.pool| == 1
    requires c.reqs[0].pc == Own(0, Exiting) && c.reqs[0].validating
    ensures Reaches(s, next, i, d, now) && Goes(run, next, i, 0)
    ensures d.reqs == map[] && d.maps == c.maps && d.lastUsed == c.lastUsed && d.active == c.active - 1
    ensures d.pool == [c.pool[0].(active := c.pool[0].active - 1)] && d.pacer == c.pacer
  {
    hide Reaches, Goes, Stepped, KnownDelay, TooLate, Pacer.CanGrant;
    var run1, c1 := GiveBack(s, run, i, c, now, 0);
    assert c1.reqs[0].pc == Own(0, Exiting) && !c1.reqs[0].validating && c1.reqs.Keys == {0};
    var run2, c2 := TakeLocal(s, run1, i, c1, now, 0, Uncounting(0, Finish));
    GoesTwice(run, run1, run2, i, 0, 0);
    assert c2.reqs[0].pc == Uncounting(0, Finish) && c2.reqs.Keys == {0};
    var run3, c3 := LetGo(s, run2, i, c2, now, 0);
    GoesTwice(run, run2, run3, i, 0, 0);
    next, d := Leave(s, run3, i, c3, now);
    GoesTwice(run, run3, next, i, 0, 0);
  }

  lemma FirstKept(run: Run, next: Run, slots: nat, stale: nat)
    requires GoesLate(run, next, 1, slots, stale) && |Last(run).objs| == 2 && Last(run).objs[1].id == BOT
    requires Paced.Grants(Last(run), 0) == []
    ensures |Last(next).objs| == 2 && Last(next).objs[1].id == BOT && Paced.Grants(Last(next), 0) == []
  {
  }

  /** The bot's client is object 1, the only other object has granted nothing, and nobody is testing. */
  ghost predicate Alone(run: Run, stale: nat) {
    && Serves(run, 1) && Starts(run, stale)
    && Last(run).evictor == Away && Last(run).used <= 1 && Last(run).states.Keys == {ANONYMOUS, BOT}
    && |Last(run).objs| == 2 && Last(run).objs[1].id == BOT && Paced.Grants(Last(run), 0) == []
  }

  /** The bot's second request is at the pacer. */
  lemma Waiting(bound: nat, stale: nat) returns (run: Run, c: Client)
    ensures Reaches(Demo(bound, 1), run, 1, c, stale) && AtPacer(c, 1, 0, stale, stale + bound + MINUTE)
    ensures Alone(run, stale)
  {
    hide AtPacer, OnlyObject, IsRun, Starts, Stores, Unbusy;
    var s := Demo(bound, 1);
    var run0 := Prologue(bound, 1, stale);
    run, c := SecondRequest(s, run0, 1, stale);
    ServesOn(run0, run, 1, 1, stale);
    SameRegistry(run0, run, 1, 1, stale);
    StartsAlong(run0, run, 1, 1, stale);
    FirstKept(run0, run, 1, stale);
  }

  lemma AloneOn(run: Run, next: Run, stale: nat)
    requires Alone(run, stale) && Goes(run, next, 1, 0)
    ensures Alone(next, stale)
  {
    hide OnlyObject, Starts, Stores;
    ServesOn(run, next, 1, 0, 0);
    SameRegistry(run, next, 1, 0, 0);
    StartsOn(run, next, 0, stale);
    FirstKept(run, next, 0, 0);
  }

  lemma AloneLater(s: Settings, run: Run, later: int, stale: nat) returns (next: Run)
    requires IsRun(s, run) && Alone(run, stale) && Last(run).now <= later && |run.states| == |run.events| + 1
    ensures IsRun(s, next) && |next.states| == |next.events| + 1 && Alone(next, stale)
    ensures Last(next) == Last(run).(now := later)
  {
    hide IsRun, Starts, Stores;
    next := TakeEvent(s, run, Tick(later));
    StartsOn(run, next, 0, stale);
  }

  /** It is granted a permit just too late and has left. */
  lemma Gone(bound: nat, stale: nat) returns (run: Run, c: Client)
    ensures Reaches(Demo(bound, 1), run, 1, c, Next(stale + bound)) && Alone(run, stale)
    ensures c.reqs == map[] && c.active == 0 && c.lastUsed == 0 && c.maps == OneBucket()
    ensures |c.pool| == 1 && c.pool[0].active == 0 && c.pool[0].readyAt == ZERO_TIME
    ensures c.pacer == Pacer.Grant(Pacer.New(1, ZERO_TIME), stale + bound)
  {
    hide OnlyObject, IsRun, Pacer.New, Pacer.Grant, OneBucket, Alone, Stores;
    var s, first := Demo(bound, 1), stale + bound;
    var run0, c0 := Waiting(bound, stale);
    var run1 := AloneLater(s, run0, first, stale);
    var run2, c2 := GrantAndExit(s, run1, 1, c0, stale, first, stale + bound + MINUTE);
    var run3, c3 := ExitAndEnd(s, run2, 1, c2, first);
    GoesTwice(run1, run2, run3, 1, 0, 0);
    AloneOn(run1, run3, stale);
    run := AloneLater(s, run3, Next(first), stale);
    c := c3;
  }

  /** The client is evicted; its object and its grant stay on record. */
  lemma Dropped(bound: nat, stale: nat) returns (run: Run)
    ensures Vacant(Demo(bound, 1), run, Next(stale + bound), 1) && Starts(run, stale)
    ensures |Last(run).objs| == 2 && Last(run).objs[1].id == BOT
    ensures Paced.Grants(Last(run), 0) == [] && Paced.Grants(Last(run), 1) == [stale + bound]
  {
    hide IsRun, OneBucket, Stores, Starts;
    var s, now := Demo(bound, 1), Next(stale + bound);
    var run0, c := Gone(bound, stale);
    assert c.pacer.blockedUntil <= now;
    var run1 := LookForCooldown(s, run0, 1, c, now);
    StartsOn(run0, run1, 0, stale);
    QuietBucket(c, now);
    run := EvictIt(s, run1, 1, c, now);
    StartsOn(run1, run, 0, stale);
    Evicted(Last(run1));
    EvictedGrants(Last(run1));
  }

  lemma EvictedGrants(p: Proxy)
    requires BOT in p.states && p.states[BOT] == 1 && |p.objs| == 2
    ensures var q := DoEvict(p, BOT);
            && |q.objs| == 2 && q.objs[1].id == p.objs[1].id
            && Paced.Grants(q, 0) == Paced.Grants(p, 0) && Paced.Grants(q, 1) == Paced.Grants(p, 1)
  {
  }

  /** The end of the story: two permits, and when they were granted. */
  ghost predicate Twice(p: Proxy, first: int) {
    && |p.objs| == 3 && p.objs[1].id == BOT && p.objs[2].id == BOT
    && Paced.Grants(p, 0) == [] && Paced.Grants(p, 1) == [first] && Paced.Grants(p, 2) == [Next(first)]
  }

  /** The bot's next request is granted a permit less than a second after the first. `m` is the number of the event that
      makes its client. */
  lemma TwoGrants(bound: nat, stale: nat) returns (run: Run, m: nat)
    ensures IsRun(Demo(bound, 1), run) && |run.states| == |run.events| + 1 && Twice(Last(run), stale + bound)
    ensures m < |run.states| && |run.states[m].objs| == 2 && run.states[m].now == Next(stale + bound)
    ensures Accepted(Demo(bound, 1)) && Starts(run, stale)
  {
    hide Possible, Stores, Starts;
    var s, now := Demo(bound, 1), Next(stale + bound);
    var run0 := Dropped(bound, stale);
    m := |run0.events|;
    var run1 := TakeEvent(s, run0, Make(BOT)) by { CanMake(s, run0, now, 1); }
    MadeThird(s, Last(run0));
    StartsOn(run0, run1, 0, stale);
    hide IsRun, Vacant, OnlyObject, After;
    assert Reaches(s, run1, 2, Unbusy(1, now, []), now) && Serves(run1, 2);
    var run2, c2 := FirstRequest(s, run1, 2, now, [], now);
    var c;
    run, c := PaceNow(s, run2, 2, c2, now, 0);
    GoesTwice(run1, run2, run, 2, 1, 0);
    StartsOn(run1, run, 0, stale);
    OthersKept(run1, run, 1);
    assert run.states[m] == run1.states[m] == run0.states[m];
  }

  lemma MadeThird(s: Settings, p: Proxy)
    requires |p.objs| == 2
    ensures var q := DoMake(s, p, BOT);
            && |q.objs| == 3 && q.objs[0] == p.objs[0] && q.objs[1] == p.objs[1] && q.objs[2].id == BOT
            && q.objs[2].client == NewClient(false, s.limitOf(BOT), s.maxWaiters, p.now)
  {
    hide NewClient;
  }

  lemma OthersKept(run: Run, next: Run, slots: nat)
    requires Goes(run, next, 2, slots) && |Last(run).objs| == 3
    ensures var p, q := Last(run), Last(next);
            && |q.objs| == 3 && q.objs[0] == p.objs[0] && q.objs[1] == p.objs[1] && q.objs[2].id == p.objs[2].id
  {
  }

  // ----- every grant of the run is one of the two -----

  lemma EventGrants(s: Settings, p: Proxy, e: Event, i: nat)
    requires Possible(s, p, e) && i < |p.objs|
    ensures i < |After(s, p, e).objs| && Paced.Grants(p, i) <= Paced.Grants(After(s, p, e), i)
    ensures e.Step? && e.i == i && e.l.Pace? ==> p.now in Paced.Grants(After(s, p, e), i)
  {
    hide Enabled, Apply, Charge, Record, NewClient, Answered, BucketsQuiet;
    if e.Step? && e.i == i {
      Paced.StepGrants(s.proto, p.objs[i].client, p.now, e.l);
    } else if e.Admit? && p.states[e.id] == i {
      Paced.StepGrants(s.proto, p.objs[i].client, p.now, Begin(e.r, e.route, e.major, e.interaction, e.at));
    }
  }

  lemma {:induction false} GrantsStay(s: Settings, run: Run, j: nat, k: nat, i: nat)
    requires IsRun(s, run) && j <= k < |run.states| && i < |run.states[j].objs|
    ensures i < |run.states[k].objs| && Paced.Grants(run.states[j], i) <= Paced.Grants(run.states[k], i)
    decreases k - j
  {
    hide Possible, After, Initial;
    if j < k {
      GrantsStay(s, run, j, k - 1, i);
      EventGrants(s, run.states[k - 1], run.events[k - 1], i);
    }
  }

  lemma PaceStays(s: Settings, run: Run, k: nat)
    requires IsRun(s, run) && |run.states| == |run.events| + 1 && k < |run.events|
    requires run.events[k].Step? && run.events[k].l.Pace?
    ensures var i := run.events[k].i;
            i < |run.states[k].objs| && i < |Last(run).objs| && run.states[k].now in Paced.Grants(Last(run), i)
  {
    hide After, Initial, Answered;
    var i := run.events[k].i;
    assert Possible(s, run.states[k], run.events[k]);
    EventGrants(s, run.states[k], run.events[k], i);
    GrantsStay(s, run, k + 1, |run.events|, i);
  }

  // ----- requests of a client are no older than the client -----

  ghost predicate BornSince(p: Proxy, i: nat, start: int) {
    start <= p.now &&
    (i < |p.objs| ==> forall r :: r in p.objs[i].client.reqs ==> p.objs[i].client.reqs[r].spec.began >= start)
  }

  lemma EventBorn(s: Settings, p: Proxy, e: Event, i: nat, start: int)
    requires BornSince(p, i, start) && Possible(s, p, e)
    ensures BornSince(After(s, p, e), i, start)
  {
    hide Enabled, Apply, Charge, Record, Answered, BucketsQuiet, Pacer.New;
    var q := After(s, p, e);
    if i < |p.objs| && i < |q.objs| {
      forall r | r in q.objs[i].client.reqs
        ensures q.objs[i].client.reqs[r].spec.began >= start
      {
        if e.Step? && e.i == i {
          StepBegan(s.proto, p.objs[i].client, p.now, e.l, r);
        } else if e.Admit? && p.states[e.id] == i {
          StepBegan(s.proto, p.objs[i].client, p.now, Begin(e.r, e.route, e.major, e.interaction, e.at), r);
        }
      }
    }
  }

  lemma {:induction false} AlwaysBorn(s: Settings, run: Run, m: nat, k: nat, i: nat)
    requires IsRun(s, run) && m <= k < |run.states| && i >= |run.states[m].objs|
    ensures BornSince(run.states[k], i, run.states[m].now)
    decreases k - m
  {
    hide Possible, After, Initial, BornSince;
    if k == m {
      assert BornSince(run.states[m], i, run.states[m].now) by { Unborn(run.states[m], i); }
    } else {
      AlwaysBorn(s, run, m, k - 1, i);
      EventBorn(s, run.states[k - 1], run.events[k - 1], i, run.states[m].now);
    }
  }

  lemma Unborn(p: Proxy, i: nat)
    requires i >= |p.objs|
    ensures BornSince(p, i, p.now)
  {
  }

  // ----- the exact condition -----

  lemma GrantsArePrompt(bound: nat, stale: nat, run: Run, m: nat)
    requires IsRun(Demo(bound, 1), run) && |run.states| == |run.events| + 1 && Twice(Last(run), stale + bound)
    requires m < |run.states| && |run.states[m].objs| == 2 && run.states[m].now == Next(stale + bound)
    requires Opens(run, stale)
    ensures Paced.PromptGrants(run, bound)
  {
    hide IsRun;
    var s := Demo(bound, 1);
    forall k | 0 <= k < |run.events|
      ensures Paced.Prompt(run.states[k], run.events[k], bound)
    {
      var e := run.events[k];
      if e.Step? && e.l.Pace? {
        PaceStays(s, run, k);
        assert k >= PROLOGUE by { assert k < PROLOGUE ==> Mild(run.events[k]); }
        AlwaysSince(s, run, PROLOGUE, k, stale);
        if e.i == 2 {
          if k < m {
            GrantsStay(s, run, k, m, 2);
            assert false;
          }
          AlwaysBorn(s, run, m, k, 2);
        }
      }
    }
  }

  /** In this state of this run of an accepted proxy the identity has been granted more permits in one second than its
      limit, although no request is granted one at an age beyond `bound` and no time of last use is stored more than
      `stale` late. */
  ghost predicate Exceeds(s: Settings, run: Run, k: nat, id: Identity, from: int, bound: nat, stale: nat) {
    && Accepted(s) && IsRun(s, run) && Paced.PromptGrants(run, bound) && PromptStores(run, stale) && k < |run.states|
    && |Paced.InSecond(run.states[k], id, from)| > Paced.Limit(s, id)
  }

  lemma TwoInSecond(p: Proxy, first: int)
    requires Twice(p, first) && first > Paced.GRANT_AGE
    ensures |Paced.InSecond(p, BOT, first)| >= 2
  {
    var both := Paced.InSecond(p, BOT, first);
    assert (1, 0) in both && (2, 0) in both;
    SubsetSize({(1, 0), (2, 0)}, both);
  }

  /** An identity can exceed its pace, over its client objects, if and only if the age at which requests may be granted
      a permit and the staleness of the times of last use may make up more than `GRANT_AGE`. */
  lemma PaceExceededIff(bound: nat, stale: nat)
    ensures (exists s, run, k, id, from :: Exceeds(s, run, k, id, from, bound, stale))
            <==> bound + stale > Paced.GRANT_AGE
  {
    hide IsRun, Paced.PromptGrants, PromptStores, Paced.InSecond, Accepted, Twice, Opens;
    if bound + stale > Paced.GRANT_AGE {
      var run, m := TwoGrants(bound, stale);
      StartedWith(run, stale);
      GrantsArePrompt(bound, stale, run, m);
      TwoInSecond(Last(run), stale + bound);
      assert Exceeds(Demo(bound, 1), run, |run.events|, BOT, stale + bound, bound, stale);
    } else if exists s, run, k, id, from :: Exceeds(s, run, k, id, from, bound, stale) {
      var s, run, k, id, from :| Exceeds(s, run, k, id, from, bound, stale);
      Paced.IdentityPacedAlways(s, run, k, id, from, bound, stale);
      assert false;
    }
  }
}
