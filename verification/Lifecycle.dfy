/** Any number of `JoinCluster` calls racing with `Close`.

A join claims the cluster slot under the lock, creates a memberlist and joins it without the lock, and installs it
under the lock unless the proxy was closed meanwhile; whatever it does not install it shuts down itself. Close first
cancels the proxy, then waits for a join in progress, takes the installed memberlist and shuts it down. The context is
cancelled without the lock, so it can happen between a join's check and its store. A memberlist is named by the join
that created it.
 */
module Lifecycle {
  import opened Base

  datatype JoinPC =
    | Idle
    | Claiming              // holds the lock, has found the proxy open and the slot free
    | Creating
    | Joining               // has created its memberlist
    | Storing               // holds the lock, has found the proxy open
    | Failing(made: bool)   // deferred cleanup, with or without a memberlist to shut down
    | Unlocking             // deferred cleanup, about to give up the slot
    | Installed
    | Rejected

  datatype ClosePC = Open | Waiting | Took(cluster: Option<nat>) | Closed

  datatype State = State(
    cancelled: bool, lock: Option<nat>, joining: bool, joinDone: Option<nat>, cluster: Option<nat>,
    joins: map<nat, JoinPC>, closer: ClosePC,
    created: set<nat>, shutdowns: multiset<nat>)

  const INITIAL: State := State(false, None, false, None, None, map[], Open, {}, multiset{})

  datatype Event =
    | Enter(j: nat)                // lock, check the context and the slot
    | Claim(j: nat)                // take the slot, unlock
    | Create(j: nat, ok: bool)
    | Abandon(j: nat)              // wrong certificate, known members unreachable or too many members
    | Recheck(j: nat)              // lock, check the context again
    | Store(j: nat)                // install, free the slot, unlock
    | Shutdown(j: nat)
    | Release(j: nat)              // lock, free the slot, unlock
    | Cancel
    | Take                         // lock, no join in progress: take the cluster
    | ShutdownTaken

  function Pc(s: State, j: nat): JoinPC {
    if j in s.joins then s.joins[j] else Idle
  }

  predicate Enabled(s: State, e: Event) {
    match e
    case Enter(j) => Pc(s, j) == Idle && s.lock.None?
    case Claim(j) => Pc(s, j) == Claiming
    case Create(j, _) => Pc(s, j) == Creating
    case Abandon(j) => Pc(s, j) == Joining
    case Recheck(j) => Pc(s, j) == Joining && s.lock.None?
    case Store(j) => Pc(s, j) == Storing
    case Shutdown(j) => Pc(s, j).Failing?
    case Release(j) => Pc(s, j) == Unlocking && s.lock.None?
    case Cancel => s.closer == Open
    case Take => s.closer == Waiting && s.lock.None? && s.joinDone.None?
    case ShutdownTaken => s.closer.Took?
  }

  function At(s: State, j: nat, pc: JoinPC): State {
    s.(joins := s.joins[j := pc])
  }

  function Next(s: State, e: Event): State {
    match e
    case Enter(j) =>
      if s.cancelled || s.cluster.Some? || s.joining then At(s, j, Rejected)
      else At(s, j, Claiming).(lock := Some(j))
    case Claim(j) => At(s, j, Creating).(joining := true, joinDone := Some(j), lock := None)
    case Create(j, ok) =>
      if ok then At(s, j, Joining).(created := s.created + {j}) else At(s, j, Failing(false))
    case Abandon(j) => At(s, j, Failing(true))
    case Recheck(j) => if s.cancelled then At(s, j, Failing(true)) else At(s, j, Storing).(lock := Some(j))
    case Store(j) =>
      At(s, j, Installed).(cluster := Some(j), joining := false, joinDone := None, lock := None)
    case Shutdown(j) =>
      At(s, j, Unlocking).(shutdowns := if Pc(s, j) == Failing(true) then s.shutdowns + multiset{j} else s.shutdowns)
    case Release(j) =>
      if s.joinDone == Some(j) then At(s, j, Rejected).(joining := false, joinDone := None) else At(s, j, Rejected)
    case Cancel => s.(cancelled := true, closer := Waiting)
    case Take => s.(closer := Took(s.cluster), cluster := None)
    case ShutdownTaken =>
      s.(closer := Closed,
         shutdowns := if s.closer.Took? && s.closer.cluster.Some? then s.shutdowns + multiset{s.closer.cluster.value}
                      else s.shutdowns)
  }

  // ----- invariant -----

  /** The join is between claiming the slot and giving it up. */
  predicate InProgress(pc: JoinPC) {
    pc.Creating? || pc.Joining? || pc.Storing? || pc.Failing? || pc.Unlocking?
  }

  /** The join alone is responsible for the memberlist it created. */
  predicate Responsible(pc: JoinPC) {
    pc.Joining? || pc.Storing? || pc == Failing(true)
  }

  ghost predicate LocksExact(s: State) {
    forall j: nat :: s.lock == Some(j) <==> Pc(s, j) == Claiming || Pc(s, j) == Storing
  }

  ghost predicate SlotExact(s: State) {
    && (s.joining <==> s.joinDone.Some?)
    && forall j: nat :: s.joinDone == Some(j) <==> InProgress(Pc(s, j))
  }

  /** A claim is made only while the slot is free. */
  ghost predicate ClaimFree(s: State) {
    (exists j: nat :: Pc(s, j) == Claiming) ==> s.joinDone.None? && s.cluster.None?
  }

  ghost predicate CloserOk(s: State) {
    && (s.cancelled <==> s.closer != Open)
    && (s.closer.Took? || s.closer.Closed? ==>
          s.joinDone.None? && s.cluster.None? && forall j: nat :: Pc(s, j) != Claiming)
  }

  /** Who will shut the memberlist down: its join, the proxy's slot, or Close. */
  ghost predicate Owned(s: State, j: nat) {
    Responsible(Pc(s, j)) || s.cluster == Some(j) || s.closer == Took(Some(j))
  }

  ghost predicate OwnersExact(s: State) {
    && (s.cluster.Some? ==> s.joinDone.None?)
    && (forall j: nat :: j in s.created ==> s.shutdowns[j] == if Owned(s, j) then 0 else 1)
    && (forall j: nat :: j !in s.created ==> s.shutdowns[j] == 0 && !Owned(s, j))
    && (forall j: nat :: s.cluster == Some(j) || s.closer == Took(Some(j)) ==> Pc(s, j) == Installed)
    && (forall j: nat :: Pc(s, j) == Creating || Pc(s, j) == Idle || Pc(s, j) == Claiming ==> j !in s.created)
  }

  ghost predicate Inv(s: State) {
    LocksExact(s) && SlotExact(s) && ClaimFree(s) && CloserOk(s) && OwnersExact(s)
  }

  lemma NextPc(s: State, e: Event, j: nat)
    requires Enabled(s, e)
    ensures e.Cancel? || e.Take? || e.ShutdownTaken? || e.j != j ==> Pc(Next(s, e), j) == Pc(s, j)
  {
  }

  lemma KeepsLocks(s: State, e: Event)
    requires Inv(s) && Enabled(s, e)
    ensures LocksExact(Next(s, e))
  {
    forall j: nat
      ensures Next(s, e).lock == Some(j) <==> Pc(Next(s, e), j) == Claiming || Pc(Next(s, e), j) == Storing
    {
      NextPc(s, e, j);
    }
  }

  lemma KeepsSlot(s: State, e: Event)
    requires Inv(s) && Enabled(s, e)
    ensures SlotExact(Next(s, e))
  {
    forall j: nat
      ensures Next(s, e).joinDone == Some(j) <==> InProgress(Pc(Next(s, e), j))
    {
      NextPc(s, e, j);
    }
  }

  lemma KeepsClaimFree(s: State, e: Event)
    requires Inv(s) && Enabled(s, e)
    ensures ClaimFree(Next(s, e))
  {
    var n := Next(s, e);
    forall j: nat | Pc(n, j) == Claiming
      ensures n.joinDone.None? && n.cluster.None?
    {
      NextPc(s, e, j);
    }
  }

  lemma KeepsCloser(s: State, e: Event)
    requires Inv(s) && Enabled(s, e)
    ensures CloserOk(Next(s, e))
  {
    var n := Next(s, e);
    if n.closer.Took? || n.closer.Closed? {
      forall j: nat
        ensures Pc(n, j) != Claiming
      {
        NextPc(s, e, j);
        assert s.lock == Some(j) <==> Pc(s, j) == Claiming || Pc(s, j) == Storing;
        assert s.joinDone == Some(j) <==> InProgress(Pc(s, j));
      }
    }
  }

  lemma KeepsShutdown(s: State, e: Event, j: nat)
    requires Inv(s) && Enabled(s, e)
    ensures var n := Next(s, e);
            && (j in n.created ==> n.shutdowns[j] == if Owned(n, j) then 0 else 1)
            && (j !in n.created ==> n.shutdowns[j] == 0 && !Owned(n, j))
  {
    hide LocksExact, ClaimFree;
    NextPc(s, e, j);
    assert s.joinDone == Some(j) <==> InProgress(Pc(s, j));
  }

  lemma KeepsInstalled(s: State, e: Event, j: nat)
    requires Inv(s) && Enabled(s, e)
    ensures var n := Next(s, e);
            && (n.cluster == Some(j) || n.closer == Took(Some(j)) ==> Pc(n, j) == Installed)
            && (Pc(n, j) == Creating || Pc(n, j) == Idle || Pc(n, j) == Claiming ==> j !in n.created)
  {
    hide LocksExact, ClaimFree;
    NextPc(s, e, j);
    assert s.joinDone == Some(j) <==> InProgress(Pc(s, j));
  }

  lemma KeepsOwners(s: State, e: Event)
    requires Inv(s) && Enabled(s, e)
    ensures OwnersExact(Next(s, e))
  {
    hide Owned, LocksExact;
    forall j: nat {
      KeepsShutdown(s, e, j);
    }
    forall j: nat {
      KeepsInstalled(s, e, j);
    }
  }

  lemma NextOk(s: State, e: Event)
    requires Inv(s) && Enabled(s, e)
    ensures Inv(Next(s, e))
  {
    KeepsLocks(s, e);
    KeepsSlot(s, e);
    KeepsClaimFree(s, e);
    KeepsCloser(s, e);
    KeepsOwners(s, e);
  }

  ghost predicate IsRun(states: seq<State>, events: seq<Event>) {
    && |states| == |events| + 1 && states[0] == INITIAL
    && forall k :: 0 <= k < |events| ==> Enabled(states[k], events[k]) && states[k + 1] == Next(states[k], events[k])
  }

  lemma {:induction false} Always(states: seq<State>, events: seq<Event>, k: nat)
    requires IsRun(states, events) && k < |states|
    ensures Inv(states[k])
  {
    if k > 0 {
      Always(states, events, k - 1);
      NextOk(states[k - 1], events[k - 1]);
    }
  }

  /** In every run no memberlist is shut down twice; at every moment one that is still up is owned by exactly one party
      that will shut it down; and when Close is done, no join is in progress and every memberlist ever created has been
      shut down exactly once. */
  lemma EveryMemberlistShutDown(states: seq<State>, events: seq<Event>, k: nat)
    requires IsRun(states, events) && k < |states|
    ensures forall j: nat :: states[k].shutdowns[j] <= 1
    ensures forall j: nat :: j in states[k].created && states[k].shutdowns[j] == 0 ==> Owned(states[k], j)
    ensures states[k].closer.Closed? ==>
              && (forall j: nat :: j in states[k].created ==> states[k].shutdowns[j] == 1)
              && (forall j: nat :: !InProgress(Pc(states[k], j)))
  {
    Always(states, events, k);
    var s := states[k];
    if s.closer.Closed? {
      forall j: nat
        ensures !InProgress(Pc(s, j))
        ensures j in s.created ==> s.shutdowns[j] == 1
      {
        assert s.joinDone == Some(j) <==> InProgress(Pc(s, j));
      }
    }
  }

  /** Nothing is installed once Close has taken the cluster. */
  lemma NothingInstalledAfterTake(states: seq<State>, events: seq<Event>, k: nat)
    requires IsRun(states, events) && k < |events|
    requires states[k].closer.Took? || states[k].closer.Closed?
    ensures !events[k].Store? && !events[k].Create? && states[k + 1].cluster.None?
  {
    Always(states, events, k);
  }

  // ----- a join is not turned away without reason -----

  /** In every run, a join is turned away at once exactly when the proxy is closing, has a cluster, or another join is
      in progress. */
  lemma TurnedAwayIff(states: seq<State>, events: seq<Event>, k: nat)
    requires IsRun(states, events) && k < |events| && events[k].Enter?
    ensures Pc(states[k + 1], events[k].j) == Rejected <==>
              || states[k].closer != Open || states[k].cluster.Some?
              || exists i: nat :: InProgress(Pc(states[k], i))
  {
    Always(states, events, k);
    var s := states[k];
    if s.joinDone.Some? {
      assert InProgress(Pc(s, s.joinDone.value));
    }
  }

  /** From every state in which the proxy is open, has no cluster, and no join is in progress or at the lock, the steps
      of a join that nothing goes wrong with are possible one after the other, and they install its memberlist. */
  lemma JoinInstalls(s: State, j: nat)
    requires Inv(s) && s.closer == Open && s.cluster.None? && s.joinDone.None? && s.lock.None? && Pc(s, j) == Idle
    ensures var entered := Next(s, Enter(j));
            var claimed := Next(entered, Claim(j));
            var created := Next(claimed, Create(j, true));
            var checked := Next(created, Recheck(j));
            var stored := Next(checked, Store(j));
            && Enabled(s, Enter(j)) && Enabled(entered, Claim(j)) && Enabled(claimed, Create(j, true))
            && Enabled(created, Recheck(j)) && Enabled(checked, Store(j))
            && stored.cluster == Some(j) && Pc(stored, j) == Installed && j in stored.created
            && stored.lock.None? && stored.joinDone.None?
  {
  }

  // ----- Close is not kept waiting for ever -----

  /** Steps that a join in progress has left at most. */
  function Rank(pc: JoinPC): nat {
    match pc
    case Idle => 8
    case Claiming => 7
    case Creating => 6
    case Joining => 5
    case Storing => 4
    case Failing(_) => 3
    case Unlocking => 2
    case Installed => 0
    case Rejected => 0
  }

  lemma JoinStepsCountDown(s: State, e: Event)
    requires Enabled(s, e) && !(e.Cancel? || e.Take? || e.ShutdownTaken?)
    ensures Rank(Pc(Next(s, e), e.j)) < Rank(Pc(s, e.j))
  {
  }

  /** While Close waits, the lock's holder can step, or the join in progress can step, or Close itself can. */
  lemma CloseCanProceed(s: State) returns (e: Event)
    requires Inv(s) && (s.closer == Waiting || s.closer.Took?)
    ensures Enabled(s, e)
    ensures e.Take? || e.ShutdownTaken? || (!e.Cancel? && !e.Enter? && (s.lock == Some(e.j) || s.joinDone == Some(e.j)))
  {
    if s.closer.Took? {
      e := ShutdownTaken;
    } else if s.lock.Some? {
      var j := s.lock.value;
      assert Pc(s, j) == Claiming || Pc(s, j) == Storing;
      e := if Pc(s, j) == Claiming then Claim(j) else Store(j);
    } else if s.joinDone.Some? {
      var j := s.joinDone.value;
      assert InProgress(Pc(s, j));
      match Pc(s, j)
      case Creating => e := Create(j, true);
      case Joining => e := Recheck(j);
      case Failing(_) => e := Shutdown(j);
      case Unlocking => e := Release(j);
      case Storing => e := Store(j);
    } else {
      e := Take;
    }
  }
}
