/** How a sweep tests one bucket: it reads the cooldown, the active count and the time of last use one after the other,
    while requests come and go.

The client's machine lets a sweep drop, in one step, a bucket that is not in use and not blocked. That is right if what
the three reads conclude was true of the bucket when the count was read. A cooldown that arrives after the first read
has to be betrayed by the time of last use, which may be stored late, and also by a request that never gets the gate.
 */
module SweepReads {
  import opened Base
  import Protocol

  /** What a sweep has read so far: nothing, that the bucket is not blocked, that no request is active. `ready` is a
      history variable: the end of the bucket's cooldown when the count was read. */
  datatype Seen = Unread | Unblocked | Inactive(ready: int) | Idle(ready: int) | Busy

  /** A sweep holds the client's lock from its first read to its verdict. `at` is the time that it goes by. */
  datatype Sweeper = Away | Testing(at: int, seen: Seen)

  /** One bucket. `entering` have raised the active count and have yet to store the time; `waiting` have stored it and
      have yet to get the gate and confirm the bucket, or to give up before or after they have the gate; `owners` have
      confirmed it; `leaving` have stored the time again and have yet to lower the count. */
  datatype State = State(
    now: int, readyAt: int, active: int, lastUsed: int,
    entering: nat, waiting: nat, owners: nat, leaving: nat, sweeper: Sweeper)

  datatype Event =
    | Tick(later: int)
    | Enter
    | Store(at: int)
    | Confirm
    | GiveUp
    | Withdraw(at: int)
    | Block(until: int)
    | Merge(until: int)
    | Release(at: int)
    | Lower
    | Start(at: int)
    | Read

  predicate Possible(s: State, e: Event) {
    match e
    case Tick(later) => s.now <= later
    case Enter => true
    case Store(at) => s.entering > 0 && at <= s.now
    case Confirm => s.waiting > 0 && s.sweeper == Away
    case GiveUp => s.waiting > 0
    case Withdraw(at) => s.waiting > 0 && at <= s.now
    case Block(until) => s.owners > 0
    case Merge(until) => s.sweeper == Away
    case Release(at) => s.owners > 0 && at <= s.now
    case Lower => s.leaving > 0
    case Start(at) => s.sweeper == Away && at <= s.now
    case Read => s.sweeper.Testing?
  }

  function Look(s: State, at: int, seen: Seen): Sweeper {
    match seen
    case Unread => Testing(at, if s.readyAt > at then Busy else Unblocked)
    case Unblocked => Testing(at, if s.active == 0 then Inactive(s.readyAt) else Busy)
    case Inactive(ready) => Testing(at, if at - s.lastUsed > IDLE_TIMEOUT then Idle(ready) else Busy)
    case _ => Away
  }

  function After(s: State, e: Event): State
    requires Possible(s, e)
  {
    match e
    case Tick(later) => s.(now := later)
    case Enter => s.(active := s.active + 1, entering := s.entering + 1)
    case Store(at) => s.(lastUsed := at, entering := s.entering - 1, waiting := s.waiting + 1)
    case Confirm => s.(waiting := s.waiting - 1, owners := s.owners + 1)
    case GiveUp => s.(active := s.active - 1, waiting := s.waiting - 1)
    case Withdraw(at) => s.(lastUsed := at, waiting := s.waiting - 1, leaving := s.leaving + 1)
    case Block(until) => s.(readyAt := Max(s.readyAt, until))
    case Merge(until) => s.(readyAt := Max(s.readyAt, until))
    case Release(at) => s.(lastUsed := at, owners := s.owners - 1, leaving := s.leaving + 1)
    case Lower => s.(active := s.active - 1, leaving := s.leaving - 1)
    case Start(at) => s.(sweeper := Testing(at, Unread))
    case Read => s.(sweeper := Look(s, s.sweeper.at, s.sweeper.seen))
  }

  /** If the event stores the time of last use, the clock was read at most `stale` ago. */
  predicate Fresh(s: State, e: Event, stale: nat) {
    e.Store? || e.Withdraw? || e.Release? ==> s.now - e.at <= stale
  }

  /** A new bucket. */
  function Initial(now: int): State {
    State(now, Protocol.ZERO_TIME, 0, now, 0, 0, 0, 0, Away)
  }

  /** The states of the bucket over these events, whose times of last use are stored at most `stale` late. */
  ghost predicate IsRun(states: seq<State>, events: seq<Event>, stale: nat) {
    && |states| == |events| + 1 && states[0] == Initial(states[0].now)
    && forall k :: 0 <= k < |events| ==> Follows(states[k], events[k], states[k + 1], stale)
  }

  predicate Follows(s: State, e: Event, t: State, stale: nat) {
    Possible(s, e) && Fresh(s, e, stale) && t == After(s, e)
  }

  // ----- a verdict is right -----

  ghost predicate Inv(s: State) {
    && s.active == s.entering + s.waiting + s.owners + s.leaving
    && (s.sweeper.Testing? ==>
          var at, recent := s.sweeper.at, s.sweeper.at - s.lastUsed <= IDLE_TIMEOUT;
          && at <= s.now
          && (s.sweeper.seen.Unblocked? ==> s.readyAt <= at || s.owners > 0 || recent)
          && (s.sweeper.seen.Inactive? ==>
                s.owners == 0 && s.sweeper.seen.ready == s.readyAt && (s.readyAt <= at || recent))
          && (s.sweeper.seen.Idle? ==> s.owners == 0 && s.sweeper.seen.ready == s.readyAt <= at))
  }

  lemma EventInv(s: State, e: Event, stale: nat)
    requires Inv(s) && Possible(s, e) && Fresh(s, e, stale) && stale <= IDLE_TIMEOUT
    ensures Inv(After(s, e))
  {
  }

  lemma {:induction false} AlwaysInv(states: seq<State>, events: seq<Event>, stale: nat, k: nat)
    requires IsRun(states, events, stale) && stale <= IDLE_TIMEOUT && k < |states|
    ensures Inv(states[k])
  {
    hide Inv, Possible, After, Fresh;
    if k == 0 {
      InitialInv(states[0].now);
    } else {
      AlwaysInv(states, events, stale, k - 1);
      assert Follows(states[k - 1], events[k - 1], states[k], stale);
      EventInv(states[k - 1], events[k - 1], stale);
    }
  }

  lemma InitialInv(now: int)
    ensures Inv(Initial(now))
  {
  }

  /** The verdict is that the bucket is idle. */
  predicate FoundIdle(s: State) {
    s.sweeper.Testing? && s.sweeper.seen.Idle?
  }

  /** As long as no time is stored more than the idle timeout late: when a bucket is found idle, nobody has confirmed
      it, its cooldown is over, and that was so when its active count was read to be zero. At that instant the bucket
      met the condition under which the client's machine lets a sweep drop it. */
  lemma IdleIsRight(states: seq<State>, events: seq<Event>, stale: nat, k: nat)
    requires IsRun(states, events, stale) && stale <= IDLE_TIMEOUT && k < |states| && FoundIdle(states[k])
    ensures states[k].owners == 0 && states[k].sweeper.seen.ready == states[k].readyAt
    ensures Protocol.BucketIdle(Protocol.Bucket(states[k].readyAt, 0), states[k].sweeper.at)
  {
    hide IsRun;
    AlwaysInv(states, events, stale, k);
  }

  // ----- the exact condition -----

  /** A bucket is found idle although it is blocked. */
  predicate Wrong(s: State) {
    FoundIdle(s) && s.readyAt > s.sweeper.at
  }

  ghost predicate Comes(states: seq<State>, events: seq<Event>, stale: nat, last: State) {
    IsRun(states, events, stale) && states[|events|] == last
  }

  lemma Next(states: seq<State>, events: seq<Event>, stale: nat, s: State, e: Event)
    returns (more: seq<State>, done: seq<Event>, t: State)
    requires Comes(states, events, stale, s) && Possible(s, e) && Fresh(s, e, stale)
    ensures t == After(s, e) && Comes(more, done, stale, t)
  {
    hide Possible, After, Fresh;
    t := After(s, e);
    more, done := states + [t], events + [e];
    forall k | 0 <= k < |done|
      ensures Follows(more[k], done[k], more[k + 1], stale)
    {
      if k < |events| {
        assert Follows(states[k], events[k], states[k + 1], stale);
      }
    }
  }

  lemma Beginning(stale: nat) returns (states: seq<State>, events: seq<Event>)
    ensures Comes(states, events, stale, State(0, Protocol.ZERO_TIME, 0, 0, 0, 0, 0, 0, Away))
  {
    states, events := [Initial(0)], [];
  }

  lemma OneOwner(stale: nat) returns (states: seq<State>, events: seq<Event>)
    ensures Comes(states, events, stale, State(0, Protocol.ZERO_TIME, 1, 0, 0, 0, 1, 0, Away))
  {
    hide Comes;
    states, events := Beginning(stale);
    var s := State(0, Protocol.ZERO_TIME, 0, 0, 0, 0, 0, 0, Away);
    states, events, s := Next(states, events, stale, s, Enter);
    states, events, s := Next(states, events, stale, s, Store(0));
    states, events, s := Next(states, events, stale, s, Confirm);
  }

  /** A request owns the bucket and another has entered it; time has passed and a sweep finds no cooldown. */
  lemma Opening(stale: nat) returns (states: seq<State>, events: seq<Event>)
    ensures Comes(states, events, stale,
                  State(stale, Protocol.ZERO_TIME, 2, 0, 1, 0, 1, 0, Testing(stale, Unblocked)))
  {
    hide Comes;
    states, events := OneOwner(stale);
    var s := State(0, Protocol.ZERO_TIME, 1, 0, 0, 0, 1, 0, Away);
    states, events, s := Next(states, events, stale, s, Enter);
    states, events, s := Next(states, events, stale, s, Tick(stale));
    states, events, s := Next(states, events, stale, s, Start(stale));
    states, events := FirstRead(states, events, stale);
  }

  lemma FirstRead(states: seq<State>, events: seq<Event>, stale: nat) returns (more: seq<State>, done: seq<Event>)
    requires Comes(states, events, stale, State(stale, Protocol.ZERO_TIME, 2, 0, 1, 0, 1, 0, Testing(stale, Unread)))
    ensures Comes(more, done, stale, State(stale, Protocol.ZERO_TIME, 2, 0, 1, 0, 1, 0, Testing(stale, Unblocked)))
  {
    hide Comes;
    var s;
    more, done, s := Next(states, events, stale,
                          State(stale, Protocol.ZERO_TIME, 2, 0, 1, 0, 1, 0, Testing(stale, Unread)), Read);
  }

  /** The owner is told of a cooldown and leaves; the other stores an old time and gives up. */
  lemma LateStoreMisleads(stale: nat) returns (states: seq<State>, events: seq<Event>)
    requires stale > IDLE_TIMEOUT
    ensures IsRun(states, events, stale) && |events| < |states| && Wrong(states[|events|])
  {
    hide Comes;
    states, events := Opening(stale);
    var s := State(stale, Protocol.ZERO_TIME, 2, 0, 1, 0, 1, 0, Testing(stale, Unblocked));
    states, events, s := Next(states, events, stale, s, Block(stale + 1));
    states, events, s := Next(states, events, stale, s, Release(stale));
    states, events, s := Next(states, events, stale, s, Lower);
    states, events, s := Next(states, events, stale, s, Store(0));
    states, events, s := Next(states, events, stale, s, GiveUp);
    states, events, s := Next(states, events, stale, s, Read);
    states, events, s := Next(states, events, stale, s, Read);
    Came(states, events, stale, s);
  }

  lemma Came(states: seq<State>, events: seq<Event>, stale: nat, last: State)
    requires Comes(states, events, stale, last)
    ensures IsRun(states, events, stale) && |events| < |states| && states[|events|] == last
  {
  }

  ghost predicate Misled(states: seq<State>, events: seq<Event>, stale: nat, k: nat) {
    IsRun(states, events, stale) && k < |states| && Wrong(states[k])
  }

  /** A sweep can find a blocked bucket idle if and only if a time of last use may be stored more than the idle timeout
      late. */
  lemma MisledIff(stale: nat)
    ensures (exists states, events, k :: Misled(states, events, stale, k)) <==> stale > IDLE_TIMEOUT
  {
    hide IsRun;
    if stale > IDLE_TIMEOUT {
      var states, events := LateStoreMisleads(stale);
      assert Misled(states, events, stale, |events|);
    } else if exists states, events, k :: Misled(states, events, stale, k) {
      var states, events, k :| Misled(states, events, stale, k);
      IdleIsRight(states, events, stale, k);
      assert false;
    }
  }
}
