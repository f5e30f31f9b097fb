/** One client (`clientState`) and all requests that go through it, as a state machine.

A step is one section that the source runs under a lock, or one atomic load or store. Requests interleave freely
between steps. The program counter of a request follows `acquireBucket` and `scheduledTransport.RoundTrip`: look the
route up, queue for its bucket, look the route up again, validate the credential, wait out cooldowns, pace, send,
observe the response, learn the bucket, release, and either finish or start over.
 */
module Protocol {
  import opened Base
  import opened GateTable
  import opened ClientMaps
  import FifoGate
  import RateLimit
  import Pacer

  /** Go's zero time: a bucket that was never blocked has been ready ever since. */
  const ZERO_TIME: int := -62135596800 * SECOND

  datatype Validity = Unknown | Valid | Invalid

  /** `hash` stands for CRC-64; nothing is assumed about it. */
  datatype Config = Config(queueTimeout: int, upstreamTimeout: int, disable401Lock: bool, hash: string -> Key)

  /** A bucket object, apart from its gate, which lives in the gate table. */
  datatype Bucket = Bucket(readyAt: int, active: int)

  /** What a request does once it has let go of its bucket. */
  datatype Next = Migrate(target: nat) | Again | Finish

  /** Where a request stands while it owns a bucket, in program order. */
  datatype Stage =
    | Fresh                                   // the second lookup confirmed the bucket
    | ValEnter                                // queues for the validation gate
    | ValAcquired                             // has it, context not yet checked
    | ValRecheck                              // about to load the validity again
    | ValDrop(ok: bool)                       // about to give the validation gate back
    | ValidityGate                            // about to turn an invalid credential away
    | LoopTop                                 // top of the attempt loop
    | WaitCtx                                 // bucket wait: about to check the deadline
    | WaitRead                                // bucket wait: about to read the cooldown
    | WaitEval(seen: int)                     // bucket wait: compares the cooldown read with the clock
    | PaceEnter                               // queues for the pacer gate
    | PaceAcquired                            // has it, context not yet checked
    | PaceLoop                                // pacer: about to check the deadline
    | PaceTry                                 // pacer: about to look at the schedule
    | PaceDrop(ok: bool)                      // about to give the pacer gate back
    | Ready                                   // may send
    | InFlight                                // the attempt is with Discord
    | Got(response: RateLimit.Response)       // response headers arrived
    | Marked(plan: RateLimit.Plan)            // a 401 was recorded
    | GlobalDone(plan: RateLimit.Plan)        // a global cooldown was recorded
    | BucketDone(plan: RateLimit.Plan)        // a bucket cooldown was recorded
    | Learned(plan: RateLimit.Plan, seenBucket: nat)    // learnBucket returned this bucket
    | ValStored(plan: RateLimit.Plan, seenBucket: nat)  // the validator published the verdict
    | Decided(plan: RateLimit.Plan, seenBucket: nat)    // retry or return
    | Exiting                                 // leaves with an error or a synthetic response

  datatype PC =
    | Admitted                         // inside ServeHTTP, before RoundTrip
    | Start                            // acquireBucket: about to look the route up
    | Resolved(b: nat)                 // has a bucket pointer
    | Entering(b: nat)                 // counted as active, queues for the bucket gate
    | Acquired(b: nat)                 // has the gate, context not yet checked
    | Rechecking(b: nat)               // about to look the route up again
    | Own(b: nat, stage: Stage)        // acquireBucket returned
    | Uncounting(b: nat, next: Next)   // release: about to leave the active count
    | Unlocking(b: nat, next: Next)    // release: about to give the gate back
    | AbortRelease(b: nat)             // cancelled acquire: about to give the gate back
    | AbortCount(b: nat)               // failed acquire: about to leave the active count
    | Finished                         // RoundTrip returned

  /** What a request is about. `began` is a history variable: when it was admitted. */
  datatype Spec = Spec(route: Key, major: string, interaction: bool, began: int)

  /** `start` and `deadline` come from the queue context, `attempts` is the loop counter of the attempts, and `lastSent`
      is when the request last sent, which is when the context of that attempt began. The rest are history variables:
      `checked` is when the request last passed a deadline check, `observed` when it last took note of a response,
      `notBefore` is the earliest instant its next attempt is due, and `viaGlobal` tells whether the pacer or the bucket
      enforces that. */
  datatype Timing = Timing(
    start: int, deadline: int, checked: int, attempts: nat, lastSent: int, observed: int, notBefore: int,
    viaGlobal: bool)

  datatype Request = Request(spec: Spec, pc: PC, validating: bool, t: Timing)

  /** `ending` lists, for the requests that have left the active count and have yet to renew the time of last use, when
      they left.
      `cooldown` is a history variable: for each route the latest instant until which a response to that very route
      blocked its bucket. */
  datatype Client = Client(
    anonymous: bool,
    maps: Maps<nat>,
    pool: seq<Bucket>,
    table: Table,
    reqs: map<RequestId, Request>,
    validity: Validity,
    pacer: Pacer.Pacer,
    active: int,
    ending: seq<int>,
    lastUsed: int,
    cooldown: map<Key, int>)

  function NewClient(anonymous: bool, limit: nat, maxWaiters: nat, now: int): Client {
    Client(anonymous, Empty(), [],
           Table(map[ValidationGate := FifoGate.Free(), PacerGate := FifoGate.Free()], map[], map[], maxWaiters),
           map[], if anonymous then Valid else Unknown, Pacer.New(limit, ZERO_TIME), 0, [], now, map[])
  }

  function At(q: Request, b: nat, stage: Stage): Request {
    q.(pc := Own(b, stage))
  }

  // ----- which gate a program point takes, holds or gives back -----

  function Wants(q: Request): Option<GateId> {
    match q.pc
    case Entering(b) => Some(BucketGate(b))
    case Own(_, ValEnter) => Some(ValidationGate)
    case Own(_, PaceEnter) => Some(PacerGate)
    case _ => None
  }

  function OnGot(q: Request): Request {
    match q.pc
    case Entering(b) => q.(pc := Acquired(b))
    case Own(b, ValEnter) => At(q, b, ValAcquired)
    case Own(b, PaceEnter) => At(q, b, PaceAcquired)
    case _ => q
  }

  /** A full queue or a cancellation. */
  function OnFail(q: Request): Request {
    match q.pc
    case Entering(b) => q.(pc := AbortCount(b))
    case Own(b, ValEnter) => At(q, b, Exiting)
    case Own(b, PaceEnter) => At(q, b, Exiting)
    case _ => q
  }

  function Drops(q: Request): Option<GateId> {
    match q.pc
    case AbortRelease(b) => Some(BucketGate(b))
    case Unlocking(b, _) => Some(BucketGate(b))
    case Own(_, ValDrop(_)) => Some(ValidationGate)
    case Own(_, ValStored(_, _)) => Some(ValidationGate)
    case Own(_, PaceDrop(_)) => Some(PacerGate)
    case Own(_, Exiting) => if q.validating then Some(ValidationGate) else None
    case _ => None
  }

  function AfterDrop(q: Request): Request {
    match q.pc
    case AbortRelease(b) => q.(pc := AbortCount(b))
    case Unlocking(_, Migrate(t)) => q.(pc := Resolved(t))
    case Unlocking(_, Again) => q.(pc := Start)
    case Unlocking(_, Finish) => q.(pc := Finished)
    case Own(b, ValDrop(ok)) => At(q, b, if ok then ValidityGate else Exiting)
    case Own(b, PaceDrop(ok)) => At(q, b, if ok then Ready else Exiting)
    case Own(b, ValStored(plan, t)) => At(q, b, Decided(plan, t)).(validating := false)
    case Own(_, Exiting) => q.(validating := false)
    case _ => q
  }

  function HeldBucket(pc: PC): Option<nat> {
    match pc
    case Acquired(b) => Some(b)
    case Rechecking(b) => Some(b)
    case Own(b, _) => Some(b)
    case Uncounting(b, _) => Some(b)
    case Unlocking(b, _) => Some(b)
    case AbortRelease(b) => Some(b)
    case _ => None
  }

  predicate HoldsValidation(q: Request) {
    q.validating || (q.pc.Own? && (q.pc.stage.ValAcquired? || q.pc.stage.ValRecheck? || q.pc.stage.ValDrop?))
  }

  predicate HoldsPacer(pc: PC) {
    pc.Own? && (pc.stage.PaceAcquired? || pc.stage.PaceLoop? || pc.stage.PaceTry? || pc.stage.PaceDrop?)
  }

  /** The gates a request has taken, read off its program counter. */
  function HoldsOf(q: Request): set<GateId> {
    (if HeldBucket(q.pc).Some? then {BucketGate(HeldBucket(q.pc).value)} else {}) +
    (if HoldsValidation(q) then {ValidationGate} else {}) +
    (if HoldsPacer(q.pc) then {PacerGate} else {})
  }

  /** The bucket whose active count includes this request. */
  function CountsOn(q: Request): Option<nat> {
    match q.pc
    case Entering(b) => Some(b)
    case Acquired(b) => Some(b)
    case Rechecking(b) => Some(b)
    case Own(b, _) => Some(b)
    case Uncounting(b, _) => Some(b)
    case AbortRelease(b) => Some(b)
    case AbortCount(b) => Some(b)
    case _ => None
  }

  /** Between the confirming lookup and the request's own learnBucket. */
  predicate InWindow(q: Request) {
    q.pc.Own? && match q.pc.stage
                 case Learned(_, _) => false
                 case ValStored(_, _) => false
                 case Decided(_, _) => false
                 case Exiting => false
                 case _ => true
  }

  predicate Sending(q: Request) {
    q.pc.Own? && q.pc.stage.InFlight?
  }

  // ----- labels -----

  /** What happens next. Choices the environment makes (a cancellation, a response, whether the shared budget has
      room, a clock reading taken earlier) are part of the label, so each label determines the next state. */
  datatype Label =
    | Begin(r: RequestId, route: Key, major: string, interaction: bool, at: int)
    | Open(r: RequestId, deadline: int)
    | Local(r: RequestId, pc: PC)
    | Enter(r: RequestId)
    | Wake(r: RequestId)
    | Cancel(r: RequestId)
    | Drop(r: RequestId)
    | Look(r: RequestId, granted: bool)
    | Count(r: RequestId)
    | Uncount(r: RequestId)
    | Pace(r: RequestId)
    | Send(r: RequestId)
    | Mark(r: RequestId)
    | BlockGlobal(r: RequestId, at: int)
    | BlockBucket(r: RequestId, at: int)
    | Learn(r: RequestId, granted: bool)
    | Verdict(r: RequestId)
    | End(r: RequestId)
    | Touch(x: nat, at: int)
    | Sweep(at: int, unused: set<nat>)

  /** `knownRateLimit`: the longer of the bucket's and, for ordinary requests, the pacer's cooldown. */
  function KnownDelay(c: Client, q: Request, b: nat, now: int): int
    requires b < |c.pool|
  {
    Max(Max(0, c.pool[b].readyAt - now), if q.spec.interaction then 0 else Pacer.RetryAfter(c.pacer, now))
  }

  /** `retryWouldExceedDeadline`. */
  predicate TooLate(cfg: Config, q: Request, delay: int, now: int) {
    delay > 0 && delay + cfg.upstreamTimeout >= q.t.deadline - now
  }

  /** The contexts of the attempt and of the queue are not over. */
  predicate InTime(cfg: Config, q: Request, now: int) {
    now < q.t.deadline && now < q.t.lastSent + cfg.upstreamTimeout
  }

  /** Steps of a request at stage `s` of bucket `b` which change nothing but the request itself. */
  predicate StageStep(cfg: Config, c: Client, now: int, q: Request, b: nat, s: Stage, n: PC)
    requires b < |c.pool|
  {
    match s
    case Fresh => n == Own(b, if !q.spec.interaction && c.validity == Unknown then ValEnter else ValidityGate)
    case ValAcquired => n == Own(b, ValRecheck) || n == Own(b, ValDrop(false))
    case ValRecheck => n == Own(b, if c.validity != Unknown then ValDrop(true) else ValidityGate)
    case ValidityGate => n == Own(b, Exiting) || (c.validity != Invalid && n == Own(b, LoopTop))
    case LoopTop =>
      n == Own(b, Exiting) || (!TooLate(cfg, q, KnownDelay(c, q, b, now), now) && n == Own(b, WaitCtx))
    case WaitCtx => n == Own(b, Exiting) || (now < q.t.deadline && n == Own(b, WaitRead))
    case WaitRead => n == Own(b, WaitEval(c.pool[b].readyAt))
    case WaitEval(seen) =>
      || n == Own(b, Exiting)
      || (seen > now && !TooLate(cfg, q, seen - now, now) && n == Own(b, WaitCtx))
      || (seen <= now && n == Own(b, if q.spec.interaction then Ready else PaceEnter))
    case PaceAcquired => n == Own(b, PaceLoop) || n == Own(b, PaceDrop(false))
    case PaceLoop => n == Own(b, PaceDrop(false)) || (now < q.t.deadline && n == Own(b, PaceTry))
    case PaceTry =>
      || n == Own(b, PaceDrop(false))
      || (&& !Pacer.CanGrant(c.pacer, now) && !TooLate(cfg, q, c.pacer.blockedUntil - now, now)
          && n == Own(b, PaceLoop))
    case Ready => n == Own(b, Exiting)
    case InFlight => n == Own(b, Exiting) || (InTime(cfg, q, now) && n.Own? && n.b == b && n.stage.Got?)
    case Learned(plan, t) => !q.validating && n == Own(b, Decided(plan, t))
    case Decided(plan, t) =>
      || n == Uncounting(b, Finish)
      || (plan.limited && n == Own(b, Exiting))
      || (plan.limited && t < |c.pool| && !TooLate(cfg, q, KnownDelay(c, q, t, now), now) && n == Uncounting(b, Again))
    case Exiting => !q.validating && n == Uncounting(b, Finish)
    case _ => false
  }

  predicate LocalStep(cfg: Config, c: Client, now: int, q: Request, n: PC) {
    match q.pc
    case Admitted => n == Finished
    case Acquired(b) => n == Rechecking(b) || n == AbortRelease(b)
    case Own(b, s) => b < |c.pool| && StageStep(cfg, c, now, q, b, s, n)
    case _ => false
  }

  /** A request that finds the validity still unknown once it has the validation gate becomes the validator. */
  function LocalNext(q: Request, n: PC, now: int): Request {
    var becomes := q.pc.Own? && q.pc.stage.ValRecheck? && n.Own? && n.stage.ValidityGate?;
    var checks := q.pc.Own? && n.Own? && (n.stage.WaitRead? || n.stage.PaceTry? || n.stage.Got?);
    Request(q.spec, n, q.validating || becomes, if checks then q.t.(checked := now) else q.t)
  }

  predicate AtStage(c: Client, r: RequestId) {
    r in c.reqs && c.reqs[r].pc.Own? && c.reqs[r].pc.b < |c.pool|
  }

  ghost predicate Enabled(cfg: Config, c: Client, now: int, l: Label) {
    match l
    case Begin(r, _, _, _, at) => r !in c.reqs && r !in c.table.agents && at <= now
    case Open(r, deadline) => r in c.reqs && c.reqs[r].pc.Admitted? && deadline <= now + cfg.queueTimeout
    case Local(r, n) => r in c.reqs && LocalStep(cfg, c, now, c.reqs[r], n)
    case Enter(r) =>
      r in c.reqs && r in c.table.agents && Wants(c.reqs[r]).Some? && Wants(c.reqs[r]).value in c.table.gates
      && c.table.agents[r].wait == NotWaiting
    case Wake(r) =>
      r in c.reqs && r in c.table.agents && Wants(c.reqs[r]).Some?
      && c.table.agents[r].wait == Granted(Wants(c.reqs[r]).value)
    case Cancel(r) =>
      r in c.reqs && r in c.table.agents && Wants(c.reqs[r]).Some? && Wants(c.reqs[r]).value in c.table.gates
      && c.table.agents[r].wait == Queued(Wants(c.reqs[r]).value)
    case Drop(r) =>
      r in c.reqs && r in c.table.agents && Drops(c.reqs[r]).Some? && Drops(c.reqs[r]).value in c.table.gates
    case Look(r, _) => r in c.reqs && (c.reqs[r].pc.Start? || c.reqs[r].pc.Rechecking?)
    case Count(r) => r in c.reqs && c.reqs[r].pc.Resolved? && c.reqs[r].pc.b < |c.pool|
    case Uncount(r) =>
      r in c.reqs && (c.reqs[r].pc.Uncounting? || c.reqs[r].pc.AbortCount?) && c.reqs[r].pc.b < |c.pool|
    case Pace(r) => AtStage(c, r) && c.reqs[r].pc.stage.PaceTry? && Pacer.CanGrant(c.pacer, now)
    case Send(r) => AtStage(c, r) && c.reqs[r].pc.stage.Ready?
    case Mark(r) => AtStage(c, r) && c.reqs[r].pc.stage.Got?
    case BlockGlobal(r, at) => AtStage(c, r) && c.reqs[r].pc.stage.Marked? && c.reqs[r].t.observed <= at <= now
    case BlockBucket(r, at) => AtStage(c, r) && c.reqs[r].pc.stage.GlobalDone? && c.reqs[r].t.observed <= at <= now
    case Learn(r, _) => AtStage(c, r) && c.reqs[r].pc.stage.BucketDone?
    case Verdict(r) => AtStage(c, r) && c.reqs[r].pc.stage.Learned? && c.reqs[r].validating
    case End(r) => r in c.reqs && c.reqs[r].pc.Finished?
    case Touch(x, at) => x < |c.ending| && c.ending[x] <= at <= now
    case Sweep(at, _) => at <= now
  }

  // ----- effects -----

  function WithReq(c: Client, r: RequestId, n: Request): Client {
    c.(reqs := c.reqs[r := n])
  }

  /** `begin`; `at` is the clock reading that it stores as the time of last use. */
  function DoBegin(c: Client, r: RequestId, route: Key, major: string, interaction: bool, at: int, now: int): Client {
    c.(reqs := c.reqs[r := Request(Spec(route, major, interaction, now), Admitted, false,
                                Timing(now, now, now, 0, now, now, now, false))],
       table := AddAgent(c.table, r),
       active := c.active + 1, lastUsed := at)
  }

  function Opened(q: Request, deadline: int, now: int): Request {
    q.(pc := Start, t := q.t.(start := now, deadline := deadline))
  }

  /** The first half of `end`. */
  function DoEnd(c: Client, r: RequestId, now: int): Client {
    c.(reqs := c.reqs - {r}, table := RemoveAgent(c.table, r), active := c.active - 1, ending := c.ending + [now])
  }

  /** The second half of `end`: a clock reading taken since the first half is stored, however much later. */
  function DoTouch(c: Client, x: nat, at: int): Client
    requires x < |c.ending|
  {
    c.(ending := c.ending[..x] + c.ending[x + 1..], lastUsed := at)
  }

  function DoEnter(c: Client, r: RequestId): Client
    requires r in c.reqs && r in c.table.agents && Wants(c.reqs[r]).Some? && Wants(c.reqs[r]).value in c.table.gates
  {
    var q := c.reqs[r];
    var g := Wants(q).value;
    var n := match Entry(c.table, r, g)
             case Got => OnGot(q)
             case Queued => q
             case Full => OnFail(q);
    WithReq(c, r, n).(table := GateTable.Enter(c.table, r, g))
  }

  /** The bucket a route resolves to once `bucket` has returned: an existing one, a new one if the budget grants a
      slot, or none. */
  function LookTarget(c: Client, route: Key, granted: bool): Option<nat> {
    if Resolve(c.maps, route).Some? then Resolve(c.maps, route)
    else if granted then Some(|c.pool|)
    else None
  }

  predicate LookCreates(c: Client, route: Key, granted: bool) {
    Resolve(c.maps, route).None? && granted
  }

  /** A retry goes straight to the top of the attempt loop; the credential is validated before the first attempt only.
      */
  function AfterLook(q: Request, target: Option<nat>): Request {
    match q.pc
    case Start => q.(pc := if target.Some? then Resolved(target.value) else Finished)
    case Rechecking(b) =>
      if target.None? then q.(pc := Uncounting(b, Finish))
      else if target.value == b then At(q, b, if q.t.attempts == 0 then Fresh else LoopTop)
      else q.(pc := Uncounting(b, Migrate(target.value)))
    case _ => q
  }

  function Made(c: Client, route: Key): Client {
    c.(pool := c.pool + [Bucket(ZERO_TIME, 0)],
       maps := Create(c.maps, route, |c.pool|),
       table := AddGate(c.table, BucketGate(|c.pool|)))
  }

  function DoLook(c: Client, r: RequestId, granted: bool): Client
    requires r in c.reqs
  {
    var q := c.reqs[r];
    var d := if LookCreates(c, q.spec.route, granted) then Made(c, q.spec.route) else c;
    WithReq(d, r, AfterLook(q, LookTarget(c, q.spec.route, granted)))
  }

  function DoCount(c: Client, r: RequestId): Client
    requires r in c.reqs && c.reqs[r].pc.Resolved? && c.reqs[r].pc.b < |c.pool|
  {
    var b := c.reqs[r].pc.b;
    WithReq(c, r, c.reqs[r].(pc := Entering(b)))
      .(pool := c.pool[b := c.pool[b].(active := c.pool[b].active + 1)])
  }

  function DoUncount(c: Client, r: RequestId): Client
    requires r in c.reqs && (c.reqs[r].pc.Uncounting? || c.reqs[r].pc.AbortCount?) && c.reqs[r].pc.b < |c.pool|
  {
    var q := c.reqs[r];
    var b := q.pc.b;
    var was := c.pool[b];
    WithReq(c, r, q.(pc := if q.pc.AbortCount? then Finished else Unlocking(b, q.pc.next)))
      .(pool := c.pool[b := was.(active := was.active - 1)])
  }

  function DoSend(c: Client, r: RequestId, now: int): Client
    requires AtStage(c, r)
  {
    var q := c.reqs[r];
    WithReq(c, r, At(q, q.pc.b, InFlight).(t := q.t.(attempts := q.t.attempts + 1, lastSent := now)))
  }

  function DoMark(cfg: Config, c: Client, r: RequestId, now: int): Client
    requires AtStage(c, r) && c.reqs[r].pc.stage.Got?
  {
    var q := c.reqs[r];
    var response := q.pc.stage.response;
    WithReq(c, r, At(q, q.pc.b, Marked(RateLimit.Observe(response, q.spec.interaction, now)))
                    .(t := q.t.(observed := now)))
      .(validity := if response.status == 401 && !q.spec.interaction && !c.anonymous && !cfg.disable401Lock
                    then Invalid else c.validity)
  }

  function DoBlockGlobal(c: Client, r: RequestId, at: int): Client
    requires AtStage(c, r) && c.reqs[r].pc.stage.Marked?
  {
    var q := c.reqs[r];
    var plan := q.pc.stage.plan;
    var n := At(q, q.pc.b, GlobalDone(plan));
    if plan.global.None? then WithReq(c, r, n)
    else WithReq(c, r, if q.spec.interaction then n
                       else n.(t := n.t.(notBefore := at + RateLimit.MINIMUM_RETRY_DELAY, viaGlobal := true)))
           .(pacer := Pacer.BlockFor(c.pacer, at, plan.global.value))
  }

  function Blocked(b: Bucket, until: int): Bucket {
    b.(readyAt := Max(b.readyAt, until))
  }

  function DoBlockBucket(c: Client, r: RequestId, at: int): Client
    requires AtStage(c, r) && c.reqs[r].pc.stage.GlobalDone?
  {
    var q := c.reqs[r];
    var b := q.pc.b;
    var plan := q.pc.stage.plan;
    var n := At(q, b, BucketDone(plan));
    if plan.bucket.None? then WithReq(c, r, n)
    else
      var until := at + plan.bucket.value;
      WithReq(c, r,
              if plan.limited then n.(t := n.t.(notBefore := at + RateLimit.MINIMUM_RETRY_DELAY, viaGlobal := false))
              else n)
        .(pool := c.pool[b := Blocked(c.pool[b], until)],
          cooldown := c.cooldown[q.spec.route :=
            if q.spec.route in c.cooldown then Max(c.cooldown[q.spec.route], until) else until])
  }

  function Canonical(cfg: Config, q: Request): Key
    requires q.pc.Own? && q.pc.stage.BucketDone?
  {
    cfg.hash(q.pc.stage.plan.name + "\0" + q.spec.major)
  }

  /** learnBucket does nothing without a bucket name, or when the budget refuses the slots it needs. */
  predicate LearnApplies(cfg: Config, c: Client, q: Request, granted: bool)
    requires q.pc.Own? && q.pc.stage.BucketDone?
  {
    q.pc.stage.plan.name != "" && (Net(c.maps, q.spec.route, Canonical(cfg, q), q.pc.b) <= 0 || granted)
  }

  function DoLearn(cfg: Config, c: Client, r: RequestId, granted: bool): Client
    requires AtStage(c, r) && c.reqs[r].pc.stage.BucketDone?
  {
    var q := c.reqs[r];
    var b := q.pc.b;
    var plan := q.pc.stage.plan;
    if !LearnApplies(cfg, c, q, granted) then WithReq(c, r, At(q, b, Learned(plan, b)))
    else
      var k := Canonical(cfg, q);
      var t := LearnTarget(c.maps, k, b);
      var merged := if t != b && t < |c.pool| then c.pool[t := Blocked(c.pool[t], c.pool[b].readyAt)] else c.pool;
      WithReq(c, r, At(q, b, Learned(plan, t))).(maps := ClientMaps.Learn(c.maps, q.spec.route, k, b), pool := merged)
  }

  function DoVerdict(cfg: Config, c: Client, r: RequestId): Client
    requires AtStage(c, r) && c.reqs[r].pc.stage.Learned?
  {
    var q := c.reqs[r];
    var plan := q.pc.stage.plan;
    WithReq(c, r, At(q, q.pc.b, ValStored(plan, q.pc.stage.seenBucket)))
      .(validity := if plan.unauthorized && !cfg.disable401Lock then Invalid else Valid)
  }

  predicate BucketIdle(b: Bucket, at: int) {
    !(b.readyAt > at) && b.active == 0
  }

  /** What a sweep drops: the buckets that are neither blocked nor in use, among those that read as unused for a while.
      Which ones do is up to the environment. */
  function IdleBuckets(pool: seq<Bucket>, at: int, unused: set<nat>): set<nat> {
    set b: nat | b < |pool| && b in unused && BucketIdle(pool[b], at)
  }

  function DoSweep(c: Client, at: int, unused: set<nat>): Client {
    c.(maps := Swept(c.maps, IdleBuckets(c.pool, at, unused)))
  }

  function Apply(cfg: Config, c: Client, now: int, l: Label): Client
    requires Enabled(cfg, c, now, l)
  {
    match l
    case Begin(r, route, major, interaction, at) => DoBegin(c, r, route, major, interaction, at, now)
    case Open(r, deadline) => WithReq(c, r, Opened(c.reqs[r], deadline, now))
    case Local(r, n) => WithReq(c, r, LocalNext(c.reqs[r], n, now))
    case Enter(r) => DoEnter(c, r)
    case Wake(r) => WithReq(c, r, OnGot(c.reqs[r])).(table := GateTable.Wake(c.table, r, Wants(c.reqs[r]).value))
    case Cancel(r) => WithReq(c, r, OnFail(c.reqs[r])).(table := GateTable.Cancel(c.table, r, Wants(c.reqs[r]).value))
    case Drop(r) => WithReq(c, r, AfterDrop(c.reqs[r])).(table := Release(c.table, r, Drops(c.reqs[r]).value))
    case Look(r, granted) => DoLook(c, r, granted)
    case Count(r) => DoCount(c, r)
    case Uncount(r) => DoUncount(c, r)
    case Pace(r) =>
      WithReq(c, r, At(c.reqs[r], c.reqs[r].pc.b, PaceDrop(true))).(pacer := Pacer.Grant(c.pacer, now))
    case Send(r) => DoSend(c, r, now)
    case Mark(r) => DoMark(cfg, c, r, now)
    case BlockGlobal(r, at) => DoBlockGlobal(c, r, at)
    case BlockBucket(r, at) => DoBlockBucket(c, r, at)
    case Learn(r, granted) => DoLearn(cfg, c, r, granted)
    case Verdict(r) => DoVerdict(cfg, c, r)
    case End(r) => DoEnd(c, r, now)
    case Touch(x, at) => DoTouch(c, x, at)
    case Sweep(at, unused) => DoSweep(c, at, unused)
  }
}
