# Verified model of the nirn-proxy scheduler

nirn-proxy stands between Discord bots and Discord's HTTP API. It queues requests so that no rate limit is violated:
one request at a time per bucket, an even pace per credential, cooldowns after 429 responses, and bounded memory for
all of it. This project models that machinery in Dafny and proves what it promises, for every run.

The core is a state machine. A step is one lock-protected section of the source, and the steps of all requests of all
clients interleave freely. What the environment decides (cancellations, responses, clock readings, whether the shared
budget has room) is part of a step's label. On this machine:

| module | content |
|---|---|
| `FifoGate`, `GateTable` | the FIFO gate, as a value, as an object, and as a table of all gates of a client |
| `RateLimit`, `Pacer` | what a response's headers ask for; the global pacer |
| `Budget`, `ClientMaps`, `ClientState` | the shared slot budget, the bucket and alias maps, the client object |
| `Protocol`, `Structure` | the steps of a request through `RoundTrip`, and their structural invariant |
| `SingleFlight`, `Deadlock`, `Credential`, `Cooldown`, `Retry`, `Aliases` | one property each, kept by every step |
| `ProxyMachine`, `ProxyInvariant`, `Theorems` | all clients together: admission, eviction read by read, close; what holds in every run |
| `Lockout`, `Permits`, `Announced` | what an invalid credential means to requests; what is sent on which permit; that nothing is held back or turned away without reason |
| `GlobalCooldown`, `IdentityPacing`, `Punctuality` | what holds for an identity across all its client objects, and for which queue timeouts |
| `SweepReads` | the separate reads of a sweep, against requests that come and go |
| `Scenario`, `Collisions`, `Orphaning`, `LateBlock`, `LateGrant` | runs that show where a hypothesis is needed, and that it is exact |
| `Admission` | admission and eviction on objects |
| `InvalidGuard`, `InvalidResponses` | the rolling-window guard on invalid requests, alone and beside the protocol |
| `Replay` | capture and replay of request bodies |
| `Cluster`, `Forwarding`, `Lifecycle` | rendezvous routing, forwarding between nodes, joining against closing |
| `Routes` | bucket paths and major parameters |

History variables, such as the latest cooldown per route, are fields that no step reads; they let a property speak of
the past.

## Where the code does less than it seems to promise

* **Hash collisions.** Route hashes and hashes of Discord's bucket names share one key space. If a route's hash equals
  the hash of a name, learning can drop the entry that another route is aliased to, and with it a running cooldown.
  `Cooldown.LearnGuardsIff` states exactly which learning steps do, and `Orphaning.OrphanLosesCooldown` that each of them
  has a continuation which sends the route too early. `Collisions` has runs from the start of the proxy in which a
  cooldown is lost and in which one request is retried without pause and without bound. The theorems on cooldowns, pauses
  and the number of retries hold for all runs without such a step (`Theorems.NoOrphans`); single flight holds without any
  assumption on hashes.
* **The idle test is not atomic.** `clientState.idle` reads the cooldown before the count of active requests, `end`
  lowers the count before it renews the time of last use, and `touch` stores the time some while after it has read the
  clock, so that an old reading may overwrite a new one. If a request raises the global cooldown and ends during the
  test, and the time of last use reads as more than ten minutes ago, a client under a fresh cooldown is evicted.
  `LateBlock.CooldownLostIff` shows that a global cooldown can be lost if and only if the age at which requests may raise
  it and the staleness of the stored times may add up to more than ten minutes. `Punctuality` bounds that age by
  `QUEUE_TIMEOUT` plus the delays between the steps of one request, so it takes a queue timeout of about ten minutes, or
  a goroutine that stalls for as long; the default is one minute. The pace of an identity rests on the same reads, with
  an exact condition of its own (`LateGrant.PaceExceededIff`). Cooldowns of routes are not affected, because buckets are
  read last.
* **Nor is the test of a bucket in a sweep.** It is right if and only if no time of last use is stored more than ten
  minutes after the clock was read (`SweepReads.MisledIff`). A request that fails to get the bucket's gate can also
  store such a time. The theorems on cooldowns of routes suppose that this does not happen.
* **Replay after a failed close.** If closing the temporary file fails, asking the capture once more yields an empty
  body as if it were complete (`Replay.FailedCloseLosesBody`). `RoundTrip` gives up after the first error and does not
  ask again; `Replay.ObedientRetriesAreExact` shows that then every retry sends exactly the body.
* **A lone reset header.** `X-RateLimit-Reset` counts only next to another rate-limit header. A 429 that carries nothing else
  is retried after the minimum delay, however far away the reset is (`RateLimit.ForHowLong`).
* **Normalising paths.** The bucket path and the major parameter take a path apart by different code.
  `Routes.NormalisersAgree` lists exactly the paths on which they differ.
* **Guild callbacks.** A guild path of four segments that ends in `callback` gets an interaction's bucket path; the
  model keeps this (`Routes.IsCallback`).

## Model

| member | source | states |
|---|---|---|
| `FifoGate.EveryRunIsFifo` | internal/proxy/scheduler.go:96-166 | after any sequence of arrivals, cancellations and releases, the permits granted so far followed by the queue are exactly the tickets that were not cancelled, in arrival order, and the queue is within its bound |
| `FifoGate.GrantsFollowArrivals` | internal/proxy/scheduler.go:113-166 | grants go out in arrival order; nobody is granted before an earlier arrival that neither was granted nor gave up; every arrival is granted, waiting or cancelled |
| `FifoGate.NextArrival` | internal/proxy/scheduler.go:113-131 | after every run, the next arrival is admitted at once exactly when the gate is free, and turned away exactly when it is taken and the earlier arrivals that were neither granted nor cancelled are as many as the queue may hold |
| `FifoGate.StandingWithdraw` | internal/proxy/scheduler.go:133-151 | a cancellation takes one waiter out of the order and moves no other |
| `FifoGate.ArriveKeepsFifo` | internal/proxy/scheduler.go:113-131 | an arrival keeps the order, whether it is admitted at once, queued or turned away |
| `FifoGate.WithdrawKeepsFifo` | internal/proxy/scheduler.go:141-151 | a cancellation keeps the order, also when it comes too late and finds its waiter granted |
| `FifoGate.PassOnKeepsFifo` | internal/proxy/scheduler.go:154-166 | a release hands the permit to the longest waiting arrival or frees the gate |
| `FifoGate.FifoGate.TryAcquire` | internal/proxy/scheduler.go:113-131 | the first half of acquire: the gate is taken at once exactly when it is free, the caller is turned away exactly when it is not and the queue is full, and joins the end of the queue otherwise |
| `FifoGate.FifoGate.CancelWaiter` | internal/proxy/scheduler.go:141-151 | the cancellation half of acquire: the waiter is removed exactly when it still waits, and the gate stays held |
| `FifoGate.FifoGate.Release` | internal/proxy/scheduler.go:154-166 | the permit goes to the head of the queue without the gate becoming free; without waiters the gate becomes free |
| `GateTable.HeldIffOneOwner` | internal/proxy/scheduler.go:96-166 | over all gates and requests together: a gate is held if and only if some request owns its permit, then exactly one does, and nobody queues at a free gate |
| `GateTable.EnterKeeps` | internal/proxy/scheduler.go:113-131 | entering a gate keeps queues, owners and the requests' own records in step |
| `GateTable.WakeKeeps` | internal/proxy/scheduler.go:133-140 | a waiter that notices its grant keeps them in step |
| `GateTable.CancelKeeps` | internal/proxy/scheduler.go:141-151 | a waiter that gives up keeps them in step |
| `GateTable.ReleaseKeeps` | internal/proxy/scheduler.go:154-166 | handing a permit over, or freeing the gate, keeps them in step |
| `RateLimit.EveryRateLimitDelaysRetry` | internal/proxy/ratelimit.go:267-307 | whatever the headers say or fail to say, a 429 blocks the bucket or the pacer long enough to delay its own retry |
| `RateLimit.WhoIsBlocked` | internal/proxy/ratelimit.go:267-307 | for every response: the pacer is blocked exactly by a global 429; the bucket exactly by a 429 that is not global or answers an interaction, and by any other response exactly when well-formed headers that are not global say that nothing remains; the bucket name and the 401 are taken over as they are |
| `RateLimit.ForHowLong` | internal/proxy/ratelimit.go:209-307 | for every response, for exactly how long: the time asked for in whole nanoseconds plus the slack, at least the minimum after a 429, and the minimum where headers are missing or malformed |
| `RateLimit.ParsesWellFormed` | internal/proxy/ratelimit.go:209-262 | headers are accepted exactly when the count is a count and the one header that says how long to wait says so |
| `RateLimit.DelayMatchesHeaders` | internal/proxy/ratelimit.go:209-307 | for headers that parse, the delay put on a bucket is what the headers ask for, read off Retry-After, Reset-After and Reset directly: never shorter after a 429, short by less than a nanosecond otherwise, and longer by no more than the minimum retry delay |
| `RateLimit.DelaysAreBounded` | internal/proxy/ratelimit.go:209-307 | no header can cause a negative delay or one beyond the cap plus slack |
| `RateLimit.ToDurationBounds` | internal/proxy/ratelimit.go:226-262 | seconds become nanoseconds by truncation below the cap, and never leave the range of a duration |
| `RateLimit.AskedBounds` | internal/proxy/ratelimit.go:226-262 | the parsed reset delay is the requested one, truncated to a nanosecond and never negative |
| `Pacer.IntervalCoversSecond` | internal/proxy/ratelimit.go:100-111 | the interval times the limit is at least a second, for every limit including the default for zero |
| `Pacer.IntervalIsTight` | internal/proxy/ratelimit.go:100-111 | and it is at most half a percent more than the second divided by the limit, rounded up; no limit means fifty |
| `Pacer.EveryRunIsPaced` | internal/proxy/ratelimit.go:100-186 | whatever the grants and cooldowns, no second, wherever it starts, contains more grants than the limit |
| `Pacer.CooldownHolds` | internal/proxy/ratelimit.go:128-186 | in every run of a pacer, no grant comes before an earlier cooldown is over |
| `Pacer.LetThroughIff` | internal/proxy/ratelimit.go:122-186 | after every sequence of waits and cooldowns, a request is let through exactly when every cooldown announced so far is over and every grant so far is an interval ago |
| `Pacer.SteadyIsGranted` | internal/proxy/ratelimit.go:122-142 | a pacer that is asked once every interval lets every request through |
| `Pacer.SteadyFillsSecond` | internal/proxy/ratelimit.go:100-142 | so a second holds the limit of grants, up to the slack and the rounding of the interval |
| `Pacer.WindowBound` | internal/proxy/ratelimit.go:128-142 | the bound per second follows from the spacing of grants |
| `Pacer.Spacing` | internal/proxy/ratelimit.go:128-142 | any two grants are as many intervals apart as there are grants from one to the other |
| `Pacer.PacerState.TryGrant` | internal/proxy/ratelimit.go:128-142 | one round of waitFor: granted exactly when both the schedule and the cooldown allow it |
| `Pacer.PacerState.Block` | internal/proxy/ratelimit.go:174-186 | the cooldown becomes the later of the old one and the new one, which lasts at least the minimum retry delay |
| `Budget.BudgetNeverExceeded` | internal/proxy/proxy.go:104-132 | with any number of goroutines inside the compare-and-swap loop, in any interleaving, the counter equals what was reserved less what was released, and never exceeds the limit |
| `Budget.RefusedOnlyWhenFull` | internal/proxy/proxy.go:113-126 | in every interleaving a reservation is refused only if at some moment before the counter left no room for it |
| `Budget.SwapIff` | internal/proxy/proxy.go:113-126 | a goroutine that finds the counter as it loaded it gets its reservation exactly when it fits |
| `Budget.ResourceBudget.Reserve` | internal/proxy/proxy.go:113-126 | a reservation succeeds exactly when it fits, and changes nothing otherwise |
| `Budget.ResourceBudget.Release` | internal/proxy/proxy.go:128-132 | a release takes back exactly a positive amount |
| `ClientMaps.LearnSlots` | internal/proxy/scheduler.go:386-430 | for any hashes, the net reservation of learnBucket is the change in the number of map entries |
| `ClientMaps.LearnResolves` | internal/proxy/scheduler.go:386-430 | the learning route ends on the bucket registered under the canonical key |
| `ClientMaps.LearnKeepsOther` | internal/proxy/scheduler.go:386-430 | another route keeps its bucket if and only if learnBucket does not drop the very entry that this other route is aliased to |
| `ClientMaps.LearnKeepsForeign` | internal/proxy/scheduler.go:386-430 | a route on a different bucket is never disturbed, collisions or not |
| `ClientMaps.CollisionLosesBucket` | internal/proxy/scheduler.go:386-430 | whenever learnBucket drops an entry that another route is aliased to, that route is left without any bucket, while the learning route keeps its own |
| `ClientMaps.CreateResolves` | internal/proxy/scheduler.go:333-359 | a new bucket serves its route, disturbs no other route and takes one slot |
| `ClientMaps.SweptResolves` | internal/proxy/scheduler.go:432-453 | a sweep keeps every route whose bucket is in use and never adds entries |
| `ClientMaps.SweptExact` | internal/proxy/scheduler.go:432-453 | a sweep drops exactly the idle buckets, and exactly the aliases without a bucket |
| `ClientMaps.LearnKeepsIntegrity` | internal/proxy/scheduler.go:386-430 | with disjoint hashes, learning keeps every alias on an existing bucket and every aliased route without an entry of its own |
| `ClientMaps.CreateKeepsIntegrity` | internal/proxy/scheduler.go:333-359 | so does creating a bucket |
| `ClientMaps.SweptKeepsIntegrity` | internal/proxy/scheduler.go:432-453 | so does a sweep |
| `ClientMaps.SameAliasSameBucket` | internal/proxy/scheduler.go:333-359 | routes with the same alias resolve to the same bucket object |
| `ClientState.BucketState.BlockUntil` | internal/proxy/scheduler.go:245-253 | a block never shortens one in force |
| `ClientState.BucketState.Merge` | internal/proxy/scheduler.go:255-260 | a merged bucket is blocked as long as the longer of the two |
| `ClientState.ClientState.Bucket` | internal/proxy/scheduler.go:333-359 | an existing bucket is returned untouched; a missing one is made exactly when a slot is left, and then the route resolves to it |
| `ClientState.ClientState.LearnBucket` | internal/proxy/scheduler.go:386-430 | the maps become what the value model says or stay as they were; the budget moves by the change in entries in every case; the bucket returned is blocked at least as long as the one the route came from |
| `ClientState.ClientState.Sweep` | internal/proxy/scheduler.go:432-453 | exactly the idle buckets and the aliases left without a bucket disappear, and each gives one slot back |
| `ClientState.ClientState.Clear` | internal/proxy/scheduler.go:455-461 | every entry gives its slot back |
| `ClientState.ClientState.Idle` | internal/proxy/scheduler.go:463-475 | true exactly when no request is active, nothing is blocked and the client was unused for the idle timeout |
| `Structure.StepKeeps` | internal/proxy/transport.go:98-304 | every step of every request keeps program counters, gate queues, owners, bucket pointers and active counters consistent |
| `Structure.MoveFrame` | internal/proxy/transport.go:98-304 | a step of one request changes no other request, and only lookups and learning change the maps |
| `SingleFlight.StepKeeps` | internal/proxy/transport.go:98-304 | every step keeps each request's window: between the confirming lookup and its own learning, its route resolves to the bucket whose gate it holds |
| `SingleFlight.LearnWindows` | internal/proxy/scheduler.go:386-430 | learning by one request breaks nobody else's window, whatever the hashes |
| `SingleFlight.SweepWindows` | internal/proxy/scheduler.go:432-453 | a sweep removes no bucket that a request is using |
| `SingleFlight.NoSharedFlight` | internal/proxy/scheduler.go:361-384 | two requests in their windows differ in route, bucket and canonical key |
| `Deadlock.WantsInOrder` | internal/proxy/transport.go:116-196 | gates are taken in the order bucket, validation, pacer, and a request that queues for a bucket holds nothing |
| `Deadlock.WaitClimbs` | internal/proxy/scheduler.go:113-152 | a request that waits for another has a lower rank |
| `Deadlock.NoCycle` | internal/proxy/scheduler.go:113-152 | chains of waiting requests have at most four members and never close |
| `Deadlock.LeadsToRunnable` | internal/proxy/scheduler.go:113-166 | from every queued request a chain of at most four leads to a request that is not queued |
| `Deadlock.NeverStuck` | internal/proxy/transport.go:98-304 | while there is a request, some step other than an arrival, a sweep or a cancellation is possible |
| `Credential.OneValidatingAttempt` | internal/proxy/transport.go:134-153 | while the validity is unknown, two ordinary attempts in flight are the same attempt |
| `Credential.StepKeeps` | internal/proxy/transport.go:134-252 | every step keeps the validation discipline and changes the validity only in the allowed directions (what the validity does to requests is in `Lockout`) |
| `Credential.MarkOk` | internal/proxy/ratelimit.go:267-307 | recording a response, a 401 in particular, keeps the discipline and moves the validity only in an allowed direction |
| `Credential.VerdictOk` | internal/proxy/transport.go:244-252 | the validator's verdict never overrides a 401 seen meanwhile |
| `Cooldown.StepKeeps` | internal/proxy/transport.go:98-304 | every step that orphans no cooldown keeps each route's cooldown in the bucket the route resolves to, or over |
| `Cooldown.LearnGuardsIff` | internal/proxy/scheduler.go:386-430 | for any hashes: learning keeps every running cooldown in the bucket its route resolves to if and only if it does not drop an entry that another route, still cooling down, is aliased to |
| `Cooldown.SweepGuarded` | internal/proxy/scheduler.go:432-453 | a sweep forgets only cooldowns that are over |
| `Cooldown.SendAfterCooldown` | internal/proxy/transport.go:172-215 | a request is sent only when its route's cooldown is over |
| `Cooldown.CooldownRecorded` | internal/proxy/ratelimit.go:267-307 | a blocking response is recorded for its route and never shortened later |
| `Retry.StepKeeps` | internal/proxy/transport.go:98-304 | every step that orphans no cooldown keeps the account of a request's attempts and of when its next one is due |
| `Retry.AttemptBound` | internal/proxy/transport.go:172-303 | a request makes at most QueueTimeout / 50 ms + 2 attempts |
| `Retry.AttemptsApart` | internal/proxy/transport.go:172-303 | a retry is sent at least 50 ms after the 429 before it was observed |
| `ProxyInvariant.EventKeeps` | internal/proxy/scheduler.go:487-576 | every event of the whole proxy keeps the invariant: clients sound, registry right, slots conserved, caps respected |
| `ProxyInvariant.EventTimed` | internal/proxy/scheduler.go:487-576 | every event that orphans no cooldown keeps every recorded cooldown over or remembered, the eviction included |
| `ProxyInvariant.QuietForgetsNothing` | internal/proxy/scheduler.go:463-475 | a client whose buckets are found quiet has no route cooldown left to forget |
| `ProxyInvariant.ProbeKeeps` | internal/proxy/scheduler.go:463-475 | each separate read of the idle test, and the eviction after the last, keeps the invariant while requests go on |
| `ProxyInvariant.ChargeExact` | internal/proxy/scheduler.go:333-461 | what a step reserves less what it releases is the change in map entries |
| `Theorems.SingleFlightAlways` | internal/proxy/transport.go:98-304 | in every state of every run, two attempts of a client in their windows are on different routes, buckets and canonical keys |
| `Theorems.CooldownNeverLost` | internal/proxy/scheduler.go:386-475 | in every run in which no learning step orphans a cooldown: after a response blocks a route of an identity, no attempt of that identity on that route is sent before the block ends, across learning, merging, sweeping, eviction and re-creation |
| `Theorems.NoDeadlockAlways` | internal/proxy/transport.go:98-304 | in every state of every run, waiting chains are acyclic and short, and while a client has a request the proxy as a whole can take a step of it, with the answer the shared budget gives at that moment |
| `Theorems.SlotsConservedAlways` | internal/proxy/scheduler.go:333-461 | in every run the shared counter is the number of map entries of all clients, within the limit |
| `Theorems.AdmissionAlways` | internal/proxy/scheduler.go:487-544 | in every run both caps hold, and a request runs only on its identity's current client object |
| `Theorems.PacedAlways` | internal/proxy/ratelimit.go:100-186 | in every run no client is granted more global permits in a second than its limit |
| `Theorems.OneValidatorAlways` | internal/proxy/transport.go:134-153 | in every run at most one ordinary attempt is in flight for a credential of unknown validity |
| `Theorems.ValidityMonotone` | internal/proxy/transport.go:244-252 | over any stretch of any run, validity only moves from unknown to valid or invalid, and from valid to invalid |
| `Theorems.AttemptsBoundedAlways` | internal/proxy/transport.go:172-303 | in every run in which no learning step orphans a cooldown, no request makes more than QueueTimeout / 50 ms + 2 attempts |
| `Theorems.RetriesPauseAlways` | internal/proxy/transport.go:172-303 | in every such run, a retry is sent at least 50 ms after the 429 before it was observed |
| `Theorems.DisjointHashesOrphanNothing` | internal/proxy/scheduler.go:386-430 | if no route hash of a run is the hash of a bucket name, no learning step orphans a cooldown |
| `Theorems.AliasesSoundAlways` | internal/proxy/scheduler.go:333-453 | in every run with disjoint hashes, aliases lead to buckets, aliased routes have no entry, equal aliases share a bucket |
| `Theorems.SharedUntilSwept` | internal/proxy/scheduler.go:333-453 | with disjoint hashes, over any stretch of a run in which the client is neither swept nor evicted, routes aliased to one bucket name resolve to one and the same bucket object, whenever they are looked up |
| `Lockout.InvalidSendsNothing` | internal/proxy/transport.go:151-153 | in every run, once a client is invalid, no request that comes to it later is ever sent |
| `Lockout.UnauthorizedLocksOut` | internal/proxy/ratelimit.go:267-270 | in every run, once a client has taken note of a 401 for an ordinary request, no request that comes to it later is ever sent |
| `Lockout.InvalidWasEarned` | internal/proxy/ratelimit.go:267-270 | in every run a client is invalid only after a 401 for an ordinary request of a client that is not anonymous, and only while the lock is not disabled |
| `Permits.EverySendHasItsPermit` | internal/proxy/transport.go:188-215 | in every run an ordinary request is sent only after it was granted a global permit, and on no permit twice |
| `Permits.SendsWithinPermits` | internal/proxy/transport.go:188-215 | in every run no client has sent more ordinary attempts than it was granted global permits |
| `Permits.InteractionsTakeNoPermit` | internal/proxy/transport.go:188-195 | in every run no interaction takes a global permit |
| `Announced.BucketCooldownWasAnnounced` | internal/proxy/ratelimit.go:267-307 | in every run a bucket is held back only until an instant that a response to its client announced earlier, across merges and new buckets |
| `Announced.GlobalCooldownWasAnnounced` | internal/proxy/ratelimit.go:174-186 | in every run the pacer is held back only until an instant that a global 429 announced earlier |
| `Announced.LoopTopIff` | internal/proxy/transport.go:172-177 | a request goes on to wait exactly when the cooldowns that apply to it are over or end the upstream timeout before its deadline |
| `Announced.BucketWaitIff` | internal/proxy/scheduler.go:205-243 | a request in a bucket wait goes on waiting exactly when the cooldown it has read is not over and ends early enough, and is done exactly when it is over |
| `Announced.PacerWaitIff` | internal/proxy/ratelimit.go:122-172 | a request at the pacer is granted a permit exactly when schedule and cooldown allow it, and goes on waiting exactly when they do not and the cooldown ends early enough |
| `Announced.RetryIff` | internal/proxy/transport.go:270-303 | a request starts over exactly after a 429 whose cooldowns end early enough |
| `Announced.TurnedAwayIffFull` | internal/proxy/scheduler.go:113-131 | in every run a request that enters a gate is turned away exactly when the gate is taken and as many requests queue as the configuration allows, and queues exactly when it is taken and there is room |
| `GlobalCooldown.GlobalCooldownNeverLost` | internal/proxy/ratelimit.go:174-186 | in every run in which the age of requests that raise the global cooldown and the staleness of stored times of last use add up to no more than the idle timeout: after a response blocks an identity globally, no request of that identity is granted a global permit before the block ends, although the evictor reads cooldown, active count and time of last use apart and old times may overwrite new ones; no assumption on hashes |
| `GlobalCooldown.EventInv` | internal/proxy/scheduler.go:463-475 | what an evictor may still conclude from the reads it has made, kept by every event whose request is young enough and whose stored time is fresh enough |
| `LateBlock.LateBlockLosesCooldown` | internal/proxy/scheduler.go:319-331 | for every age and staleness that add up to more than the idle timeout, a run of an accepted proxy in which a late store makes a client in use look unused, a request of that age raises the cooldown during the idle test, the client is evicted, and the next request of the bot is granted a permit inside the cooldown |
| `LateBlock.CooldownLostIff` | internal/proxy/scheduler.go:463-475 | for settings that New accepts, a global cooldown can be lost if and only if the age at which requests may raise it and the staleness of stored times of last use may add up to more than the idle timeout |
| `Collisions.CollisionLosesCooldown` | internal/proxy/scheduler.go:386-430 | for settings that New accepts, a run in which a response blocks a route for 50 ms and the route's next attempt is sent at once, because a collision of hashes orphaned the cooldown |
| `Collisions.CollisionsRetryWithoutBound` | internal/proxy/transport.go:172-303 | for every number, a run of an accepted proxy with colliding hashes that sends one request more often than that at a single instant |
| `Collisions.CollisionsBreakTheBound` | internal/proxy/transport.go:172-303 | such a run exceeds the bound on attempts |
| `Orphaning.OrphanLosesCooldown` | internal/proxy/scheduler.go:386-430 | from every state of every run of an open proxy with two free slots and a credential not known to be invalid: a learning step that orphans the cooldown of a route has a continuation that sends a request on the route before the announced end of the cooldown |
| `Orphaning.CooldownWasAnnounced` | internal/proxy/ratelimit.go:267-307 | in every run, every cooldown that a client knows of was announced by a response earlier on |
| `Orphaning.SomeRouteIsOrphaned` | internal/proxy/scheduler.go:386-430 | every step that breaks the hypothesis of `Theorems.CooldownNeverLost` orphans some route in this sense |
| `Aliases.StepKeeps` | internal/proxy/scheduler.go:333-453 | with disjoint hashes, every step keeps every alias on an existing bucket and every aliased route without an entry |
| `Aliases.DisjointSpares` | internal/proxy/scheduler.go:386-430 | with disjoint hashes no step orphans a cooldown |
| `Aliases.CanonicalIff` | internal/proxy/scheduler.go:386-390 | unless the hash collides, requests learn one key exactly when they have one bucket name and one major parameter |
| `Aliases.CanonicalKept` | internal/proxy/scheduler.go:386-453 | with disjoint hashes, only a sweep changes the bucket under the hash of a bucket name |
| `IdentityPacing.IdentityPacedAlways` | internal/proxy/ratelimit.go:100-186 | in every run in which the age of requests that are granted a permit and the staleness of stored times of last use add up to no more than `GRANT_AGE`, a nanosecond above a second less than the idle timeout: no identity is granted more global permits in any second than its limit, over all the client objects it ever had |
| `LateGrant.TwoGrants` | internal/proxy/scheduler.go:463-475 | for every age and staleness, a run of an accepted proxy that evicts a client right after it granted a permit, as soon as its time of last use allows, and grants the next permit by a new client at that instant |
| `LateGrant.PaceExceededIff` | internal/proxy/scheduler.go:463-475 | for settings that New accepts, an identity can exceed its pace over its client objects if and only if age and staleness may add up to more than that |
| `IdentityPacing.EventInv` | internal/proxy/scheduler.go:463-475 | grants of different objects of one identity stay at least a second apart, kept by every event whose request is young enough and whose stored time is fresh enough |
| `Punctuality.AgesBounded` | internal/proxy/transport.go:110-201 | in every run no request raises the global cooldown or is granted a permit at an age beyond the queue timeout plus the delays before its queue context is opened and after the context was last checked |
| `Punctuality.QueueTimeoutKeepsCooldown` | internal/proxy/transport.go:110-201 | no global cooldown is lost in any run whose queue timeout and delays add up to no more than the idle timeout |
| `Punctuality.QueueTimeoutKeepsPace` | internal/proxy/transport.go:110-201 | no identity exceeds its global limit in any run whose queue timeout and delays add up to no more than `GRANT_AGE`, a nanosecond above a second less than the idle timeout |
| `SweepReads.IdleIsRight` | internal/proxy/scheduler.go:262-265 | in every interleaving of the sweep's three reads with requests that enter, confirm, block, release or give up: a bucket found idle has no owner and no running cooldown, and had none when its count was read, unless a time was stored later than the idle timeout |
| `SweepReads.LateStoreMisleads` | internal/proxy/scheduler.go:189-203 | for every such lateness, a run in which a request that gives up stores an old time and the sweep finds a blocked bucket idle |
| `SweepReads.MisledIff` | internal/proxy/scheduler.go:262-265 | a sweep can find a blocked bucket idle if and only if times may be stored that late |
| `Admission.Scan` | internal/proxy/scheduler.go:528-536 | over one group, finds the idle client that was used least recently, or none exactly when none is idle |
| `Admission.Registry.EvictOldestIdle` | internal/proxy/scheduler.go:524-544 | evicts exactly the least recently used idle client of the groups looked at, gives its slots back and touches no other client; fails exactly when none is idle |
| `Admission.Registry.MakeRoom` | internal/proxy/scheduler.go:507-515 | one eviction is always enough for both caps; refuses exactly when the full group has no idle client |
| `Admission.Registry.Client` | internal/proxy/scheduler.go:487-522 | which requests are refused and why; a known client is returned as it is; a new one is registered with both caps kept, at the cost of at most one least recently used idle client |
| `InvalidGuard.WindowBound` | internal/proxy/ratelimit.go:29-79 | in every run, with attempts overlapping and clock readings delayed in any way, no window contains more recorded invalid responses than the limit |
| `InvalidGuard.RefusedIffFull` | internal/proxy/ratelimit.go:49-79 | in every run with readings in order, an attempt is refused exactly when the invalid responses of the past window and the attempts in flight have reached the limit |
| `InvalidGuard.ShareIsGreatest` | config.go:135-138 | a node's share is the greatest that fits as often as there may be nodes |
| `InvalidGuard.PruneDrops` | internal/proxy/ratelimit.go:70-79 | pruning drops the expired prefix and stops at the first live entry |
| `InvalidGuard.PruneExactWhenOrdered` | internal/proxy/ratelimit.go:70-79 | when readings are in order, pruning drops exactly the expired entries |
| `InvalidGuard.ClusterBound` | config.go:135-138 | the nodes' shares together stay within the safety limit in every window |
| `InvalidGuard.InvalidRequestGuard.PruneTo` | internal/proxy/ratelimit.go:70-79 | the loop with its head index and compaction does what the value model says |
| `InvalidGuard.InvalidRequestGuard.Available` | internal/proxy/ratelimit.go:42-47 | true exactly when there is room after pruning |
| `InvalidGuard.InvalidRequestGuard.TryReserve` | internal/proxy/ratelimit.go:49-58 | reserves a place exactly when there is room after pruning |
| `InvalidGuard.InvalidRequestGuard.Finish` | internal/proxy/ratelimit.go:60-68 | gives the place back and records an invalid response |
| `InvalidResponses.InvalidResponsesBounded` | internal/proxy/transport.go:204-233 | in every run of all clients, with the guard asked at every send and answer: no window contains more responses of status 401, 403 or 429 that is not shared than the limit |
| `InvalidResponses.RecordedExactly` | internal/proxy/ratelimit.go:81-86 | in every run the guard has recorded exactly these responses, each with the reading it came with |
| `InvalidResponses.ReservationsAreAttempts` | internal/proxy/transport.go:204-233 | in every run the guard's open reservations are exactly the attempts in flight |
| `InvalidResponses.EventFlight` | internal/proxy/transport.go:215-233 | an attempt is in flight exactly from its send to its answer |
| `Replay.RetriesExactAlways` | internal/proxy/transport.go:480-525 | in every run of any number of requests, a retry of a streamed body sends that body byte for byte if and only if no earlier preparation reported an error |
| `Replay.ObedientRetriesAreExact` | internal/proxy/transport.go:196-275 | in every run of a scheduler that asks for nothing more once it has been told of an error, every retry of a streamed body that is sent sends exactly that body |
| `Replay.FailedWasReported` | internal/proxy/transport.go:508-525 | in every run, a preparation that failed was reported to the scheduler |
| `Replay.FailedCloseLosesBody` | internal/proxy/transport.go:419-437 | for every body beyond the memory limit: a run in which closing the temporary file fails, and a further call hands out an empty body as if complete |
| `Replay.CaptureBudgetAlways` | internal/proxy/transport.go:346-443 | in every run the shared counter is the sum of the reservations, within the budget; what a request holds of its body, in the buffer, in the copy that retries send and on disk, is covered by its reservation and its limit, and in memory by the memory limit; all is free once all requests are closed |
| `Replay.HeldIsReserved` | internal/proxy/transport.go:360-437 | the same of one request, sealed or not |
| `Replay.ReadOk` | internal/proxy/transport.go:346-395 | a read keeps the copy equal to what was read, and gives it up if and only if limit, budget or file leave no room |
| `Replay.RetryBody` | internal/proxy/transport.go:480-506 | what a later attempt sends, for bodies that are absent, reproducible or streamed |
| `Replay.PrepareReady` | internal/proxy/transport.go:508-525 | a streamed body can be replayed if and only if it was read to its end, its copy was kept and its file, if any, closes |
| `Replay.ReadyIsSent` | internal/proxy/transport.go:480-506 | a streamed body that is ready is sent byte for byte, unless its file cannot be reopened, which is reported |
| `Replay.SentAgainIff` | internal/proxy/transport.go:480-525 | one that is not ready yet is sent exactly when it was read to its end, its copy was kept and its file, if any, closes and reopens |
| `Replay.OpenOk` | internal/proxy/transport.go:454-478 | a new replayer reserves its declared length or nothing and starts out sound |
| `Replay.OpenIff` | internal/proxy/transport.go:454-478 | a body is refused exactly when it is streamed, its declared length is within the limit of one request and the budget has no room; what is reserved, and when the copy is given up at once |
| `Replay.CloseTwice` | internal/proxy/transport.go:527-533 | closing again gives nothing back |
| `Replay.CaptureBody.Read` | internal/proxy/transport.go:346-358 | the object's Read does what the value model says and keeps the copy sound |
| `Replay.CaptureBody.CaptureLocked` | internal/proxy/transport.go:360-395 | so does captureLocked, branch by branch |
| `Replay.CaptureBody.DiscardLocked` | internal/proxy/transport.go:397-417 | giving the copy up releases the whole reservation once |
| `Replay.CaptureBody.ReplayCopy` | internal/proxy/transport.go:419-437 | sealing hands the buffer or the file over, or reports that it cannot |
| `Cluster.MixBijective` | internal/proxy/cluster.go:289-294 | the 64-bit mixer has an inverse on both sides, so no two values collide |
| `Cluster.ScoreInjective` | internal/proxy/cluster.go:278-294 | members with equal scores for a key have equal hashes |
| `Cluster.ScoreTellsKeysApart` | internal/proxy/cluster.go:278-294 | keys with equal scores for a member are equal |
| `Cluster.GreatestWordOwns` | internal/proxy/cluster.go:278-294 | whoever's mixed word for a key is the greatest of all words owns the key, or shares its hash with the owner |
| `Cluster.EveryMemberOwnsAKey` | internal/proxy/cluster.go:278-294 | with distinct hashes every member owns some key |
| `Cluster.MixOfZero` | internal/proxy/cluster.go:289-294 | the mixer's value at zero, the first word of SplitMix64 |
| `Cluster.RendezvousMember` | internal/proxy/cluster.go:278-287 | the loop selects the owner of the key (what the owner is, and that it depends on the key, is in the rows around) |
| `Cluster.OwnerWins` | internal/proxy/cluster.go:278-287 | the owner has the best score, and stands before all others with that score |
| `Cluster.JoinMovesOnlyToNewMember` | internal/proxy/cluster.go:278-287 | a member inserted anywhere takes a key exactly when it beats the owner, or ties and stands before it; no key moves between old members |
| `Cluster.LeaveMovesOnlyItsKeys` | internal/proxy/cluster.go:278-287 | removing a member moves only the keys it owned |
| `Cluster.OwnerIgnoresOrder` | internal/proxy/cluster.go:278-294 | with distinct hashes the owner depends on the set of members only |
| `Forwarding.ReindexMembers` | internal/proxy/cluster.go:234-264 | the table is the sorted list of members with a valid port, or none at all beyond capacity |
| `Forwarding.SameViewSameTable` | internal/proxy/cluster.go:253-263 | nodes that know the same peers in any order build the same table |
| `Forwarding.ForwardedOnce` | internal/proxy/proxy.go:267-283 | whatever the tables say, a request is forwarded at most once and served only where that node's own table keeps it |
| `Forwarding.ServedByOwner` | internal/proxy/proxy.go:267-283 | if the entry node and the owner it sees agree on the owner, a fresh request is served by it and one that already hopped is served there or refused, whatever other nodes believe |
| `Forwarding.RefusedIff` | internal/proxy/proxy.go:267-283 | a fresh request that is forwarded is refused exactly when its target works and does not see itself as the owner, and served exactly when it does |
| `Forwarding.ConvergedServesOnce` | internal/proxy/proxy.go:267-283 | once all nodes know the same peers, all requests for a key are served by one node |
| `Forwarding.JoinKeepsOwner` | internal/proxy/cluster.go:266-287 | while only some nodes know of a new member, a key that it does not take is served by its one owner, whichever table the entry node and the owner hold |
| `Forwarding.LeaveKeepsOwner` | internal/proxy/cluster.go:266-287 | the same while a member leaves, for the keys it did not own |
| `Lifecycle.EveryMemberlistShutDown` | internal/proxy/cluster.go:106-192 | in every interleaving of any number of joins with Close: no memberlist is shut down twice, each live one has exactly one party that will shut it down, and when Close is done all have been shut down and no join is in progress |
| `Lifecycle.NothingInstalledAfterTake` | internal/proxy/cluster.go:296-315 | after Close has taken the cluster nothing is created or installed |
| `Lifecycle.TurnedAwayIff` | internal/proxy/cluster.go:106-119 | in every run a join is turned away at once exactly when the proxy is closing, has a cluster, or another join is in progress |
| `Lifecycle.JoinInstalls` | internal/proxy/cluster.go:106-192 | from every state of an open proxy without cluster and join, the steps of a join that nothing goes wrong with are possible and install it |
| `Lifecycle.CloseCanProceed` | internal/proxy/cluster.go:296-315 | while Close waits, the holder of the lock, the join in progress or Close itself can take a step |
| `Lifecycle.JoinStepsCountDown` | internal/proxy/cluster.go:87-192 | every step of a join brings it nearer to its end |
| `Lifecycle.NextOk` | internal/proxy/cluster.go:87-192 | every step keeps lock, slot, ownership and shutdown counts in step |
| `Routes.NormalisersAgree` | internal/proxy/routes.go:86-104 | for every path, the segments behind the bucket path are those behind the major parameter, if and only if the path is none of three exceptions |
| `Routes.AgreeOnRoutes` | internal/proxy/routes.go:199-210 | on paths with a leading slash and two or more segments the two always agree |
| `Routes.GetOptimisticBucketPath` | internal/proxy/routes.go:86-197 | the builder loop computes the bucket path, including the early exit at reactions (what that path is, is in the rows below) |
| `Routes.BucketShape` | internal/proxy/routes.go:106-141 | a bucket path is its first segment, its second segment and a tail, and can be read back |
| `Routes.SameBucketSameMajor` | internal/proxy/routes.go:86-228 | requests for channels, guilds or webhooks share a bucket path only if they name the same id, which is also the id in the major parameter |
| `Routes.SharedBucket` | internal/proxy/routes.go:106-197 | requests whose paths differ only in ids beyond the second segment, in user ids or invitations, in tokens, or behind a reaction share a bucket path |
| `Routes.ToldApart` | internal/proxy/routes.go:143-197 | requests whose paths first differ in two plain segments, or in a plain segment and an id, do not |
| `Routes.MessageBucket` | internal/proxy/routes.go:143-157 | a message is deleted in the bucket of its age class and reached in one bucket otherwise |
| `Routes.ReactionBucket` | internal/proxy/routes.go:159-166 | adding and removing reactions share a bucket, apart from that of listing them |
| `Routes.WebhookBucket` | internal/proxy/routes.go:168-190 | a webhook's token is masked, or replaced by the interaction that it names |
| `Routes.UserAndInviteBuckets` | internal/proxy/routes.go:114-123 | all users share a bucket, and so do all invitations |
| `Routes.CallbackBucket` | internal/proxy/routes.go:124-129 | callbacks of an interaction share a bucket path, whatever the token |
| `Routes.MajorIs` | internal/proxy/routes.go:212-228 | the major parameter is the channel, the guild, or the webhook with the hash of its token; other routes have none |
| `Routes.QueryIgnored` | internal/proxy/routes.go:86-104 | a query changes nothing |
| `Routes.PrefixIgnored` | internal/proxy/routes.go:90-104 | neither does the prefix of the API, with its version or without |
| `Routes.SnowflakeIff` | internal/proxy/routes.go:34-39 | a number counts as an id exactly from ten to the sixteenth up to ten to the twentieth |

## Left out

- HTTP, TLS, gossip, metrics, logging and command-line configuration are not modelled.
- CRC-64, SHA-256, base64 and the parsing of numbers are parameters or already parsed values; header values are compared after case folding. Floating-point seconds are reals, so rounding below a nanosecond is not captured.
- Age classes of message ids and the ids inside interaction tokens are parameters of the bucket path, because they depend on the clock and on base64.
- Timers and channel selection are nondeterminism: a waiting request may wake, time out or be cancelled whenever the source could.
- A request may leave the attempt loop with an error at every point where the source can fail, also when it would not; this adds runs and loses none.
- In the protocol, bucket objects are numbered entries of a pool and client objects numbered entries of a list; the aliasing of references is captured in `ClientState` and `Admission`.
- The reads of a client's idle test are separate steps, except that its loop over the buckets is one: by then the client has no request and nothing else makes a bucket busy. In the machine a sweep drops buckets in one step each, chosen by the environment among those that are neither in use nor blocked; `SweepReads.IdleIsRight` shows of one bucket that it met this condition when its count was read, which is the instant that the step stands for; until the verdict the sweep holds the lock that lookups need. The times of last use of buckets appear in `SweepReads` only.
- A context is over at its deadline: a check passes, and a response is taken, only before it. A Go context reports its end once its timer has fired, and a response may win over a context that has just ended. The bound on attempts and the ages in `Punctuality` rest on this.
- The machine evicts any client that its reads find idle. That the least recently used one is chosen is proved in `Admission`, on objects and for an idle test in one step; the two are not connected.
- The loop of `sweepClients` over all clients is not modelled as a method; its effects on one client are `ClientState.Idle`, `Clear` and `Sweep`, and the machine has them as events in any order.
- After Close the maps of clients are dropped without releasing their slots; the machine keeps the objects that requests still hold.
- The guard on invalid requests runs beside the proxy machine, which does not depend on it; a refused reservation appears there as an attempt that leaves the loop.
- The peer transport, certificate checks and the storing of a route table by a late `reindexMembers` after Close are not part of `Lifecycle`; nothing is claimed about the route table after Close.
- Member names are numbers with their order; sorting is specified by its result, not by the library's algorithm.
- `MetricsPathFromBucket`, `isInteractionEndpoint`, `identify` and the parsing of overrides would only add easy members.
- Liveness beyond deadlock freedom is not stated: fairness of the Go scheduler is not modelled.
