/** Rate-limit headers and what one response makes the scheduler do (`parseRateLimitHeaders`, `observeResponse`).

Header texts are modelled by what the parsers see in them: a number, a malformed number, or nothing. Seconds are
real numbers; NaN and infinities count as malformed, as the source rejects them.
 */
module RateLimit {
  import opened Base

  const MINIMUM_RETRY_DELAY: int := 50 * MILLISECOND
  const HEADER_SLACK: int := 5 * MILLISECOND
  const MAXIMUM_DELAY: int := 24 * 60 * MINUTE
  const MAXIMUM_SECONDS: real := 86400.0
  const NANOS: real := 1000000000.0

  datatype Seconds = Missing | Malformed | Given(seconds: real)
  datatype Count = NoCount | BadCount | Counted(count: int)
  datatype Scope = NoScope | GlobalScope | SharedScope | OtherScope
  datatype Flag = NoFlag | FlagTrue | FlagOther

  datatype Headers = Headers(
    bucket: string,
    scope: Scope,
    global: Flag,
    remaining: Count,
    resetAfter: Seconds,
    retryAfter: Seconds,
    reset: Seconds)

  /** A response as the scheduler sees it; `None` stands for a nil header map. */
  datatype Response = Response(status: int, headers: Option<Headers>)

  datatype Info = Info(bucket: string, global: bool, remaining: int, resetAfter: int)

  datatype Parsed = Parsed(info: Info, ok: bool)

  const NOTHING: Info := Info("", false, -1, 0)

  predicate Blank(h: Headers) {
    h.bucket == "" && h.scope == NoScope && h.global == NoFlag && h.remaining == NoCount &&
    h.resetAfter == Missing && h.retryAfter == Missing
  }

  /** Seconds to a duration: clamped to a day, truncated to whole nanoseconds. */
  function ToDuration(seconds: real): int
    requires seconds >= 0.0
  {
    if seconds >= MAXIMUM_SECONDS then MAXIMUM_DELAY else (seconds * NANOS).Floor
  }

  function ResetHeader(h: Headers, status: int): Seconds {
    if status == 429 && h.retryAfter != Missing then h.retryAfter else h.resetAfter
  }

  /** The reset delay before slack; `None` when the header that applies is malformed. */
  function ResetDelay(h: Headers, status: int, now: int): Option<int> {
    match ResetHeader(h, status)
    case Malformed => None
    case Given(s) => if s < 0.0 then None else Some(ToDuration(s))
    case Missing =>
      match h.reset
      case Malformed => None
      case Missing => Some(0)
      case Given(at) =>
        var left := at - now as real / NANOS;
        Some(if left <= 0.0 then 0 else ToDuration(left))
  }

  function Parse(headers: Option<Headers>, status: int, now: int): Parsed {
    match headers
    case None => Parsed(NOTHING, false)
    case Some(h) =>
      if Blank(h) then Parsed(NOTHING, true)
      else
        var info := Info(h.bucket, h.global == FlagTrue || h.scope == GlobalScope, -1, 0);
        if h.remaining.BadCount? || (h.remaining.Counted? && h.remaining.count < 0) then Parsed(info, false)
        else
          var counted := if h.remaining.Counted? then info.(remaining := h.remaining.count) else info;
          match ResetDelay(h, status, now)
          case None => Parsed(counted, false)
          case Some(d) =>
            var slack := if (counted.remaining == 0 || status == 429) && d > 0 then HEADER_SLACK else 0;
            Parsed(counted.(resetAfter := d + slack), true)
  }

  /** What a response does: mark the credential, delay the global pacer, delay the bucket, teach a bucket name. */
  datatype Plan = Plan(
    unauthorized: bool,
    limited: bool,
    global: Option<int>,
    bucket: Option<int>,
    name: string)

  function Observe(response: Response, interaction: bool, now: int): Plan {
    var parsed := Parse(response.headers, response.status, now);
    var info := parsed.info;
    var limited := response.status == 429;
    var (global, bucket) :=
      if !parsed.ok then
        if !limited then (None, None)
        else if info.global then
          (Some(MINIMUM_RETRY_DELAY), if interaction then Some(MINIMUM_RETRY_DELAY) else None)
        else (None, Some(MINIMUM_RETRY_DELAY))
      else if info.global then
        if !limited then (None, None)
        else (Some(info.resetAfter), if interaction then Some(Max(info.resetAfter, MINIMUM_RETRY_DELAY)) else None)
      else if info.remaining == 0 || limited then
        (None, Some(if limited then Max(info.resetAfter, MINIMUM_RETRY_DELAY) else info.resetAfter))
      else (None, None);
    Plan(response.status == 401, limited, global, bucket, info.bucket)
  }

  /** 401, 403 and 429 responses count as invalid, except a 429 that Discord marks as shared. */
  predicate CountsAsInvalid(response: Response) {
    if response.status == 429 then response.headers.None? || response.headers.value.scope != SharedScope
    else response.status == 401 || response.status == 403
  }

  // ----- what the plan guarantees -----

  /** A plan that makes the request that saw a 429 wait before its next attempt. An ordinary request passes both its
      bucket and the global pacer; an interaction request passes only its bucket. The pacer raises every delay to the
      minimum itself. */
  ghost predicate DelaysRetry(plan: Plan, interaction: bool) {
    plan.limited ==>
      && (plan.bucket.Some? || (!interaction && plan.global.Some?))
      && (plan.bucket.Some? ==> plan.bucket.value >= MINIMUM_RETRY_DELAY)
  }

  lemma EveryRateLimitDelaysRetry(response: Response, interaction: bool, now: int)
    ensures DelaysRetry(Observe(response, interaction, now), interaction)
    ensures Observe(response, interaction, now).limited <==> response.status == 429
  {
  }

  lemma ToDurationBounds(s: real)
    requires s >= 0.0
    ensures 0 <= ToDuration(s) <= MAXIMUM_DELAY
    ensures s < MAXIMUM_SECONDS ==> ToDuration(s) as real <= s * NANOS < ToDuration(s) as real + 1.0
  {
    if s < MAXIMUM_SECONDS {
      assert s * NANOS < MAXIMUM_SECONDS * NANOS;
      assert MAXIMUM_DELAY as real == MAXIMUM_SECONDS * NANOS;
    }
  }

  lemma ResetDelayBounds(h: Headers, status: int, now: int)
    ensures ResetDelay(h, status, now).Some? ==> 0 <= ResetDelay(h, status, now).value <= MAXIMUM_DELAY
  {
    match ResetHeader(h, status)
    case Given(s) => if s >= 0.0 { ToDurationBounds(s); }
    case Malformed =>
    case Missing =>
      if h.reset.Given? {
        var left := h.reset.seconds - now as real / NANOS;
        if left > 0.0 { ToDurationBounds(left); }
      }
  }

  /** No response can delay anything by more than a day and the slack, and no delay is negative. */
  lemma DelaysAreBounded(response: Response, interaction: bool, now: int)
    ensures var plan := Observe(response, interaction, now);
            && (plan.global.Some? ==> 0 <= plan.global.value <= MAXIMUM_DELAY + HEADER_SLACK)
            && (plan.bucket.Some? ==> 0 <= plan.bucket.value <= MAXIMUM_DELAY + HEADER_SLACK)
  {
    if response.headers.Some? {
      ResetDelayBounds(response.headers.value, response.status, now);
    }
  }

  // ----- the plan against the headers -----

  /** Discord speaks of the global limit. */
  predicate Global(h: Headers) {
    h.global == FlagTrue || h.scope == GlobalScope
  }

  /** A number of seconds that can be waited for. */
  predicate Usable(s: Seconds) {
    s.Given? && s.seconds >= 0.0
  }

  /** At most `X-RateLimit-Reset` is there, which alone means nothing. */
  predicate OnlyReset(h: Headers) {
    h == Headers("", NoScope, NoFlag, NoCount, Missing, Missing, h.reset)
  }

  /** The count is a count, and the one header that says how long to wait says so: `Retry-After` of a 429, else
      `X-RateLimit-Reset-After`, else `X-RateLimit-Reset` next to some other header. */
  predicate WellFormed(h: Headers, status: int) {
    && (h.remaining.NoCount? || (h.remaining.Counted? && h.remaining.count >= 0))
    && (if OnlyReset(h) then true
        else if status == 429 && !h.retryAfter.Missing? then Usable(h.retryAfter)
        else if !h.resetAfter.Missing? then Usable(h.resetAfter)
        else !h.reset.Malformed?)
  }

  /** The number of nanoseconds Discord asks for: `Retry-After` of a 429, else `X-RateLimit-Reset-After`, else the
      distance to `X-RateLimit-Reset`; at most a day. */
  ghost function Asked(h: Headers, status: int, now: int): real {
    var seconds :=
      if status == 429 && h.retryAfter.Given? then h.retryAfter.seconds
      else if h.resetAfter.Given? then h.resetAfter.seconds
      else if h.reset.Given? then h.reset.seconds - now as real / NANOS
      else 0.0;
    if seconds >= MAXIMUM_SECONDS then MAXIMUM_SECONDS * NANOS else seconds * NANOS
  }

  /** What is asked for in whole nanoseconds, plus the slack if it is anything at all. */
  ghost function Due(h: Headers, status: int, now: int): int {
    var whole := if OnlyReset(h) || Asked(h, status, now) <= 0.0 then 0 else Asked(h, status, now).Floor;
    if whole > 0 then whole + HEADER_SLACK else 0
  }

  lemma ParsesWellFormed(h: Headers, status: int, now: int)
    ensures Parse(Some(h), status, now).ok <==> WellFormed(h, status)
    ensures Parse(Some(h), status, now).info.global <==> Global(h)
    ensures Parse(Some(h), status, now).info.bucket == h.bucket
  {
  }

  /** Exactly which responses block what: a 429 blocks the pacer if it is global and the bucket otherwise, for an
      interaction the bucket in any case; any other response blocks the bucket exactly when it says, in well-formed
      headers that are not global, that nothing remains. */
  lemma WhoIsBlocked(response: Response, interaction: bool, now: int)
    ensures var plan := Observe(response, interaction, now);
            var limited := response.status == 429;
            var global := response.headers.Some? && Global(response.headers.value);
            && (plan.global.Some? <==> limited && global)
            && (plan.bucket.Some? <==>
                  if limited then interaction || !global
                  else !global && response.headers.Some? && WellFormed(response.headers.value, response.status)
                       && response.headers.value.remaining == Counted(0))
            && plan.name == (if response.headers.Some? then response.headers.value.bucket else "")
            && (plan.unauthorized <==> response.status == 401) && plan.limited == limited
  {
    if response.headers.Some? {
      ParsesWellFormed(response.headers.value, response.status, now);
    }
  }

  /** For exactly how long: what the headers ask for, and the minimum if they are malformed or missing or if a 429 asks
      for less. */
  lemma ForHowLong(response: Response, interaction: bool, now: int)
    ensures var plan := Observe(response, interaction, now);
            var due := if response.headers.Some? && WellFormed(response.headers.value, response.status)
                       then Due(response.headers.value, response.status, now) else MINIMUM_RETRY_DELAY;
            && (plan.global.Some? ==> plan.global.value == due)
            && (plan.bucket.Some? ==>
                  plan.bucket.value == if response.status == 429 then Max(due, MINIMUM_RETRY_DELAY) else due)
  {
    if response.headers.Some? {
      var h := response.headers.value;
      ParsesWellFormed(h, response.status, now);
      if WellFormed(h, response.status) && !OnlyReset(h) {
        DelayIsAsked(h, response.status, now);
      }
    }
  }

  lemma FloorOfDay()
    ensures (MAXIMUM_SECONDS * NANOS).Floor == MAXIMUM_DELAY
  {
    assert MAXIMUM_SECONDS * NANOS == MAXIMUM_DELAY as real;
  }

  /** The reset delay is what is asked for, in whole nanoseconds. */
  lemma DelayIsAsked(h: Headers, status: int, now: int)
    requires WellFormed(h, status) && !OnlyReset(h)
    ensures ResetDelay(h, status, now)
            == Some(if Asked(h, status, now) <= 0.0 then 0 else Asked(h, status, now).Floor)
  {
    FloorOfDay();
    assert NANOS > 0.0;
    var r := ResetHeader(h, status);
    if r.Given? {
      assert r.seconds <= 0.0 <==> r.seconds * NANOS <= 0.0;
    } else if h.reset.Given? {
      var left := h.reset.seconds - now as real / NANOS;
      assert left <= 0.0 <==> left * NANOS <= 0.0;
    }
  }

  /** The delay that well-formed headers produce is never shorter than what Discord asked for by a whole nanosecond,
      never shorter at all for a 429, and at most the slack (or the minimum) longer. */
  lemma DelayMatchesHeaders(h: Headers, status: int, interaction: bool, now: int)
    requires !Blank(h) && Parse(Some(h), status, now).ok
    ensures var plan := Observe(Response(status, Some(h)), interaction, now);
            && (plan.bucket.Some? ==> plan.bucket.value as real > Asked(h, status, now) - 1.0)
            && (plan.bucket.Some? && status == 429 ==> plan.bucket.value as real >= Asked(h, status, now))
            && (plan.global.Some? ==> Max(plan.global.value, MINIMUM_RETRY_DELAY) as real >= Asked(h, status, now))
            && (plan.bucket.Some? && Asked(h, status, now) >= 0.0 ==>
                  plan.bucket.value as real <= Asked(h, status, now) + MINIMUM_RETRY_DELAY as real)
  {
    var d := ResetDelay(h, status, now).value;
    AskedBounds(h, status, now);
    assert MINIMUM_RETRY_DELAY as real == 50000000.0 && HEADER_SLACK as real == 5000000.0;
  }

  lemma AskedBounds(h: Headers, status: int, now: int)
    requires ResetDelay(h, status, now).Some?
    ensures var d := ResetDelay(h, status, now).value;
            && d >= 0
            && d as real > Asked(h, status, now) - 1.0
            && (Asked(h, status, now) >= 0.0 ==> d as real <= Asked(h, status, now))
  {
    var r := ResetHeader(h, status);
    assert MAXIMUM_DELAY as real == MAXIMUM_SECONDS * NANOS;
    if r.Given? {
      ToDurationBounds(r.seconds);
    } else if h.reset.Given? {
      var left := h.reset.seconds - now as real / NANOS;
      if left > 0.0 {
        ToDurationBounds(left);
      } else {
        assert left * NANOS <= 0.0;
      }
    }
  }
}
