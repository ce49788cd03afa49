/**
 * The token-bucket limiter of internal/middleware/ratelimit.go: one bucket
 * per client key, refilled by whole intervals and capped at the burst size.
 */
module RateLimit {
  import opened Wrappers
  import opened GoTime

  datatype RateLimitConfig = RateLimitConfig(rate: int, interval: Duration, burst: int)

  /** `DefaultRateLimitConfig()`: 100 per minute, bursts of 200. */
  function DefaultRateLimitConfig(): (c: RateLimitConfig)
    ensures c.rate == 100 && c.interval == 60 * 1000000000 && c.burst == 200
  {
    RateLimitConfig(100, Minute, 200)
  }

  /**
   * A client's bucket. `lastCheck` is the time the refill counts from;
   * `lastSeen` is the time of the latest call, which `cleanup` looks at.
   * The code as written keeps one time for both.
   */
  datatype Bucket = Bucket(tokens: int, lastCheck: Time, lastSeen: Time)

  /** `min`. */
  function Min(a: int, b: int): (r: int)
    ensures r <= a && r <= b
    ensures r == a || r == b
  {
    if a < b then a else b
  }

  /** The answer of one `Allow` call and the caller's bucket after it. */
  datatype Decision = Decision(allowed: bool, bucket: Bucket)

  /** Whole intervals in an elapsed time, with Go's truncating division. */
  function Intervals(elapsed: Duration, interval: Duration): int
    requires interval != 0
  {
    Quo(elapsed, interval)
  }

  /** The tokens after the refill, before this call takes one. */
  function Refilled(b: Bucket, now: Time, c: RateLimitConfig): int
    requires c.interval != 0
  {
    Min(b.tokens + Intervals(Sub(now, b.lastCheck), c.interval) * c.rate, c.burst)
  }

  /**
   * `Allow` as written: a new key gets a full bucket less one token; an
   * existing one is refilled, its check time reset to now, and a call is
   * let through while a token remains.
   */
  function StepAsWritten(b: Option<Bucket>, now: Time, c: RateLimitConfig): (d: Decision)
    requires b.Some? ==> c.interval != 0
    ensures b.None? ==> d == Decision(true, Bucket(c.burst - 1, now, now))
    ensures b.Some? ==> (d.allowed <==> Refilled(b.value, now, c) > 0)
    ensures b.Some? ==> d.bucket.tokens == Refilled(b.value, now, c) - (if d.allowed then 1 else 0)
    ensures d.bucket.lastCheck == now && d.bucket.lastSeen == now
  {
    match b
    case None => Decision(true, Bucket(c.burst - 1, now, now))
    case Some(old_) =>
      var tokens := Refilled(old_, now, c);
      if tokens > 0 then Decision(true, Bucket(tokens - 1, now, now)) else Decision(false, Bucket(tokens, now, now))
  }

  /**
   * With the check time reset on every call, an empty bucket polled more
   * often than once an interval never refills and refuses every call.
   */
  lemma AsWrittenStarves(b: Bucket, now: Time, c: RateLimitConfig)
    requires c.interval > 0 && b.tokens <= 0
    requires b.lastCheck <= now < b.lastCheck + c.interval
    ensures var d := StepAsWritten(Some(b), now, c);
      !d.allowed && d.bucket.tokens == Min(b.tokens, c.burst) && d.bucket.lastCheck == now
  {
    assert Intervals(Sub(now, b.lastCheck), c.interval) == 0;
  }

  /** The same limiter, empty at time 0 and polled at 30 s and 60 s, refuses both calls. */
  lemma AsWrittenLosesInterval()
    ensures var c := DefaultRateLimitConfig();
      var d1 := StepAsWritten(Some(Bucket(0, 0, 0)), 30 * Second, c);
      var d2 := StepAsWritten(Some(d1.bucket), 60 * Second, c);
      !d1.allowed && !d2.allowed
  {
  }

  /**
   * The refill with the fractional interval kept: the check time advances by
   * the whole intervals credited, not to now, while the time of the latest
   * call is still now.
   */
  function Step(b: Option<Bucket>, now: Time, c: RateLimitConfig): (d: Decision)
    requires b.Some? ==> c.interval != 0
    ensures b.None? ==> d == Decision(true, Bucket(c.burst - 1, now, now))
    ensures b.Some? ==> (d.allowed <==> Refilled(b.value, now, c) > 0)
    ensures b.Some? ==> d.bucket.tokens == Refilled(b.value, now, c) - (if d.allowed then 1 else 0)
    ensures b.Some? ==>
      d.bucket.lastCheck == b.value.lastCheck + Intervals(Sub(now, b.value.lastCheck), c.interval) * c.interval
    ensures b.Some? && c.interval > 0 && b.value.lastCheck <= now ==>
      now - c.interval < d.bucket.lastCheck <= now
    ensures d.bucket.lastSeen == now
  {
    match b
    case None => Decision(true, Bucket(c.burst - 1, now, now))
    case Some(old_) =>
      var tokens := Refilled(old_, now, c);
      var k := Intervals(Sub(now, old_.lastCheck), c.interval);
      var last := old_.lastCheck + k * c.interval;
      if tokens > 0 then Decision(true, Bucket(tokens - 1, last, now)) else Decision(false, Bucket(tokens, last, now))
  }

  /** A quotient and remainder in range are the Euclidean ones. */
  lemma DivUnique(m: int, i: int, q: int, r: int)
    requires i > 0 && 0 <= r < i && m == q * i + r
    ensures m / i == q
  {
    var d := q - m / i;
    assert d * i == m % i - r;
    MulBounds(d, i);
  }

  lemma MulBounds(d: int, i: int)
    requires i > 0
    ensures d >= 1 ==> d * i >= i
    ensures d <= -1 ==> d * i <= -i
  {
    if d >= 1 {
      assert (d - 1) * i >= 0;
    } else if d <= -1 {
      assert (-d - 1) * i >= 0;
    }
  }

  /** Euclidean division by a positive interval, shifted by whole intervals. */
  lemma DivShift(a: int, k: int, i: int)
    requires i > 0
    ensures (a - k * i) / i == a / i - k
  {
    assert a - k * i == (a / i - k) * i + a % i;
    DivUnique(a - k * i, i, a / i - k, a % i);
  }

  /**
   * With the corrected refill, two calls credit exactly the whole intervals
   * elapsed since the bucket's check time, as one call at the later time
   * would: no time is lost between calls.
   */
  lemma RefillAdditive(b: Bucket, t1: Time, t2: Time, c: RateLimitConfig)
    requires c.interval > 0 && b.lastCheck <= t1 <= t2
    ensures var d1 := Step(Some(b), t1, c);
      Intervals(t1 - b.lastCheck, c.interval) + Intervals(t2 - d1.bucket.lastCheck, c.interval)
      == Intervals(t2 - b.lastCheck, c.interval)
  {
    var k1 := (t1 - b.lastCheck) / c.interval;
    var d1 := Step(Some(b), t1, c);
    assert d1.bucket.lastCheck == b.lastCheck + k1 * c.interval;
    assert t2 - d1.bucket.lastCheck == (t2 - b.lastCheck) - k1 * c.interval;
    DivShift(t2 - b.lastCheck, k1, c.interval);
  }

  /** The corrected limiter serves the call at 60 s that the one as written refuses. */
  lemma StepServesFullInterval()
    ensures var c := DefaultRateLimitConfig();
      var d1 := Step(Some(Bucket(0, 0, 0)), 30 * Second, c);
      var d2 := Step(Some(d1.bucket), 60 * Second, c);
      !d1.allowed && d2.allowed
  {
  }

  /** The number of tokens stays within [0, burst] under a clock that does not go back. */
  lemma StepKeepsTokensInRange(b: Option<Bucket>, now: Time, c: RateLimitConfig)
    requires c.interval > 0 && c.rate >= 0 && c.burst >= 1
    requires b.Some? ==> 0 <= b.value.tokens <= c.burst && b.value.lastCheck <= now
    ensures 0 <= Step(b, now, c).bucket.tokens <= c.burst
  {
    if b.Some? {
      var k := Intervals(now - b.value.lastCheck, c.interval);
      assert k >= 0;
      assert k * c.rate >= 0;
    }
  }

  /** A response of the middleware: the wrapped handler runs, or the request is refused. */
  datatype Outcome = Next | Refused(status: int, headers: map<string, string>, body: string)

  const DeniedBody: string := "{\"error\":\"rate_limit_exceeded\",\"message\":\"too many requests\"}"

  /** The `Middleware` branch on the limiter's answer. */
  function Middleware(allowed: bool): (r: Outcome)
    ensures allowed <==> r == Next
    ensures !allowed ==> r.Refused? && r.status == 429 && r.body == DeniedBody
    ensures !allowed ==> r.Refused? && r.headers == map["Content-Type" := "application/json", "Retry-After" := "60"]
  {
    if allowed then Next
    else Refused(429, map["Content-Type" := "application/json", "Retry-After" := "60"], DeniedBody)
  }

  /** How long a bucket may go unchecked before `cleanup` drops it. */
  const StaleAfter: Duration := 10 * Minute

  predicate Stale(b: Bucket, now: Time) {
    Before(b.lastSeen, now - StaleAfter)
  }

  /**
   * A bucket just used survives every sweep for ten minutes, whatever the
   * refill's check time, as it does in the code where the two are one time.
   */
  lemma StepFresh(b: Option<Bucket>, now: Time, t: Time, c: RateLimitConfig)
    requires (b.Some? ==> c.interval != 0) && t <= now + StaleAfter
    ensures !Stale(Step(b, now, c).bucket, t)
    ensures !Stale(StepAsWritten(b, now, c).bucket, t)
  {
  }

  /** Every bucket holds between none and a full burst of tokens. */
  predicate InRange(buckets: map<string, Bucket>, burst: int) {
    forall k :: k in buckets ==> 0 <= buckets[k].tokens <= burst
  }

  class RateLimiter {
    const config: RateLimitConfig
    var buckets: map<string, Bucket>

    constructor(config: RateLimitConfig)
      ensures this.config == config && buckets == map[]
    {
      this.config := config;
      buckets := map[];
    }

    /** `Allow`, with the corrected refill; only the caller's bucket changes. */
    method Allow(key: string, now: Time) returns (allowed: bool)
      requires key in buckets ==> config.interval != 0
      modifies this
      ensures var d := Step(if key in old(buckets) then Some(old(buckets)[key]) else None, now, config);
        allowed == d.allowed && buckets == old(buckets)[key := d.bucket]
      ensures
        && config.interval > 0 && config.rate >= 0 && config.burst >= 1
        && InRange(old(buckets), config.burst)
        && (key in old(buckets) ==> old(buckets)[key].lastCheck <= now)
        ==> InRange(buckets, config.burst)
    {
      if && config.interval > 0 && config.rate >= 0 && config.burst >= 1
         && InRange(buckets, config.burst) && (key in buckets ==> buckets[key].lastCheck <= now)
      {
        StepKeepsTokensInRange(if key in buckets then Some(buckets[key]) else None, now, config);
      }
      if key !in buckets {
        buckets := buckets[key := Bucket(config.burst - 1, now, now)];
        return true;
      }
      var b := buckets[key];
      var elapsed := Sub(now, b.lastCheck);
      var k := Quo(elapsed, config.interval);
      var tokens := Min(b.tokens + k * config.rate, config.burst);
      var last := b.lastCheck + k * config.interval;
      if tokens > 0 {
        buckets := buckets[key := Bucket(tokens - 1, last, now)];
        return true;
      }
      buckets := buckets[key := Bucket(tokens, last, now)];
      allowed := false;
    }

    /** One sweep of `cleanup`: drop exactly the buckets unchecked for ten minutes. */
    method Cleanup(now: Time)
      modifies this
      ensures buckets == map k | k in old(buckets) && !Stale(old(buckets)[k], now) :: old(buckets)[k]
    {
      var todo := buckets.Keys;
      while todo != {}
        invariant todo <= old(buckets).Keys
        invariant buckets.Keys <= old(buckets).Keys && todo <= buckets.Keys
        invariant forall k :: k in buckets ==> buckets[k] == old(buckets)[k]
        invariant forall k :: k in old(buckets) && k !in todo ==> (k in buckets <==> !Stale(old(buckets)[k], now))
        decreases |todo|
      {
        var k :| k in todo;
        if Before(buckets[k].lastSeen, now - StaleAfter) {
          buckets := buckets - {k};
        }
        todo := todo - {k};
      }
    }
  }
}
