/** The token-bucket rate limiter of apps/api/src/rate-limit.ts.

    Tokens are real numbers, clock readings are whole milliseconds.  `Consume`, `Swept` and
    `EnforceRequest` say what one call does to the bucket map; the class performs the same calls by
    updating the map in place. */
module RateLimit {
  import opened Basics

  datatype Scope = User | Ip | Company | PortalRead | PortalWrite

  datatype Config = Config(
    perUser: real, perIp: real, perCompany: real,
    perPortalRead: Option<real>, perPortalWrite: Option<real>, windowMs: int)
  {
    predicate Valid() {
      windowMs > 0 && forall scope :: CapacityFor(this, scope) >= 0.0
    }
  }

  const DEFAULT_PORTAL_TOKEN_READ_PER_MIN := 60.0
  const DEFAULT_PORTAL_TOKEN_WRITE_PER_MIN := 20.0

  datatype Bucket = Bucket(tokens: real, updatedAt: int)

  /** The advice to a denied caller.  `Never` is the division by a zero refill rate. */
  datatype RetryAfter = Seconds(seconds: int) | Never

  datatype Decision =
    | Allowed(remaining: int, capacity: real, scope: Scope, key: string)
    | Denied(retryAfter: RetryAfter, capacity: real, scope: Scope, key: string)

  datatype State = State(buckets: map<string, Bucket>, lastSweep: int)

  datatype Call = Call(scope: Scope, key: string, now: int)

  function CapacityFor(config: Config, scope: Scope): real {
    match scope
    case User => config.perUser
    case Company => config.perCompany
    case PortalRead => config.perPortalRead.GetOr(DEFAULT_PORTAL_TOKEN_READ_PER_MIN)
    case PortalWrite => config.perPortalWrite.GetOr(DEFAULT_PORTAL_TOKEN_WRITE_PER_MIN)
    case Ip => config.perIp
  }

  function ScopeName(scope: Scope): string {
    match scope
    case User => "user"
    case Ip => "ip"
    case Company => "company"
    case PortalRead => "portal_read"
    case PortalWrite => "portal_write"
  }

  function BucketKey(scope: Scope, key: string): string {
    Composite(ScopeName(scope), key)
  }

  function RefillRate(config: Config, scope: Scope): real
    requires config.windowMs > 0
  {
    CapacityFor(config, scope) / config.windowMs as real
  }

  /** Tokens that `elapsed` milliseconds bring in. */
  function Inflow(rate: real, elapsed: int): real {
    elapsed as real * rate
  }

  function Refilled(capacity: real, rate: real, bucket: Bucket, now: int): real {
    Min(capacity, bucket.tokens + Inflow(rate, if now > bucket.updatedAt then now - bucket.updatedAt else 0))
  }

  /** What a call at `now` finds in the bucket; an absent bucket counts as a full one. */
  function Level(capacity: real, rate: real, bucket: Option<Bucket>, now: int): real {
    if bucket.None? then Refilled(capacity, rate, Bucket(capacity, now), now)
    else Refilled(capacity, rate, bucket.value, now)
  }

  function Ceil(x: real): int {
    -(-x).Floor
  }

  function Advice(level: real, rate: real): RetryAfter {
    if rate == 0.0 then Never
    else
      var retryAfterMs := Ceil((1.0 - level) / rate);
      var seconds := Ceil(retryAfterMs as real / 1000.0);
      Seconds(if seconds > 1 then seconds else 1)
  }

  function Expired(config: Config, bucket: Bucket, now: int): bool {
    now - bucket.updatedAt >= config.windowMs
  }

  /** The idle sweep: at most once per window, forget every bucket idle for a whole window. */
  function Swept(config: Config, state: State, now: int): State {
    if now - state.lastSweep < config.windowMs then state
    else State(map k | k in state.buckets && !Expired(config, state.buckets[k], now) :: state.buckets[k], now)
  }

  function BucketAt(state: State, composite: string): Option<Bucket> {
    if composite in state.buckets then Some(state.buckets[composite]) else None
  }

  /** The new content of the bucket after a call that found `level` tokens. */
  function Drained(level: real, now: int): Bucket {
    Bucket(if level < 1.0 then level else level - 1.0, now)
  }

  function Decide(level: real, rate: real, capacity: real, call: Call): Decision {
    if level < 1.0 then Denied(Advice(level, rate), capacity, call.scope, call.key)
    else Allowed((level - 1.0).Floor, capacity, call.scope, call.key)
  }

  function Consume(config: Config, state: State, call: Call): (State, Decision)
    requires config.windowMs > 0
  {
    var swept := Swept(config, state, call.now);
    var capacity := CapacityFor(config, call.scope);
    var rate := RefillRate(config, call.scope);
    var composite := BucketKey(call.scope, call.key);
    var level := Level(capacity, rate, BucketAt(swept, composite), call.now);
    (swept.(buckets := swept.buckets[composite := Drained(level, call.now)]), Decide(level, rate, capacity, call))
  }

  // ---------- whole requests ----------

  /** A request as `enforceRateLimit` sees it, with the clock readings of its (at most) two calls. */
  datatype Request = Request(pathname: string, companyKey: Option<string>, userId: string, ip: string, now: int, then_: int)

  predicate StartsWith(s: string, prefix: string) {
    prefix <= s
  }

  /** `^/api/integrations/[^/]+/callback$` */
  predicate IsOauthCallback(pathname: string) {
    var before, after := "/api/integrations/", "/callback";
    |pathname| > |before| + |after| && before <= pathname && pathname[|pathname| - |after|..] == after
    && '/' !in pathname[|before|..|pathname| - |after|]
  }

  predicate IsRateLimitExempt(pathname: string) {
    StartsWith(pathname, "/health") || StartsWith(pathname, "/api/webhooks/") || IsOauthCallback(pathname)
    || StartsWith(pathname, "/api/portal/")
  }

  /** The tenant key a request is counted under; a blank key skips the tenant bucket. */
  function CompanyOf(request: Request): Option<string> {
    if request.companyKey.Some? && Trim(request.companyKey.value) != "" then Some(Trim(request.companyKey.value))
    else None
  }

  /** The user-or-IP call of a request, made at the second clock reading. */
  function CallerCall(request: Request): Call {
    if request.userId != "" then Call(User, request.userId, request.then_) else Call(Ip, request.ip, request.then_)
  }

  /** One request: the tenant bucket first, then the user or IP bucket.  `None` lets it through. */
  function EnforceRequest(config: Config, state: State, request: Request): (State, Option<Decision>)
    requires config.windowMs > 0
  {
    if IsRateLimitExempt(request.pathname) then (state, None)
    else if CompanyOf(request).Some? then
      var (state1, company) := Consume(config, state, Call(Company, CompanyOf(request).value, request.now));
      if company.Denied? then (state1, Some(company))
      else
        var (state2, caller) := Consume(config, state1, CallerCall(request));
        (state2, if caller.Denied? then Some(caller) else None)
    else
      var (state2, caller) := Consume(config, state, CallerCall(request));
      (state2, if caller.Denied? then Some(caller) else None)
  }

  /** The share-token limit of the public portal; a blank token is not limited. */
  function EnforcePortalToken(config: Config, state: State, token: string, write: bool, now: int): (State, Option<Decision>)
    requires config.windowMs > 0
  {
    if Trim(token) == "" then (state, None)
    else
      var (state', decision) := Consume(config, state, Call(if write then PortalWrite else PortalRead, Trim(token), now));
      (state', if decision.Denied? then Some(decision) else None)
  }

  // ---------- the limiter object ----------

  class RateLimiter {
    const config: Config
    var buckets: map<string, Bucket>
    var lastSweep: int

    constructor (config: Config, now: int)
      ensures this.config == config
      ensures Snapshot() == State(map[], now)
    {
      this.config := config;
      buckets := map[];
      lastSweep := now;
    }

    function Snapshot(): State
      reads this
    {
      State(buckets, lastSweep)
    }

    method Sweep(now: int)
      modifies this
      ensures Snapshot() == Swept(config, old(Snapshot()), now)
    {
      if now - lastSweep < config.windowMs {
        return;
      }
      lastSweep := now;
      var pending := buckets.Keys;
      while pending != {}
        invariant pending <= old(buckets).Keys
        invariant lastSweep == now
        invariant forall k :: k in buckets ==> k in old(buckets) && buckets[k] == old(buckets)[k]
        invariant forall k :: k in pending ==> k in buckets
        invariant forall k :: k in old(buckets) && k !in pending ==> (k in buckets <==> !Expired(config, old(buckets)[k], now))
        decreases |pending|
      {
        var key :| key in pending;
        if now - buckets[key].updatedAt >= config.windowMs {
          buckets := buckets - {key};
        }
        pending := pending - {key};
      }
    }

    method ConsumeToken(scope: Scope, key: string, now: int) returns (decision: Decision)
      requires config.windowMs > 0
      modifies this
      ensures (Snapshot(), decision) == Consume(config, old(Snapshot()), Call(scope, key, now))
    {
      Sweep(now);
      var capacity := CapacityFor(config, scope);
      var refillRatePerMs := capacity / config.windowMs as real;
      var composite := BucketKey(scope, key);
      var current := if composite in buckets then buckets[composite] else Bucket(capacity, now);
      var elapsed := if now > current.updatedAt then now - current.updatedAt else 0;
      var refilled := Min(capacity, current.tokens + Inflow(refillRatePerMs, elapsed));
      if refilled < 1.0 {
        buckets := buckets[composite := Bucket(refilled, now)];
        decision := Denied(Advice(refilled, refillRatePerMs), capacity, scope, key);
      } else {
        var tokensAfter := refilled - 1.0;
        buckets := buckets[composite := Bucket(tokensAfter, now)];
        decision := Allowed(tokensAfter.Floor, capacity, scope, key);
      }
    }

    method Reset()
      modifies this
      ensures Snapshot() == State(map[], old(lastSweep))
    {
      buckets := map[];
    }

    method Enforce(request: Request) returns (rejection: Option<Decision>)
      requires config.windowMs > 0
      modifies this
      ensures (Snapshot(), rejection) == EnforceRequest(config, old(Snapshot()), request)
    {
      if IsRateLimitExempt(request.pathname) {
        return None;
      }
      var companyKey := CompanyOf(request);
      if companyKey.Some? {
        var company := ConsumeToken(Company, companyKey.value, request.now);
        if company.Denied? {
          return Some(company);
        }
      }
      var caller: Decision;
      if request.userId != "" {
        caller := ConsumeToken(User, request.userId, request.then_);
      } else {
        caller := ConsumeToken(Ip, request.ip, request.then_);
      }
      rejection := if caller.Denied? then Some(caller) else None;
    }

    method EnforcePortal(token: string, write: bool, now: int) returns (rejection: Option<Decision>)
      requires config.windowMs > 0
      modifies this
      ensures (Snapshot(), rejection) == EnforcePortalToken(config, old(Snapshot()), token, write, now)
    {
      var trimmed := Trim(token);
      if trimmed == "" {
        return None;
      }
      var decision := ConsumeToken(if write then PortalWrite else PortalRead, trimmed, now);
      rejection := if decision.Denied? then Some(decision) else None;
    }
  }
}
