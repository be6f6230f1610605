/** The Retry-After advice of the rate limiter, and the bounds that hold for whole requests, which
    pass a tenant bucket and a user or IP bucket. */
module RateLimitAdvice {
  import opened Basics
  import opened RateLimit
  import opened RateLimitRuns

  // ---------- configuration ----------

  /** `clampPositiveInt`; `None` stands for text that is not a finite number. */
  function ClampPositiveInt(value: Option<real>, fallback: int): int {
    if value.Some? && value.value > 0.0 then value.value.Floor else fallback
  }

  datatype Environment = Environment(
    perUser: Option<real>, perIp: Option<real>, perCompany: Option<real>, portalRead: Option<real>, portalWrite: Option<real>)

  function LoadRateLimitConfig(env: Environment): Config {
    Config(
      ClampPositiveInt(env.perUser, 100) as real,
      ClampPositiveInt(env.perIp, 30) as real,
      ClampPositiveInt(env.perCompany, 1000) as real,
      Some(ClampPositiveInt(env.portalRead, 60) as real),
      Some(ClampPositiveInt(env.portalWrite, 20) as real),
      60000)
  }

  predicate BelowOne(value: Option<real>) {
    value.Some? && 0.0 < value.value < 1.0
  }

  /** Every loaded configuration is usable, and every bucket can hold a token unless a setting lies
      strictly between zero and one: such a setting is floored to an empty bucket. */
  lemma LoadedConfig(env: Environment)
    ensures LoadRateLimitConfig(env).Valid()
    ensures (forall scope :: CapacityFor(LoadRateLimitConfig(env), scope) >= 1.0)
      <==> !(BelowOne(env.perUser) || BelowOne(env.perIp) || BelowOne(env.perCompany)
             || BelowOne(env.portalRead) || BelowOne(env.portalWrite))
  {
    var config := LoadRateLimitConfig(env);
    assert CapacityFor(config, User) >= 1.0 <==> !BelowOne(env.perUser);
    assert CapacityFor(config, Ip) >= 1.0 <==> !BelowOne(env.perIp);
    assert CapacityFor(config, Company) >= 1.0 <==> !BelowOne(env.perCompany);
    assert CapacityFor(config, PortalRead) >= 1.0 <==> !BelowOne(env.portalRead);
    assert CapacityFor(config, PortalWrite) >= 1.0 <==> !BelowOne(env.portalWrite);
  }

  function Setting(env: Environment, scope: Scope): Option<real> {
    match scope
    case User => env.perUser
    case Ip => env.perIp
    case Company => env.perCompany
    case PortalRead => env.portalRead
    case PortalWrite => env.portalWrite
  }

  /** Under a setting between zero and one every call of its scope is denied for ever, with the advice
      that comes of dividing by a zero rate, whatever the bucket held; under any other setting the
      first call of a key is admitted. */
  lemma SettingDecides(env: Environment, scope: Scope, state: State, key: string, now: int)
    ensures var config := LoadRateLimitConfig(env);
      (BelowOne(Setting(env, scope)) ==>
        Consume(config, state, Call(scope, key, now)).1 == Denied(Never, 0.0, scope, key))
      && (!BelowOne(Setting(env, scope)) && BucketAt(state, BucketKey(scope, key)).None? ==>
        Consume(config, state, Call(scope, key, now)).1.Allowed?)
  {
    LoadedConfig(env);
    var config := LoadRateLimitConfig(env);
    RateFacts(config, scope);
    assert CapacityFor(config, scope) >= 1.0 <==> !BelowOne(Setting(env, scope));
    assert BelowOne(Setting(env, scope)) ==> CapacityFor(config, scope) == 0.0 && RefillRate(config, scope) == 0.0;
  }

  const HALF := Environment(Some(0.5), None, None, None, None)

  /** With a setting of 0.5 for users, every call of every run on every user's bucket is denied for ever. */
  lemma {:induction false} HalfAdmitsNobody(state: State, calls: seq<Call>, i: nat)
    requires i < |calls| && calls[i].scope == User
    ensures |Run(LoadRateLimitConfig(HALF), state, calls).1| == |calls|
    ensures Run(LoadRateLimitConfig(HALF), state, calls).1[i] == Denied(Never, 0.0, User, calls[i].key)
    decreases |calls|
  {
    RunLength(LoadRateLimitConfig(HALF), state, calls);
    if i == 0 {
      SettingDecides(HALF, User, state, calls[0].key, calls[0].now);
    } else {
      HalfAdmitsNobody(Consume(LoadRateLimitConfig(HALF), state, calls[0]).0, calls[1..], i - 1);
    }
  }

  // ---------- refilling in steps ----------

  /** Refilling in two steps gives what one step gives, so a denied probe costs nothing. */
  lemma RefillStepsAddUp(capacity: real, rate: real, bucket: Bucket, mid: int, end: int)
    requires rate >= 0.0 && bucket.updatedAt <= mid <= end
    ensures Refilled(capacity, rate, Bucket(Refilled(capacity, rate, bucket, mid), mid), end) == Refilled(capacity, rate, bucket, end)
  {
    InflowAdds(rate, mid - bucket.updatedAt, end - mid);
    InflowMonotone(rate, 0, end - mid);
  }

  /** No call of the run on (scope, key) was admitted. */
  predicate NoneAdmitted(calls: seq<Call>, decisions: seq<Decision>, scope: Scope, key: string)
    requires |calls| == |decisions|
  {
    forall i :: 0 <= i < |calls| && Concerns(calls[i], scope, key) ==> decisions[i].Denied?
  }

  lemma DeniedCallKeepsLevels(config: Config, state: State, call: Call, scope: Scope, key: string, bucket: Bucket, now: int)
    requires config.Valid() && Sane(config, state, now) && bucket.updatedAt <= now <= call.now
    requires SameLevels(config, scope, BucketAt(state, BucketKey(scope, key)), Some(bucket), now)
    requires Concerns(call, scope, key) ==> Consume(config, state, call).1.Denied?
    ensures SameLevels(config, scope, BucketAt(Consume(config, state, call).0, BucketKey(scope, key)), Some(bucket), call.now)
  {
    LoneStep(config, state, call, scope, key, Some(bucket), now);
    RateFacts(config, scope);
    var capacity, rate := CapacityFor(config, scope), RefillRate(config, scope);
    if Concerns(call, scope, key) {
      var level := Refilled(capacity, rate, bucket, call.now);
      assert LoneDecision(config, scope, key, Some(bucket), call)[0] == Consume(config, state, call).1;
      assert level < 1.0;
      forall t | t >= call.now
        ensures Level(capacity, rate, Some(Bucket(level, call.now)), t) == Level(capacity, rate, Some(bucket), t)
      {
        RefillStepsAddUp(capacity, rate, bucket, call.now, t);
      }
    }
  }

  lemma {:induction false} ProbesKeepLevels(config: Config, state: State, probes: seq<Call>, scope: Scope, key: string,
      bucket: Bucket, now: int, end: int)
    requires config.Valid() && Sane(config, state, now) && ClockedFrom(probes, now) && bucket.updatedAt <= now <= end
    requires forall i :: 0 <= i < |probes| ==> probes[i].now <= end
    requires SameLevels(config, scope, BucketAt(state, BucketKey(scope, key)), Some(bucket), now)
    requires |Run(config, state, probes).1| == |probes| && NoneAdmitted(probes, Run(config, state, probes).1, scope, key)
    ensures Sane(config, Run(config, state, probes).0, end)
    ensures SameLevels(config, scope, BucketAt(Run(config, state, probes).0, BucketKey(scope, key)), Some(bucket), end)
    decreases |probes|
  {
    if probes == [] {
      SaneLater(config, state, now, end);
    } else {
      var call, rest := probes[0], probes[1..];
      var (state1, decision) := Consume(config, state, call);
      RunUnfolds(config, state, probes, scope, key);
      var decisions, later := Run(config, state, probes).1, Run(config, state1, rest).1;
      assert decisions[0] == decision;
      forall i | 0 <= i < |rest| && Concerns(rest[i], scope, key) ensures later[i].Denied? {
        assert decisions[i + 1] == later[i] && probes[i + 1] == rest[i];
      }
      DeniedCallKeepsLevels(config, state, call, scope, key, bucket, now);
      ConsumeSane(config, state, call, now);
      assert ClockedFrom(rest, call.now);
      ProbesKeepLevels(config, state1, rest, scope, key, bucket, call.now, end);
    }
  }

  // ---------- the advice ----------

  /** With a positive rate, the advised number of seconds is the least one that brings a bucket
      below one token up to one token. */
  lemma AdviceIsLeast(level: real, rate: real, m: nat)
    requires level < 1.0 && rate > 0.0
    ensures Advice(level, rate).Seconds? && Advice(level, rate).seconds >= 1
    ensures level + Inflow(rate, 1000 * m) >= 1.0 <==> m >= Advice(level, rate).seconds
  {
    var wait := (1.0 - level) / rate;
    assert wait * rate == 1.0 - level;
    var ms := Ceil(wait);
    var seconds := Ceil(ms as real / 1000.0);
    assert seconds >= 1;
    assert m >= seconds <==> 1000 * m >= ms;
    assert 1000 * m >= ms <==> (1000 * m) as real >= wait;
    EnoughInflow(level, rate, wait, 1000 * m);
  }

  lemma EnoughInflow(level: real, rate: real, wait: real, elapsed: int)
    requires rate > 0.0 && wait * rate == 1.0 - level
    ensures level + Inflow(rate, elapsed) >= 1.0 <==> elapsed as real >= wait
  {
    var gap := elapsed as real - wait;
    assert gap * rate == elapsed as real * rate - wait * rate;
  }

  /** A call `m` whole seconds after a denial, with any calls in between but none admitted on this
      key, is admitted exactly when the bucket can hold a token at all and `m` has reached the
      advice.  In particular a bucket that can hold a token always gets advice in seconds. */
  lemma RetryAfterExact(config: Config, state: State, call: Call, probes: seq<Call>, now: int, m: nat)
    requires config.Valid() && Sane(config, state, now) && now <= call.now
    requires Consume(config, state, call).1.Denied?
    requires ClockedFrom(probes, call.now) && forall i :: 0 <= i < |probes| ==> probes[i].now <= call.now + 1000 * m
    requires var (after, _) := Consume(config, state, call);
      |Run(config, after, probes).1| == |probes| && NoneAdmitted(probes, Run(config, after, probes).1, call.scope, call.key)
    ensures var (after, denial) := Consume(config, state, call);
      Consume(config, Run(config, after, probes).0, Call(call.scope, call.key, call.now + 1000 * m)).1.Allowed?
      <==> CapacityFor(config, call.scope) >= 1.0 && denial.retryAfter.Seconds? && m >= denial.retryAfter.seconds
  {
    var capacity, rate := CapacityFor(config, call.scope), RefillRate(config, call.scope);
    var composite := BucketKey(call.scope, call.key);
    RateFacts(config, call.scope);
    ConsumeSane(config, state, call, now);
    var (after, denial) := Consume(config, state, call);
    var level := Level(capacity, rate, BucketAt(Swept(config, state, call.now), composite), call.now);
    LevelBounds(config, call.scope, BucketAt(Swept(config, state, call.now), composite), call.now);
    var bucket, end := Bucket(level, call.now), call.now + 1000 * m;
    assert BucketAt(after, composite) == Some(bucket);
    ProbesKeepLevels(config, after, probes, call.scope, call.key, bucket, call.now, end);
    var last := Run(config, after, probes).0;
    SameKeyStep(config, last, Call(call.scope, call.key, end), Some(bucket), end);
    assert end - call.now == 1000 * m;
    if rate > 0.0 {
      AdviceIsLeast(level, rate, m);
    }
  }

  /** The advice is never a whole second longer than a wait that would have been enough. */
  lemma AdviceIsTight(level: real, rate: real, elapsed: int)
    requires level < 1.0 && rate > 0.0 && level + Inflow(rate, elapsed) >= 1.0
    ensures Advice(level, rate).Seconds? && 1000 * Advice(level, rate).seconds < elapsed + 1000
  {
    AdviceIsLeast(level, rate, 0);
    var m := Advice(level, rate).seconds - 1;
    AdviceIsLeast(level, rate, m);
    if elapsed <= 1000 * m {
      InflowMonotone(rate, elapsed, 1000 * m);
    }
  }

  // ---------- whole requests ----------

  /** What reaches the limiter: a request, or a check of a portal share token.  Both share its buckets
      and its sweep. */
  datatype Hit = Api(request: Request) | Portal(token: string, write: bool, now: int)

  function EnforceHit(config: Config, state: State, hit: Hit): (State, Option<Decision>)
    requires config.windowMs > 0
  {
    match hit
    case Api(request) => EnforceRequest(config, state, request)
    case Portal(token, write, now) => EnforcePortalToken(config, state, token, write, now)
  }

  function RunHits(config: Config, state: State, hits: seq<Hit>): (State, seq<Option<Decision>>)
    requires config.windowMs > 0
    decreases |hits|
  {
    if hits == [] then (state, [])
    else
      var (state1, outcome) := EnforceHit(config, state, hits[0]);
      var (state2, outcomes) := RunHits(config, state1, hits[1..]);
      (state2, [outcome] + outcomes)
  }

  /** The bucket calls one request makes. */
  function CallsOfRequest(config: Config, state: State, request: Request): seq<Call>
    requires config.windowMs > 0
  {
    if IsRateLimitExempt(request.pathname) then []
    else if CompanyOf(request).Some? then
      var company := Call(Company, CompanyOf(request).value, request.now);
      if Consume(config, state, company).1.Denied? then [company] else [company, CallerCall(request)]
    else [CallerCall(request)]
  }

  function PortalScope(write: bool): Scope {
    if write then PortalWrite else PortalRead
  }

  function CallsOfHit(config: Config, state: State, hit: Hit): seq<Call>
    requires config.windowMs > 0
  {
    match hit
    case Api(request) => CallsOfRequest(config, state, request)
    case Portal(token, write, now) => if Trim(token) == "" then [] else [Call(PortalScope(write), Trim(token), now)]
  }

  function CallsOf(config: Config, state: State, hits: seq<Hit>): seq<Call>
    requires config.windowMs > 0
    decreases |hits|
  {
    if hits == [] then []
    else CallsOfHit(config, state, hits[0]) + CallsOf(config, EnforceHit(config, state, hits[0]).0, hits[1..])
  }

  /** The first and the last clock reading of a hit. */
  function Begins(hit: Hit): int {
    if hit.Api? then hit.request.now else hit.now
  }

  function Ends(hit: Hit): int {
    if hit.Api? then hit.request.then_ else hit.now
  }

  predicate HitsClockedFrom(hits: seq<Hit>, since: int) {
    (forall i :: 0 <= i < |hits| ==> since <= Begins(hits[i]) <= Ends(hits[i]))
    && (forall i, j :: 0 <= i < j < |hits| ==> Ends(hits[i]) <= Begins(hits[j]))
  }

  /** The hit passes the bucket (scope, key), and when. */
  predicate Passes(hit: Hit, scope: Scope, key: string) {
    match hit
    case Api(request) =>
      !IsRateLimitExempt(request.pathname)
      && (if scope == Company then CompanyOf(request) == Some(key) else Concerns(CallerCall(request), scope, key))
    case Portal(token, write, _) => Trim(token) != "" && scope == PortalScope(write) && key == Trim(token)
  }

  function PassTime(hit: Hit, scope: Scope): int {
    if scope == Company then Begins(hit) else Ends(hit)
  }

  function LetThrough(hits: seq<Hit>, outcomes: seq<Option<Decision>>, scope: Scope, key: string, from: int, to: int): nat
    requires |hits| == |outcomes|
  {
    if hits == [] then 0
    else
      (if Passes(hits[0], scope, key) && outcomes[0].None? && from <= PassTime(hits[0], scope) <= to then 1 else 0)
      + LetThrough(hits[1..], outcomes[1..], scope, key, from, to)
  }

  /** A run is a fold of one-call steps; what follows is true of any step. */
  function Fold(step: (State, Call) -> (State, Decision), state: State, calls: seq<Call>): (State, seq<Decision>)
    decreases |calls|
  {
    if calls == [] then (state, [])
    else
      var next := step(state, calls[0]);
      var rest := Fold(step, next.0, calls[1..]);
      (rest.0, [next.1] + rest.1)
  }

  function Consumer(config: Config): (State, Call) -> (State, Decision)
    requires config.windowMs > 0
  {
    (state: State, call: Call) => Consume(config, state, call)
  }

  lemma {:induction false} RunIsFold(config: Config, state: State, calls: seq<Call>)
    requires config.windowMs > 0
    ensures Run(config, state, calls) == Fold(Consumer(config), state, calls)
    decreases |calls|
  {
    if calls != [] {
      RunIsFold(config, Consume(config, state, calls[0]).0, calls[1..]);
    }
  }

  lemma {:induction false} FoldAppends(step: (State, Call) -> (State, Decision), state: State, a: seq<Call>, b: seq<Call>)
    ensures var first := Fold(step, state, a);
      var second := Fold(step, first.0, b);
      Fold(step, state, a + b) == (second.0, first.1 + second.1) && |first.1| == |a|
    decreases |a|
  {
    if a == [] {
      assert a + b == b;
      assert [] + Fold(step, state, b).1 == Fold(step, state, b).1;
    } else {
      var next := step(state, a[0]);
      assert (a + b)[0] == a[0] && (a + b)[1..] == a[1..] + b;
      FoldAppends(step, next.0, a[1..], b);
      var first := Fold(step, next.0, a[1..]);
      var second := Fold(step, first.0, b);
      assert [next.1] + (first.1 + second.1) == ([next.1] + first.1) + second.1;
    }
  }

  lemma RunAppends(config: Config, state: State, a: seq<Call>, b: seq<Call>)
    requires config.windowMs > 0
    ensures var (state1, first) := Run(config, state, a);
      var (state2, second) := Run(config, state1, b);
      Run(config, state, a + b) == (state2, first + second) && |first| == |a| && |second| == |b|
  {
    var step := Consumer(config);
    RunIsFold(config, state, a);
    RunIsFold(config, Run(config, state, a).0, b);
    RunIsFold(config, state, a + b);
    FoldAppends(step, state, a, b);
    RunLength(config, Run(config, state, a).0, b);
  }

  lemma {:induction false} AdmittedAppends(a: seq<Call>, da: seq<Decision>, b: seq<Call>, db: seq<Decision>, scope: Scope,
      key: string, from: int, to: int)
    requires |a| == |da| && |b| == |db|
    ensures AdmittedWithin(a + b, da + db, scope, key, from, to)
      == AdmittedWithin(a, da, scope, key, from, to) + AdmittedWithin(b, db, scope, key, from, to)
    decreases |a|
  {
    if a == [] {
      assert a + b == b && da + db == db;
    } else {
      assert (a + b)[0] == a[0] && (a + b)[1..] == a[1..] + b;
      assert (da + db)[0] == da[0] && (da + db)[1..] == da[1..] + db;
      AdmittedAppends(a[1..], da[1..], b, db, scope, key, from, to);
    }
  }

  /** The calls of a hit, run one after the other, leave its state; when it is let through, the call
      on the bucket it passes was admitted. */
  ghost predicate IsItsCalls(config: Config, state: State, hit: Hit, scope: Scope, key: string, from: int, to: int)
    requires config.windowMs > 0
  {
    var calls := CallsOfHit(config, state, hit);
    var (after, decisions) := Run(config, state, calls);
    var (expected, outcome) := EnforceHit(config, state, hit);
    |decisions| == |calls| && after == expected
    && (if Passes(hit, scope, key) && outcome.None? && from <= PassTime(hit, scope) <= to then 1 else 0)
       <= AdmittedWithin(calls, decisions, scope, key, from, to)
  }

  lemma RequestIsItsCalls(config: Config, state: State, request: Request, scope: Scope, key: string, from: int, to: int)
    requires config.windowMs > 0
    ensures IsItsCalls(config, state, Api(request), scope, key, from, to)
  {
    var calls := CallsOfRequest(config, state, request);
    RunLength(config, state, calls);
    var decisions := Run(config, state, calls).1;
    if calls != [] {
      var (state1, first) := Consume(config, state, calls[0]);
      assert decisions[0] == first;
      if |calls| == 1 {
        assert calls[1..] == [] && decisions[1..] == [];
      } else {
        var second := Consume(config, state1, calls[1]);
        assert calls[1..] == [calls[1]];
        assert calls[1..][1..] == [];
        assert Run(config, state1, calls[1..]) == (second.0, [second.1] + []);
        assert decisions[1..] == [second.1];
        assert decisions[1..][1..] == [];
      }
    }
  }

  lemma PortalIsItsCall(config: Config, state: State, token: string, write: bool, now: int, scope: Scope, key: string, from: int, to: int)
    requires config.windowMs > 0
    ensures IsItsCalls(config, state, Portal(token, write, now), scope, key, from, to)
  {
    var calls := CallsOfHit(config, state, Portal(token, write, now));
    RunLength(config, state, calls);
    if calls != [] {
      var first := Consume(config, state, calls[0]);
      assert calls[1..] == [];
      assert Run(config, state, calls) == (first.0, [first.1] + []);
      assert [first.1][1..] == [];
    }
  }

  lemma HitIsItsCalls(config: Config, state: State, hit: Hit, scope: Scope, key: string, from: int, to: int)
    requires config.windowMs > 0
    ensures IsItsCalls(config, state, hit, scope, key, from, to)
  {
    match hit
    case Api(request) => RequestIsItsCalls(config, state, request, scope, key, from, to);
    case Portal(token, write, now) => PortalIsItsCall(config, state, token, write, now, scope, key, from, to);
  }

  lemma {:induction false} HitsAreTheirCalls(config: Config, state: State, hits: seq<Hit>, scope: Scope,
      key: string, from: int, to: int)
    requires config.windowMs > 0
    ensures var calls := CallsOf(config, state, hits);
      var (after, decisions) := Run(config, state, calls);
      var (expected, outcomes) := RunHits(config, state, hits);
      |decisions| == |calls| && |outcomes| == |hits| && after == expected
      && LetThrough(hits, outcomes, scope, key, from, to) <= AdmittedWithin(calls, decisions, scope, key, from, to)
    decreases |hits|
  {
    if hits != [] {
      var hit, rest := hits[0], hits[1..];
      var (state1, outcome) := EnforceHit(config, state, hit);
      var mine, others := CallsOfHit(config, state, hit), CallsOf(config, state1, rest);
      HitIsItsCalls(config, state, hit, scope, key, from, to);
      HitsAreTheirCalls(config, state1, rest, scope, key, from, to);
      RunAppends(config, state, mine, others);
      AdmittedAppends(mine, Run(config, state, mine).1, others, Run(config, state1, others).1, scope, key, from, to);
      var outcomes := RunHits(config, state, hits).1;
      assert outcomes[0] == outcome && outcomes[1..] == RunHits(config, state1, rest).1;
    }
  }

  lemma ClockedAppends(a: seq<Call>, b: seq<Call>, since: int, until: int)
    requires ClockedFrom(a, since) && ClockedFrom(b, until) && since <= until
    requires forall i :: 0 <= i < |a| ==> a[i].now <= until
    ensures ClockedFrom(a + b, since)
  {
  }

  lemma {:induction false} CallsClocked(config: Config, state: State, hits: seq<Hit>, since: int)
    requires config.windowMs > 0 && HitsClockedFrom(hits, since)
    ensures ClockedFrom(CallsOf(config, state, hits), since)
    decreases |hits|
  {
    if hits != [] {
      var state1 := EnforceHit(config, state, hits[0]).0;
      CallsClocked(config, state1, hits[1..], Ends(hits[0]));
      ClockedAppends(CallsOfHit(config, state, hits[0]), CallsOf(config, state1, hits[1..]), since, Ends(hits[0]));
    }
  }

  /** All limits hold at once over every run of requests and portal checks: a tenant is let through at
      most as often as its bucket allows, whichever users and addresses it comes from, and so is every
      user, every address, and every share token for its reads and for its writes. */
  lemma RequestBound(config: Config, started: int, hits: seq<Hit>, scope: Scope, key: string, from: int, to: int)
    requires config.Valid() && HitsClockedFrom(hits, started) && from <= to
    ensures |RunHits(config, State(map[], started), hits).1| == |hits|
    ensures LetThrough(hits, RunHits(config, State(map[], started), hits).1, scope, key, from, to) as real
      <= CapacityFor(config, scope) + Inflow(RefillRate(config, scope), to - from)
  {
    var empty := State(map[], started);
    HitsAreTheirCalls(config, empty, hits, scope, key, from, to);
    CallsClocked(config, empty, hits, started);
    AdmissionBound(config, started, CallsOf(config, empty, hits), scope, key, from, to);
  }
}
