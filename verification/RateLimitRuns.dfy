/** What the rate limiter guarantees over whole runs: the idle sweep and the other keys are
    invisible, every interval admits a bounded number of calls, and the Retry-After advice is the
    least whole number of seconds that helps. */
module RateLimitRuns {
  import opened Basics
  import opened RateLimit

  // ---------- runs ----------

  function Run(config: Config, state: State, calls: seq<Call>): (State, seq<Decision>)
    requires config.windowMs > 0
    decreases |calls|
  {
    if calls == [] then (state, [])
    else
      var (state1, decision) := Consume(config, state, calls[0]);
      var (state2, decisions) := Run(config, state1, calls[1..]);
      (state2, [decision] + decisions)
  }

  /** The decisions of one bucket on its own, never evicted. */
  function LoneRun(config: Config, scope: Scope, key: string, bucket: Option<Bucket>, times: seq<int>): seq<Decision>
    requires config.windowMs > 0
    decreases |times|
  {
    if times == [] then []
    else
      var capacity, rate := CapacityFor(config, scope), RefillRate(config, scope);
      var level := Level(capacity, rate, bucket, times[0]);
      [Decide(level, rate, capacity, Call(scope, key, times[0]))]
      + LoneRun(config, scope, key, Some(Drained(level, times[0])), times[1..])
  }

  predicate Concerns(call: Call, scope: Scope, key: string) {
    call.scope == scope && call.key == key
  }

  function TimesOf(calls: seq<Call>, scope: Scope, key: string): seq<int> {
    if calls == [] then []
    else (if Concerns(calls[0], scope, key) then [calls[0].now] else []) + TimesOf(calls[1..], scope, key)
  }

  function DecisionsOf(calls: seq<Call>, decisions: seq<Decision>, scope: Scope, key: string): seq<Decision>
    requires |calls| == |decisions|
  {
    if calls == [] then []
    else (if Concerns(calls[0], scope, key) then [decisions[0]] else []) + DecisionsOf(calls[1..], decisions[1..], scope, key)
  }

  /** The clock never runs backwards, starting from `since`. */
  predicate ClockedFrom(calls: seq<Call>, since: int) {
    (forall i :: 0 <= i < |calls| ==> since <= calls[i].now)
    && (forall i, j :: 0 <= i < j < |calls| ==> calls[i].now <= calls[j].now)
  }

  predicate SortedFrom(times: seq<int>, since: int) {
    (forall i :: 0 <= i < |times| ==> since <= times[i])
    && (forall i, j :: 0 <= i < j < |times| ==> times[i] <= times[j])
  }

  predicate SaneBucket(capacity: real, bucket: Bucket, now: int) {
    0.0 <= bucket.tokens <= capacity && bucket.updatedAt <= now
  }

  /** Every bucket holds between nothing and its capacity and was written no later than `now`. */
  ghost predicate Sane(config: Config, state: State, now: int) {
    forall scope, key :: BucketKey(scope, key) in state.buckets ==>
      SaneBucket(CapacityFor(config, scope), state.buckets[BucketKey(scope, key)], now)
  }

  /** From `now` on, the two buckets offer the same tokens. */
  ghost predicate SameLevels(config: Config, scope: Scope, a: Option<Bucket>, b: Option<Bucket>, now: int)
    requires config.windowMs > 0
  {
    forall t :: t >= now ==>
      Level(CapacityFor(config, scope), RefillRate(config, scope), a, t) == Level(CapacityFor(config, scope),
          RefillRate(config, scope), b, t)
  }

  // ---------- arithmetic of the refill ----------

  lemma InflowAdds(rate: real, a: int, b: int)
    ensures Inflow(rate, a) + Inflow(rate, b) == Inflow(rate, a + b)
  {
    assert (a + b) as real == a as real + b as real;
  }

  lemma InflowMonotone(rate: real, a: int, b: int)
    requires rate >= 0.0 && a <= b
    ensures Inflow(rate, a) <= Inflow(rate, b)
  {
    assert (b - a) as real >= 0.0;
    assert (b - a) as real * rate >= 0.0;
    InflowAdds(rate, a, b - a);
  }

  lemma RateFacts(config: Config, scope: Scope)
    requires config.Valid()
    ensures RefillRate(config, scope) >= 0.0
    ensures Inflow(RefillRate(config, scope), config.windowMs) == CapacityFor(config, scope)
    ensures RefillRate(config, scope) == 0.0 <==> CapacityFor(config, scope) == 0.0
  {
    var capacity, window := CapacityFor(config, scope), config.windowMs as real;
    assert window > 0.0;
    assert capacity / window * window == capacity;
  }

  lemma LevelBounds(config: Config, scope: Scope, bucket: Option<Bucket>, now: int)
    requires config.Valid()
    requires bucket.Some? ==> SaneBucket(CapacityFor(config, scope), bucket.value, now)
    ensures 0.0 <= Level(CapacityFor(config, scope), RefillRate(config, scope), bucket, now) <= CapacityFor(config, scope)
  {
    RateFacts(config, scope);
    var rate := RefillRate(config, scope);
    InflowMonotone(rate, 0, if bucket.Some? then now - bucket.value.updatedAt else 0);
  }

  lemma BucketKeyInjective(a: Scope, k: string, b: Scope, l: string)
    requires BucketKey(a, k) == BucketKey(b, l)
    ensures a == b && k == l
  {
    CompositeInjective(ScopeName(a), k, ScopeName(b), l);
  }

  // ---------- the sweep and the other keys are invisible ----------

  /** A bucket the sweep forgets had refilled completely, so forgetting it changes no level. */
  lemma SweepKeepsLevels(config: Config, state: State, scope: Scope, key: string, now: int)
    requires config.Valid() && Sane(config, state, now)
    ensures SameLevels(config, scope, BucketAt(Swept(config, state, now), BucketKey(scope, key)), BucketAt(state,
        BucketKey(scope, key)), now)
  {
    var composite := BucketKey(scope, key);
    var capacity, rate := CapacityFor(config, scope), RefillRate(config, scope);
    RateFacts(config, scope);
    if composite in state.buckets && composite !in Swept(config, state, now).buckets {
      var bucket := state.buckets[composite];
      forall t | t >= now
        ensures Level(capacity, rate, Some(bucket), t) == Level(capacity, rate, None, t)
      {
        InflowMonotone(rate, config.windowMs, t - bucket.updatedAt);
      }
    }
  }

  lemma ConsumeSane(config: Config, state: State, call: Call, now: int)
    requires config.Valid() && Sane(config, state, now) && now <= call.now
    ensures Sane(config, Consume(config, state, call).0, call.now)
  {
    var swept, after := Swept(config, state, call.now), Consume(config, state, call).0;
    var written := BucketKey(call.scope, call.key);
    LevelBounds(config, call.scope, BucketAt(swept, written), call.now);
    forall scope, key | BucketKey(scope, key) in after.buckets
      ensures SaneBucket(CapacityFor(config, scope), after.buckets[BucketKey(scope, key)], call.now)
    {
      if BucketKey(scope, key) == written {
        BucketKeyInjective(scope, key, call.scope, call.key);
      }
    }
  }

  /** A call on another key moves no level of this one. */
  lemma OtherKeyKeepsLevels(config: Config, state: State, call: Call, scope: Scope, key: string, now: int)
    requires config.Valid() && Sane(config, state, now) && now <= call.now
    requires !Concerns(call, scope, key)
    ensures SameLevels(config, scope,
      BucketAt(Consume(config, state, call).0, BucketKey(scope, key)), BucketAt(state, BucketKey(scope, key)), call.now)
  {
    if BucketKey(scope, key) == BucketKey(call.scope, call.key) {
      BucketKeyInjective(scope, key, call.scope, call.key);
    }
    SaneLater(config, state, now, call.now);
    SweepKeepsLevels(config, state, scope, key, call.now);
  }

  lemma SaneLater(config: Config, state: State, now: int, later: int)
    requires Sane(config, state, now) && now <= later
    ensures Sane(config, state, later)
  {
  }

  /** A call on this key finds the level of the lone bucket and leaves the lone bucket's content. */
  lemma SameKeyStep(config: Config, state: State, call: Call, bucket: Option<Bucket>, now: int)
    requires config.Valid() && Sane(config, state, now) && now <= call.now
    requires SameLevels(config, call.scope, BucketAt(state, BucketKey(call.scope, call.key)), bucket, now)
    ensures var capacity, rate := CapacityFor(config, call.scope), RefillRate(config, call.scope);
      var level := Level(capacity, rate, bucket, call.now);
      Consume(config, state, call).1 == Decide(level, rate, capacity, call)
      && BucketAt(Consume(config, state, call).0, BucketKey(call.scope, call.key)) == Some(Drained(level, call.now))
  {
    SaneLater(config, state, now, call.now);
    SweepKeepsLevels(config, state, call.scope, call.key, call.now);
    var composite := BucketKey(call.scope, call.key);
    var capacity, rate := CapacityFor(config, call.scope), RefillRate(config, call.scope);
    assert Level(capacity, rate, BucketAt(Swept(config, state, call.now), composite), call.now)
        == Level(capacity, rate, BucketAt(state, composite), call.now)
        == Level(capacity, rate, bucket, call.now);
  }

  lemma {:induction false} RunLength(config: Config, state: State, calls: seq<Call>)
    requires config.windowMs > 0
    ensures |Run(config, state, calls).1| == |calls|
    decreases |calls|
  {
    if calls != [] {
      RunLength(config, Consume(config, state, calls[0]).0, calls[1..]);
    }
  }

  /** How one more call at the front shows up in the run and in its projections to a key. */
  lemma RunUnfolds(config: Config, state: State, calls: seq<Call>, scope: Scope, key: string)
    requires config.windowMs > 0 && calls != []
    ensures var (state1, decision) := Consume(config, state, calls[0]);
      var rest := Run(config, state1, calls[1..]).1;
      |rest| == |calls[1..]| && Run(config, state, calls).1 == [decision] + rest
      && DecisionsOf(calls, [decision] + rest, scope, key)
         == (if Concerns(calls[0], scope, key) then [decision] else []) + DecisionsOf(calls[1..], rest, scope, key)
  {
    var (state1, decision) := Consume(config, state, calls[0]);
    RunLength(config, state1, calls[1..]);
    var rest := Run(config, state1, calls[1..]).1;
    assert ([decision] + rest)[1..] == rest;
  }

  /** The lone bucket after a call: untouched unless the call concerns it. */
  function LoneNext(config: Config, scope: Scope, key: string, bucket: Option<Bucket>, call: Call): Option<Bucket>
    requires config.windowMs > 0
  {
    if Concerns(call, scope, key)
    then Some(Drained(Level(CapacityFor(config, scope), RefillRate(config, scope), bucket, call.now), call.now))
    else bucket
  }

  function LoneDecision(config: Config, scope: Scope, key: string, bucket: Option<Bucket>, call: Call): seq<Decision>
    requires config.windowMs > 0
  {
    var capacity, rate := CapacityFor(config, scope), RefillRate(config, scope);
    if Concerns(call, scope, key) then [Decide(Level(capacity, rate, bucket, call.now), rate, capacity, call)] else []
  }

  lemma LoneStep(config: Config, state: State, call: Call, scope: Scope, key: string, bucket: Option<Bucket>, now: int)
    requires config.Valid() && Sane(config, state, now) && now <= call.now
    requires SameLevels(config, scope, BucketAt(state, BucketKey(scope, key)), bucket, now)
    ensures var (state1, decision) := Consume(config, state, call);
      Sane(config, state1, call.now)
      && SameLevels(config, scope, BucketAt(state1, BucketKey(scope, key)), LoneNext(config, scope, key, bucket, call), call.now)
      && LoneDecision(config, scope, key, bucket, call) == if Concerns(call, scope, key) then [decision] else []
  {
    ConsumeSane(config, state, call, now);
    if Concerns(call, scope, key) {
      SameKeyStep(config, state, call, bucket, now);
    } else {
      OtherKeyKeepsLevels(config, state, call, scope, key, now);
    }
  }

  lemma LoneUnfolds(config: Config, scope: Scope, key: string, bucket: Option<Bucket>, calls: seq<Call>)
    requires config.windowMs > 0 && calls != []
    ensures LoneRun(config, scope, key, bucket, TimesOf(calls, scope, key))
      == LoneDecision(config, scope, key, bucket, calls[0])
         + LoneRun(config, scope, key, LoneNext(config, scope, key, bucket, calls[0]), TimesOf(calls[1..], scope, key))
  {
    var times, rest := TimesOf(calls, scope, key), TimesOf(calls[1..], scope, key);
    if Concerns(calls[0], scope, key) {
      assert times[0] == calls[0].now && times[1..] == rest;
    } else {
      assert times == rest;
    }
  }

  /** Whatever other keys are called and whenever sweeps happen, the decisions for one (scope, key)
      are those of a lone bucket that is never evicted. */
  lemma {:induction false} RunIsLone(config: Config, state: State, calls: seq<Call>, scope: Scope, key: string,
      bucket: Option<Bucket>, now: int)
    requires config.Valid() && Sane(config, state, now) && ClockedFrom(calls, now)
    requires SameLevels(config, scope, BucketAt(state, BucketKey(scope, key)), bucket, now)
    ensures |Run(config, state, calls).1| == |calls|
    ensures DecisionsOf(calls, Run(config, state, calls).1, scope, key) == LoneRun(config, scope, key, bucket, TimesOf(calls, scope, key))
    decreases |calls|
  {
    RunLength(config, state, calls);
    if calls != [] {
      RunUnfolds(config, state, calls, scope, key);
      LoneUnfolds(config, scope, key, bucket, calls);
      LoneStep(config, state, calls[0], scope, key, bucket, now);
      RunIsLone(config, Consume(config, state, calls[0]).0, calls[1..], scope, key,
        LoneNext(config, scope, key, bucket, calls[0]), calls[0].now);
    }
  }

  /** From an empty limiter the lone bucket starts full. */
  lemma EvictionInvisible(config: Config, started: int, calls: seq<Call>, scope: Scope, key: string)
    requires config.Valid() && ClockedFrom(calls, started)
    ensures |Run(config, State(map[], started), calls).1| == |calls|
    ensures DecisionsOf(calls, Run(config, State(map[], started), calls).1, scope, key)
         == LoneRun(config, scope, key, None, TimesOf(calls, scope, key))
  {
    RunIsLone(config, State(map[], started), calls, scope, key, None, started);
  }

  // ---------- the admission bound ----------

  /** Calls on (scope, key) that were admitted between `from` and `to`, both included. */
  function AdmittedWithin(calls: seq<Call>, decisions: seq<Decision>, scope: Scope, key: string, from: int, to: int): nat
    requires |calls| == |decisions|
  {
    if calls == [] then 0
    else
      (if Concerns(calls[0], scope, key) && decisions[0].Allowed? && from <= calls[0].now <= to then 1 else 0)
      + AdmittedWithin(calls[1..], decisions[1..], scope, key, from, to)
  }

  function LoneAdmitted(times: seq<int>, decisions: seq<Decision>, from: int, to: int): nat
    requires |times| == |decisions|
  {
    if times == [] then 0
    else
      (if decisions[0].Allowed? && from <= times[0] <= to then 1 else 0)
      + LoneAdmitted(times[1..], decisions[1..], from, to)
  }

  lemma {:induction false} AdmittedIsLone(calls: seq<Call>, decisions: seq<Decision>, scope: Scope, key: string, from: int, to: int)
    requires |calls| == |decisions|
    ensures |TimesOf(calls, scope, key)| == |DecisionsOf(calls, decisions, scope, key)|
    ensures AdmittedWithin(calls, decisions, scope, key, from, to)
         == LoneAdmitted(TimesOf(calls, scope, key), DecisionsOf(calls, decisions, scope, key), from, to)
  {
    if calls != [] {
      AdmittedIsLone(calls[1..], decisions[1..], scope, key, from, to);
      var times, mine := TimesOf(calls, scope, key), DecisionsOf(calls, decisions, scope, key);
      if Concerns(calls[0], scope, key) {
        assert times[1..] == TimesOf(calls[1..], scope, key);
        assert mine[1..] == DecisionsOf(calls[1..], decisions[1..], scope, key);
      } else {
        assert times == TimesOf(calls[1..], scope, key);
        assert mine == DecisionsOf(calls[1..], decisions[1..], scope, key);
      }
    }
  }

  lemma {:induction false} TimesSorted(calls: seq<Call>, scope: Scope, key: string, since: int)
    requires ClockedFrom(calls, since)
    ensures SortedFrom(TimesOf(calls, scope, key), since)
  {
    if calls != [] {
      assert ClockedFrom(calls[1..], calls[0].now);
      TimesSorted(calls[1..], scope, key, calls[0].now);
    }
  }

  /** The potential argument: what has been admitted so far plus what is left in the bucket never
      exceeds the level at the start of the interval plus the inflow since. */
  lemma {:induction false} LoneBoundFrom(config: Config, scope: Scope, key: string, bucket: Option<Bucket>, times: seq<int>,
      from: int, to: int)
    requires config.Valid() && times != [] && from <= times[0] <= to && SortedFrom(times, times[0])
    requires bucket.Some? ==> SaneBucket(CapacityFor(config, scope), bucket.value, times[0])
    ensures |LoneRun(config, scope, key, bucket, times)| == |times|
    ensures var capacity, rate := CapacityFor(config, scope), RefillRate(config, scope);
      LoneAdmitted(times, LoneRun(config, scope, key, bucket, times), from, to) as real
      <= Level(capacity, rate, bucket, times[0]) + Inflow(rate, to - times[0])
    decreases |times|
  {
    var capacity, rate := CapacityFor(config, scope), RefillRate(config, scope);
    var level := Level(capacity, rate, bucket, times[0]);
    var next := Some(Drained(level, times[0]));
    LevelBounds(config, scope, bucket, times[0]);
    RateFacts(config, scope);
    InflowMonotone(rate, 0, to - times[0]);
    LoneLength(config, scope, key, bucket, times);
    var decisions := LoneRun(config, scope, key, bucket, times);
    assert decisions[1..] == LoneRun(config, scope, key, next, times[1..]);
    if |times| > 1 {
      if times[1] <= to {
        LoneBoundFrom(config, scope, key, next, times[1..], from, to);
        InflowAdds(rate, times[1] - times[0], to - times[1]);
      } else {
        LoneNothingAfter(times[1..], decisions[1..], from, to);
      }
    }
  }

  lemma {:induction false} LoneLength(config: Config, scope: Scope, key: string, bucket: Option<Bucket>, times: seq<int>)
    requires config.windowMs > 0
    ensures |LoneRun(config, scope, key, bucket, times)| == |times|
    decreases |times|
  {
    if times != [] {
      var level := Level(CapacityFor(config, scope), RefillRate(config, scope), bucket, times[0]);
      LoneLength(config, scope, key, Some(Drained(level, times[0])), times[1..]);
    }
  }

  lemma {:induction false} LoneNothingAfter(times: seq<int>, decisions: seq<Decision>, from: int, to: int)
    requires |times| == |decisions| && (forall i :: 0 <= i < |times| ==> to < times[i])
    ensures LoneAdmitted(times, decisions, from, to) == 0
  {
    if times != [] {
      LoneNothingAfter(times[1..], decisions[1..], from, to);
    }
  }

  lemma {:induction false} LoneBound(config: Config, scope: Scope, key: string, bucket: Option<Bucket>, times: seq<int>, from: int, to: int)
    requires config.Valid() && from <= to && (times != [] ==> SortedFrom(times, times[0]))
    requires bucket.Some? && times != [] ==> SaneBucket(CapacityFor(config, scope), bucket.value, times[0])
    ensures |LoneRun(config, scope, key, bucket, times)| == |times|
    ensures LoneAdmitted(times, LoneRun(config, scope, key, bucket, times), from, to) as real
      <= CapacityFor(config, scope) + Inflow(RefillRate(config, scope), to - from)
    decreases |times|
  {
    var capacity, rate := CapacityFor(config, scope), RefillRate(config, scope);
    RateFacts(config, scope);
    InflowMonotone(rate, 0, to - from);
    LoneLength(config, scope, key, bucket, times);
    var decisions := LoneRun(config, scope, key, bucket, times);
    if times != [] {
      LevelBounds(config, scope, bucket, times[0]);
      if times[0] < from {
        var next := Some(Drained(Level(capacity, rate, bucket, times[0]), times[0]));
        LoneBound(config, scope, key, next, times[1..], from, to);
      } else if times[0] <= to {
        LoneBoundFrom(config, scope, key, bucket, times, from, to);
        InflowMonotone(rate, to - times[0], to - from);
      } else {
        LoneNothingAfter(times, decisions, from, to);
      }
    }
  }

  /** In every run with a clock that never runs backwards, over any keys, any interval admits at
      most the capacity plus the inflow of the interval. */
  lemma AdmissionBound(config: Config, started: int, calls: seq<Call>, scope: Scope, key: string, from: int, to: int)
    requires config.Valid() && ClockedFrom(calls, started) && from <= to
    ensures |Run(config, State(map[], started), calls).1| == |calls|
    ensures AdmittedWithin(calls, Run(config, State(map[], started), calls).1, scope, key, from, to) as real
      <= CapacityFor(config, scope) + Inflow(RefillRate(config, scope), to - from)
  {
    EvictionInvisible(config, started, calls, scope, key);
    AdmittedIsLone(calls, Run(config, State(map[], started), calls).1, scope, key, from, to);
    TimesSorted(calls, scope, key, started);
    SortedFromFirst(TimesOf(calls, scope, key), started);
    LoneBound(config, scope, key, None, TimesOf(calls, scope, key), from, to);
  }

  /** A call that comes too early for the sweep. */
  lemma UnsweptCall(config: Config, state: State, call: Call, level: real)
    requires config.windowMs > 0 && call.now - state.lastSweep < config.windowMs
    requires level == Level(CapacityFor(config, call.scope), RefillRate(config, call.scope),
        BucketAt(state, BucketKey(call.scope, call.key)), call.now)
    ensures Consume(config, state, call)
      == (State(state.buckets[BucketKey(call.scope, call.key) := Drained(level, call.now)], state.lastSweep),
          Decide(level, RefillRate(config, call.scope), CapacityFor(config, call.scope), call))
  {
  }

  lemma ThreeCalls(config: Config, state: State, a: Call, b: Call, c: Call)
    requires config.windowMs > 0
    ensures var (state1, first) := Consume(config, state, a);
      var (state2, second) := Consume(config, state1, b);
      Run(config, state, [a, b, c]).1 == [first, second, Consume(config, state2, c).1]
  {
    assert [a, b, c][1..] == [b, c] && [b, c][1..] == [c] && [c][1..] == [];
    var (state1, first) := Consume(config, state, a);
    var (state2, second) := Consume(config, state1, b);
    var (state3, third) := Consume(config, state2, c);
    assert Run(config, state2, [c]) == (state3, [third] + []);
    assert Run(config, state1, [b, c]).1 == [second] + [third];
  }

  /** The clock matters: the limiter with its sweep, when a single reading lies in the past, lets two
      calls through a bucket of one token in the same millisecond. */
  lemma ClockMustNotRunBackwards(config: Config, scope: Scope, key: string)
    requires config.windowMs == 1000 && CapacityFor(config, scope) == 1.0
    ensures var calls := [Call(scope, key, 1000), Call(scope, key, 0), Call(scope, key, 1000)];
      var decisions := Run(config, State(map[], 1000), calls).1;
      |decisions| == 3 && decisions[0].Allowed? && decisions[1].Denied? && decisions[2].Allowed?
      && AdmittedWithin(calls, decisions, scope, key, 1000, 1000) as real
         > CapacityFor(config, scope) + Inflow(RefillRate(config, scope), 0)
  {
    var capacity, rate, composite := CapacityFor(config, scope), RefillRate(config, scope), BucketKey(scope, key);
    var now, past := Call(scope, key, 1000), Call(scope, key, 0);
    assert rate * 1000.0 == 1.0;
    assert Level(capacity, rate, None, 1000) == 1.0;
    UnsweptCall(config, State(map[], 1000), now, 1.0);
    var state1 := State(map[composite := Bucket(0.0, 1000)], 1000);
    assert Level(capacity, rate, Some(Bucket(0.0, 1000)), 0) == 0.0;
    UnsweptCall(config, state1, past, 0.0);
    var state2 := State(map[composite := Bucket(0.0, 0)], 1000);
    assert Inflow(rate, 1000) == 1.0;
    assert Level(capacity, rate, Some(Bucket(0.0, 0)), 1000) == 1.0;
    UnsweptCall(config, state2, now, 1.0);
    assert map[][composite := Bucket(0.0, 1000)] == state1.buckets && state1.buckets[composite := Bucket(0.0, 0)] == state2.buckets;
    ThreeCalls(config, State(map[], 1000), now, past, now);
    TwoAdmitted(now, past, Decide(1.0, rate, capacity, now), Decide(0.0, rate, capacity, past));
  }

  lemma TwoAdmitted(now: Call, past: Call, allowed: Decision, denied: Decision)
    requires allowed.Allowed? && denied.Denied?
    ensures AdmittedWithin([now, past, now], [allowed, denied, allowed], now.scope, now.key, now.now, now.now) == 2
  {
    assert [now, past, now][1..] == [past, now] && [past, now][1..] == [now] && [now][1..] == [];
    assert [allowed, denied, allowed][1..] == [denied, allowed] && [denied, allowed][1..] == [allowed] && [allowed][1..] == [];
    assert AdmittedWithin([now], [allowed], now.scope, now.key, now.now, now.now) == 1;
    assert AdmittedWithin([past, now], [denied, allowed], now.scope, now.key, now.now, now.now) == 1;
  }

  lemma SortedFromFirst(times: seq<int>, since: int)
    requires SortedFrom(times, since)
    ensures times != [] ==> SortedFrom(times, times[0])
  {
  }
}
