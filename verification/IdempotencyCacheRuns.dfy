/** The cache refines a history of sets: deletes on read and bulk evictions cannot be observed. */
module IdempotencyCacheRuns {
  import opened Basics
  import opened IdempotencyCache

  function Run(entries: Entries, calls: seq<Call>, ttl: int): (Entries, seq<Option<Response>>)
    decreases |calls|
  {
    if calls == [] then (entries, [])
    else
      var (entries1, answer) := Step(entries, calls[0], ttl);
      var (entries2, answers) := Run(entries1, calls[1..], ttl);
      (entries2, [answer] + answers)
  }

  /** The last response set for (company, key) since the last clear, and when it was set. */
  function LastSet(history: seq<Call>, company: string, key: string): Option<(Response, int)> {
    if history == [] then None
    else
      var last := history[|history| - 1];
      if last.Clear? then None
      else if last.Set? && last.company == company && last.key == key then Some((last.response, last.now))
      else LastSet(history[..|history| - 1], company, key)
  }

  /** What the documentation promises: the last response set, while its age is under the TTL. */
  function Promised(history: seq<Call>, company: string, key: string, now: int, ttl: int): Option<Response> {
    var last := LastSet(history, company, key);
    if last.Some? && now - last.value.1 < ttl then Some(last.value.0) else None
  }

  predicate ClockedFrom(calls: seq<Call>, since: int) {
    (forall i :: 0 <= i < |calls| ==> since <= calls[i].now)
    && (forall i, j :: 0 <= i < j < |calls| ==> calls[i].now <= calls[j].now)
  }

  predicate NoColon(call: Call) {
    !call.Clear? ==> ':' !in call.company
  }

  function Live(entries: Entries, company: string, key: string, now: int): Option<Response> {
    var composite := Composite(company, key);
    if composite in entries && entries[composite].expiresAt > now then Some(entries[composite].response) else None
  }

  /** From `now` on, the map answers as the history promises. */
  ghost predicate Refines(entries: Entries, history: seq<Call>, now: int, ttl: int) {
    forall company, key, t :: ':' !in company && t >= now ==>
      Live(entries, company, key, t) == Promised(history, company, key, t, ttl)
  }

  lemma StepRefines(entries: Entries, history: seq<Call>, call: Call, since: int, ttl: int)
    requires Refines(entries, history, since, ttl) && since <= call.now && NoColon(call)
    ensures Refines(Step(entries, call, ttl).0, history + [call], call.now, ttl)
    ensures call.Get? ==> Step(entries, call, ttl).1 == Promised(history, call.company, call.key, call.now, ttl)
  {
    var after := Step(entries, call, ttl).0;
    if call.Get? {
      assert Live(entries, call.company, call.key, call.now) == Promised(history, call.company, call.key, call.now, ttl);
    }
    forall company, key, t | ':' !in company && t >= call.now
      ensures Live(after, company, key, t) == Promised(history + [call], company, key, t, ttl)
    {
      assert (history + [call])[..|history|] == history;
      assert Live(entries, company, key, t) == Promised(history, company, key, t, ttl);
      if !call.Clear? && Composite(call.company, call.key) == Composite(company, key) {
        CompositeInjective(call.company, call.key, company, key);
      }
    }
  }

  lemma {:induction false} RunRefinesAt(entries: Entries, history: seq<Call>, calls: seq<Call>, since: int, ttl: int, i: nat)
    requires Refines(entries, history, since, ttl) && ClockedFrom(calls, since) && i < |calls|
    requires forall i :: 0 <= i < |calls| ==> NoColon(calls[i])
    ensures |Run(entries, calls, ttl).1| > i
    ensures calls[i].Get? ==>
      Run(entries, calls, ttl).1[i] == Promised(history + calls[..i], calls[i].company, calls[i].key, calls[i].now, ttl)
    decreases |calls|
  {
    var call, rest := calls[0], calls[1..];
    StepRefines(entries, history, call, since, ttl);
    if i == 0 {
      assert history + calls[..0] == history;
    } else {
      RunRefinesAt(Step(entries, call, ttl).0, history + [call], rest, call.now, ttl, i - 1);
      assert history + calls[..i] == (history + [call]) + rest[..i - 1];
    }
  }

  lemma {:induction false} RunLength(entries: Entries, calls: seq<Call>, ttl: int)
    ensures |Run(entries, calls, ttl).1| == |calls|
    decreases |calls|
  {
    if calls != [] {
      RunLength(Step(entries, calls[0], ttl).0, calls[1..], ttl);
    }
  }

  /** In every run with a clock that never runs backwards, every read answers what the history of
      sets promises, whatever was deleted or evicted on the way. */
  lemma RunRefines(entries: Entries, history: seq<Call>, calls: seq<Call>, since: int, ttl: int)
    requires Refines(entries, history, since, ttl) && ClockedFrom(calls, since)
    requires forall i :: 0 <= i < |calls| ==> NoColon(calls[i])
    ensures |Run(entries, calls, ttl).1| == |calls|
    ensures forall i :: 0 <= i < |calls| && calls[i].Get? ==>
      Run(entries, calls, ttl).1[i] == Promised(history + calls[..i], calls[i].company, calls[i].key, calls[i].now, ttl)
  {
    RunLength(entries, calls, ttl);
    forall i | 0 <= i < |calls| && calls[i].Get?
      ensures Run(entries, calls, ttl).1[i] == Promised(history + calls[..i], calls[i].company, calls[i].key, calls[i].now, ttl)
    {
      RunRefinesAt(entries, history, calls, since, ttl, i);
    }
  }

  lemma FreshCacheKeepsItsPromise(calls: seq<Call>, since: int, ttl: int)
    requires ClockedFrom(calls, since) && forall i :: 0 <= i < |calls| ==> NoColon(calls[i])
    ensures |Run(map[], calls, ttl).1| == |calls|
    ensures forall i :: 0 <= i < |calls| && calls[i].Get? ==>
      Run(map[], calls, ttl).1[i] == Promised(calls[..i], calls[i].company, calls[i].key, calls[i].now, ttl)
  {
    RunRefines(map[], [], calls, since, ttl);
    forall i | 0 <= i < |calls| && calls[i].Get?
      ensures Run(map[], calls, ttl).1[i] == Promised(calls[..i], calls[i].company, calls[i].key, calls[i].now, ttl)
    {
      assert [] + calls[..i] == calls[..i];
    }
  }

  /** A company can be given another company's response exactly when one of the two names, with the
      separating colon, starts the other one with its colon: then some keys of the two collide, and
      reading such a key answers what was set for the other company. */
  lemma CrossCompanyAnswers(a: string, b: string, response: Response, now: int, ttl: int)
    requires ttl > 0
    ensures (exists k, l :: Run(map[], [Set(a, k, response, now), Get(b, l, now)], ttl).1[1..] == [Some(response)])
      <==> (a + ":" <= b + ":" || b + ":" <= a + ":")
  {
    CompositeCollision(a, b);
    forall k, l
      ensures Run(map[], [Set(a, k, response, now), Get(b, l, now)], ttl).1[1..] == [Some(response)] <==> Composite(a, k) == Composite(b, l)
    {
      var calls := [Set(a, k, response, now), Get(b, l, now)];
      var stored: Entries := map[Composite(a, k) := Entry(now + ttl, response)];
      assert Step(map[], calls[0], ttl) == (stored, None);
      assert calls[1..] == [Get(b, l, now)] && calls[1..][1..] == [];
      var answer := Step(stored, calls[1], ttl);
      assert Run(stored, calls[1..], ttl).1 == [answer.1] + [];
      assert Run(map[], calls, ttl).1 == [None] + [answer.1];
    }
  }
}
