/** The per-process Idempotency-Key cache of apps/api/src/idempotency.ts. */
module IdempotencyCache {
  import opened Basics

  datatype Response = Response(status: int, body: string)

  datatype Entry = Entry(expiresAt: int, response: Response)

  type Entries = map<string, Entry>

  /** The size beyond which a write first throws out every expired entry. */
  const PRUNE_ABOVE := 1000

  /** One call, with the clock reading it makes. */
  datatype Call = Get(company: string, key: string, now: int) | Set(company: string, key: string, response: Response,
      now: int) | Clear(now: int)

  function Evicted(entries: Entries, now: int): Entries {
    map k | k in entries && entries[k].expiresAt > now :: entries[k]
  }

  function Step(entries: Entries, call: Call, ttl: int): (Entries, Option<Response>) {
    match call
    case Get(company, key, now) =>
      var composite := Composite(company, key);
      if composite !in entries then (entries, None)
      else if entries[composite].expiresAt <= now then (entries - {composite}, None)
      else (entries, Some(entries[composite].response))
    case Set(company, key, response, now) =>
      var pruned := if |entries| > PRUNE_ABOVE then Evicted(entries, now) else entries;
      (pruned[Composite(company, key) := Entry(now + ttl, response)], None)
    case Clear(_) => (map[], None)
  }

  class Cache {
    const ttlMs: int
    var entries: Entries

    constructor (ttlMs: int)
      ensures this.ttlMs == ttlMs && entries == map[]
    {
      this.ttlMs := ttlMs;
      entries := map[];
    }

    method EvictExpired(now: int)
      modifies this
      ensures entries == Evicted(old(entries), now)
    {
      var pending := entries.Keys;
      while pending != {}
        invariant pending <= old(entries).Keys
        invariant forall k :: k in entries ==> k in old(entries) && entries[k] == old(entries)[k]
        invariant forall k :: k in pending ==> k in entries
        invariant forall k :: k in old(entries) && k !in pending ==> (k in entries <==> old(entries)[k].expiresAt > now)
        decreases |pending|
      {
        var k :| k in pending;
        if entries[k].expiresAt <= now {
          entries := entries - {k};
        }
        pending := pending - {k};
      }
    }

    method GetResponse(company: string, key: string, now: int) returns (response: Option<Response>)
      modifies this
      ensures (entries, response) == Step(old(entries), Get(company, key, now), ttlMs)
    {
      var composite := Composite(company, key);
      if composite !in entries {
        return None;
      }
      var entry := entries[composite];
      if entry.expiresAt <= now {
        entries := entries - {composite};
        return None;
      }
      response := Some(entry.response);
    }

    method SetResponse(company: string, key: string, response: Response, now: int)
      modifies this
      ensures (entries, None) == Step(old(entries), Set(company, key, response, now), ttlMs)
    {
      if |entries| > PRUNE_ABOVE {
        EvictExpired(now);
      }
      entries := entries[Composite(company, key) := Entry(now + ttlMs, response)];
    }

    method ClearAll(now: int)
      modifies this
      ensures (entries, None) == Step(old(entries), Clear(now), ttlMs)
    {
      entries := map[];
    }
  }
}
