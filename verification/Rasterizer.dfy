/** The rasterizer slots of apps/api/src/blueprint-rasterize.ts.

    A caller that finds no free slot parks; a release wakes the longest parked caller by resolving
    its promise, and the woken caller takes its slot only when its continuation runs.  The run-time's
    queue of continuations is the field `woken`; everything else is the module's own state. */
module Rasterizer {
  import opened Basics

  /** `active` and `waiters` are the module's variables.  `holders` are the callers between their
      acquire and their release, `parked` all who ever parked and `resumed` all who ever resumed. */
  datatype State = State(
    active: int, waiters: seq<nat>, woken: seq<nat>, holders: set<nat>, parked: seq<nat>, resumed: seq<nat>)

  datatype Action = Arrive(id: nat) | Resume | Release(id: nat)

  const IDLE := State(0, [], [], {}, [], [])

  /** The configured concurrency, or 1 when the setting is not a positive integer. */
  function Limit(setting: Option<int>): (limit: int)
    ensures limit >= 1
  {
    if setting.Some? && setting.value > 0 then setting.value else 1
  }

  predicate Known(s: State, id: nat) {
    id in s.holders || id in s.waiters || id in s.woken
  }

  /** Callers arrive under new names, a continuation runs when one is due, and only a holder
      releases. */
  predicate Enabled(s: State, action: Action) {
    match action
    case Arrive(id) => !Known(s, id)
    case Resume => s.woken != []
    case Release(id) => id in s.holders
  }

  function Step(s: State, action: Action, limit: int): State
    requires Enabled(s, action)
  {
    match action
    case Arrive(id) =>
      if s.active < limit then s.(active := s.active + 1, holders := s.holders + {id})
      else s.(waiters := s.waiters + [id], parked := s.parked + [id])
    case Resume =>
      s.(active := s.active + 1, holders := s.holders + {s.woken[0]}, resumed := s.resumed + [s.woken[0]], woken := s.woken[1..])
    case Release(id) =>
      var freed := s.(active := if s.active - 1 > 0 then s.active - 1 else 0, holders := s.holders - {id});
      if s.waiters == [] then freed else freed.(waiters := s.waiters[1..], woken := s.woken + [s.waiters[0]])
  }

  class RasterizeSlots {
    const limit: int
    var active: int
    var waiters: seq<nat>
    var woken: seq<nat>
    ghost var holders: set<nat>
    ghost var parked: seq<nat>
    ghost var resumed: seq<nat>

    constructor (setting: Option<int>)
      ensures limit == Limit(setting) && Contents() == IDLE
    {
      limit := Limit(setting);
      active, waiters, woken, holders, parked, resumed := 0, [], [], {}, [], [];
    }

    ghost function Contents(): State
      reads this
    {
      State(active, waiters, woken, holders, parked, resumed)
    }

    /** `acquireRasterizeSlot` up to its await. */
    method Acquire(id: nat) returns (granted: bool)
      requires Enabled(Contents(), Arrive(id))
      modifies this
      ensures Contents() == Step(old(Contents()), Arrive(id), limit)
      ensures granted <==> old(active) < limit
    {
      granted := active < limit;
      if granted {
        active := active + 1;
        holders := holders + {id};
      } else {
        waiters := waiters + [id];
        parked := parked + [id];
      }
    }

    /** `acquireRasterizeSlot` after its await. */
    method Continue() returns (id: nat)
      requires Enabled(Contents(), Resume)
      modifies this
      ensures Contents() == Step(old(Contents()), Resume, limit)
      ensures id == old(woken)[0]
    {
      id := woken[0];
      woken := woken[1..];
      active := active + 1;
      holders := holders + {id};
      resumed := resumed + [id];
    }

    method ReleaseSlot(ghost id: nat)
      requires Enabled(Contents(), Release(id))
      modifies this
      ensures Contents() == Step(old(Contents()), Release(id), limit)
    {
      active := if active - 1 > 0 then active - 1 else 0;
      holders := holders - {id};
      if |waiters| > 0 {
        woken := woken + [waiters[0]];
        waiters := waiters[1..];
      }
    }
  }
}
