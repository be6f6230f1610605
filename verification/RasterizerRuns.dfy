/** What every run of acquires, resumes and releases keeps. */
module RasterizerRuns {
  import opened Rasterizer

  predicate Distinct(xs: seq<nat>) {
    forall i, j :: 0 <= i < j < |xs| ==> xs[i] != xs[j]
  }

  /** The counter counts the holders, nobody is in two places, callers are served in the order in
      which they parked, and nobody waits while a slot is neither taken nor promised. */
  predicate Inv(s: State, limit: int) {
    s.active == |s.holders|
    && Distinct(s.waiters) && Distinct(s.woken)
    && (forall id :: id in s.waiters ==> id !in s.woken && id !in s.holders)
    && (forall id :: id in s.woken ==> id !in s.holders)
    && s.parked == s.resumed + s.woken + s.waiters
    && (s.waiters != [] ==> s.active + |s.woken| >= limit)
  }

  predicate CanRun(s: State, actions: seq<Action>, limit: int)
    decreases |actions|
  {
    actions == [] || (Enabled(s, actions[0]) && CanRun(Step(s, actions[0], limit), actions[1..], limit))
  }

  function Run(s: State, actions: seq<Action>, limit: int): State
    requires CanRun(s, actions, limit)
    decreases |actions|
  {
    if actions == [] then s else Run(Step(s, actions[0], limit), actions[1..], limit)
  }

  lemma ReleaseKeepsInv(s: State, id: nat, limit: int)
    requires Inv(s, limit) && id in s.holders
    ensures Inv(Step(s, Release(id), limit), limit)
  {
    var after := Step(s, Release(id), limit);
    assert s.holders == after.holders + {id};
    if s.waiters != [] {
      var first := s.waiters[0];
      assert first in s.waiters;
      forall i | 0 <= i < |s.woken| ensures s.woken[i] != first {
        assert s.woken[i] in s.woken;
      }
      forall other | other in after.waiters ensures other in s.waiters && other != first {
        var i :| 0 <= i < |after.waiters| && after.waiters[i] == other;
        assert s.waiters[i + 1] == other;
      }
      assert s.waiters == [first] + after.waiters;
      assert s.parked == s.resumed + s.woken + ([first] + after.waiters);
    }
  }

  lemma ResumeKeepsInv(s: State, limit: int)
    requires Inv(s, limit) && s.woken != []
    ensures Inv(Step(s, Resume, limit), limit)
  {
    var first, after := s.woken[0], Step(s, Resume, limit);
    assert first in s.woken;
    forall other | other in after.woken ensures other in s.woken && other != first {
      var i :| 0 <= i < |after.woken| && after.woken[i] == other;
      assert s.woken[i + 1] == other;
    }
    assert s.woken == [first] + after.woken;
    assert s.parked == s.resumed + ([first] + after.woken) + s.waiters;
  }

  lemma StepKeepsInv(s: State, action: Action, limit: int)
    requires Inv(s, limit) && Enabled(s, action)
    ensures Inv(Step(s, action, limit), limit)
  {
    match action
    case Arrive(id) =>
    case Resume => ResumeKeepsInv(s, limit);
    case Release(id) => ReleaseKeepsInv(s, id, limit);
  }

  lemma {:induction false} RunKeepsInv(s: State, actions: seq<Action>, limit: int)
    requires Inv(s, limit) && CanRun(s, actions, limit)
    ensures Inv(Run(s, actions, limit), limit)
    decreases |actions|
  {
    if actions != [] {
      StepKeepsInv(s, actions[0], limit);
      RunKeepsInv(Step(s, actions[0], limit), actions[1..], limit);
    }
  }

  /** Every reachable state satisfies the invariant; in particular while somebody waits there is a
      holder left to release or a continuation left to run, so no caller is stranded. */
  lemma NobodyStranded(actions: seq<Action>, limit: int)
    requires limit >= 1 && CanRun(IDLE, actions, limit)
    ensures var s := Run(IDLE, actions, limit);
      Inv(s, limit) && (s.waiters != [] ==> (exists id :: Enabled(s, Release(id))) || Enabled(s, Resume))
  {
    RunKeepsInv(IDLE, actions, limit);
    var s := Run(IDLE, actions, limit);
    if s.waiters != [] && s.woken == [] {
      assert s.holders != {};
      var id :| id in s.holders;
      assert Enabled(s, Release(id));
    }
  }

  // ---------- first come, first served ----------

  function Releases(actions: seq<Action>): nat {
    if actions == [] then 0 else (if actions[0].Release? then 1 else 0) + Releases(actions[1..])
  }

  /** Of the callers parked now, each release wakes the first one left: after `n` releases exactly
      the first `n` are gone from the queue, whoever arrived meanwhile. */
  lemma {:induction false} ReleasesServeInOrder(s: State, actions: seq<Action>, limit: int)
    requires CanRun(s, actions, limit)
    ensures var n := Releases(actions);
      n < |s.waiters| ==> s.waiters[n..] <= Run(s, actions, limit).waiters
    ensures s.parked <= Run(s, actions, limit).parked
    decreases |actions|
  {
    if actions != [] {
      var next := Step(s, actions[0], limit);
      ReleasesServeInOrder(next, actions[1..], limit);
      var n := Releases(actions);
      if n < |s.waiters| {
        if actions[0].Release? {
          assert s.waiters[n..] == next.waiters[n - 1..];
        } else {
          assert s.waiters[n..] <= next.waiters[n..];
        }
      }
    }
  }

  /** A caller at position `p` of the queue has been woken once `p + 1` releases have happened. */
  lemma {:induction false} WokenInTurn(s: State, actions: seq<Action>, limit: int, p: nat)
    requires Inv(s, limit) && CanRun(s, actions, limit) && p < |s.waiters|
    ensures var after := Run(s, actions, limit);
      var turn := |s.resumed| + |s.woken| + p;
      turn < |after.parked| && after.parked[turn] == s.waiters[p]
      && (Releases(actions) > p <==> turn < |after.resumed| + |after.woken|)
    decreases |actions|
  {
    var turn := |s.resumed| + |s.woken| + p;
    if actions == [] {
    } else {
      var next := Step(s, actions[0], limit);
      StepKeepsInv(s, actions[0], limit);
      if actions[0].Release? && p == 0 {
        RunKeepsInv(next, actions[1..], limit);
        ServedStaysServed(next, actions[1..], limit);
        ReleasesServeInOrder(next, actions[1..], limit);
      } else {
        var p' := if actions[0].Release? then p - 1 else p;
        assert next.waiters[p'] == s.waiters[p];
        assert |next.resumed| + |next.woken| + p' == turn;
        WokenInTurn(next, actions[1..], limit, p');
      }
    }
  }

  lemma {:induction false} ServedStaysServed(s: State, actions: seq<Action>, limit: int)
    requires CanRun(s, actions, limit)
    ensures |s.resumed| + |s.woken| <= |Run(s, actions, limit).resumed| + |Run(s, actions, limit).woken|
    decreases |actions|
  {
    if actions != [] {
      ServedStaysServed(Step(s, actions[0], limit), actions[1..], limit);
    }
  }

  // ---------- the concurrency limit ----------

  /** A fresh caller takes a slot that is already promised to a woken one. */
  predicate Barges(s: State, action: Action, limit: int) {
    action.Arrive? && s.active < limit && s.active + |s.woken| >= limit
  }

  function Barging(s: State, actions: seq<Action>, limit: int): nat
    requires CanRun(s, actions, limit)
    decreases |actions|
  {
    if actions == [] then 0
    else (if Barges(s, actions[0], limit) then 1 else 0) + Barging(Step(s, actions[0], limit), actions[1..], limit)
  }

  function Committed(s: State): int {
    s.active + |s.woken|
  }

  predicate AlwaysWithin(s: State, actions: seq<Action>, limit: int)
    requires CanRun(s, actions, limit)
    decreases |actions|
  {
    Committed(s) <= limit && (actions != [] ==> AlwaysWithin(Step(s, actions[0], limit), actions[1..], limit))
  }

  /** Each barging arrival can push the slots taken or promised over the limit by one more. */
  lemma {:induction false} OvershootBound(s: State, actions: seq<Action>, limit: int, over: nat)
    requires Inv(s, limit) && CanRun(s, actions, limit) && Committed(s) <= limit + over
    ensures Committed(Run(s, actions, limit)) <= limit + over + Barging(s, actions, limit)
    decreases |actions|
  {
    if actions != [] {
      StepKeepsInv(s, actions[0], limit);
      var next := Step(s, actions[0], limit);
      OvershootBound(next, actions[1..], limit, if Barges(s, actions[0], limit) then over + 1 else over);
    }
  }

  /** From a state within the limit, a run stays within it throughout exactly when nobody barges. */
  lemma {:induction false} WithinLimitIffNoBarging(s: State, actions: seq<Action>, limit: int)
    requires Inv(s, limit) && CanRun(s, actions, limit) && Committed(s) <= limit
    ensures AlwaysWithin(s, actions, limit) <==> Barging(s, actions, limit) == 0
    decreases |actions|
  {
    if actions != [] {
      StepKeepsInv(s, actions[0], limit);
      var next := Step(s, actions[0], limit);
      if Barges(s, actions[0], limit) {
        assert Committed(next) > limit;
      } else {
        WithinLimitIffNoBarging(next, actions[1..], limit);
      }
    }
  }

  /** With one slot configured, a caller that arrives between a wake and its resume makes two run at
      once. */
  lemma TwoAtOnce()
    ensures var actions := [Arrive(1), Arrive(2), Release(1), Arrive(3), Resume];
      CanRun(IDLE, actions, 1) && Run(IDLE, actions, 1).active == 2 && Barging(IDLE, actions, 1) == 1
  {
    var a := Step(IDLE, Arrive(1), 1);
    var b := Step(a, Arrive(2), 1);
    var c := Step(b, Release(1), 1);
    var d := Step(c, Arrive(3), 1);
    var e := Step(d, Resume, 1);
    var actions := [Arrive(1), Arrive(2), Release(1), Arrive(3), Resume];
    assert actions[1..][1..][1..][1..][1..] == [];
    assert CanRun(e, [], 1);
    assert actions[1..][1..][1..][1..] == [Resume] && CanRun(d, [Resume], 1);
    assert actions[1..][1..][1..] == [Arrive(3), Resume] && CanRun(c, [Arrive(3), Resume], 1);
    assert actions[1..][1..] == [Release(1), Arrive(3), Resume] && CanRun(b, [Release(1), Arrive(3), Resume], 1);
    assert actions[1..] == [Arrive(2), Release(1), Arrive(3), Resume] && CanRun(a, actions[1..], 1);
  }
}
