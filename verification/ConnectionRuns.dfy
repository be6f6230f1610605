/** Any interleaving of the read and write steps of any number of upserts. */
module ConnectionRuns {
  import opened Basics
  import opened Connections

  datatype Phase = Idle | HasRead(seen: Option<nat>) | Done

  datatype Caller = Caller(upsert: Upsert, phase: Phase)

  datatype System = System(table: Table, callers: seq<Caller>)

  datatype Action = DoRead(who: nat) | DoWrite(who: nat, newId: nat, now: int)

  predicate Enabled(s: System, action: Action) {
    action.who < |s.callers|
    && match action
       case DoRead(who) => s.callers[who].phase.Idle?
       case DoWrite(who, newId, _) => s.callers[who].phase.HasRead? && forall i :: 0 <= i < |s.table| ==> s.table[i].id != newId
  }

  function SeenBy(table: Table, upsert: Upsert): Option<nat> {
    var row := Newest(table, upsert.company, upsert.provider);
    if row.None? then None else Some(row.value.id)
  }

  function Step(s: System, action: Action): (System, Outcome)
    requires Enabled(s, action)
  {
    var caller := s.callers[action.who];
    match action
    case DoRead(who) => (s.(callers := s.callers[who := caller.(phase := HasRead(SeenBy(s.table, caller.upsert)))]), Looked)
    case DoWrite(who, newId, now) =>
      var (table, outcome) := Write(s.table, caller.upsert, caller.phase.seen, newId, now);
      (System(table, s.callers[who := caller.(phase := Done)]), outcome)
  }

  predicate CanRun(s: System, actions: seq<Action>)
    decreases |actions|
  {
    actions == [] || (Enabled(s, actions[0]) && CanRun(Step(s, actions[0]).0, actions[1..]))
  }

  function Run(s: System, actions: seq<Action>): (System, seq<Outcome>)
    requires CanRun(s, actions)
    decreases |actions|
  {
    if actions == [] then (s, [])
    else
      var (s1, outcome) := Step(s, actions[0]);
      var (s2, outcomes) := Run(s1, actions[1..]);
      (s2, [outcome] + outcomes)
  }

  predicate UniqueIds(table: Table) {
    forall i, j :: 0 <= i < j < |table| ==> table[i].id != table[j].id
  }

  /** Ids are unique, and what a caller saw is a row of its own (company, provider). */
  predicate Inv(s: System) {
    UniqueIds(s.table)
    && forall c :: 0 <= c < |s.callers| ==>
      s.callers[c].phase.HasRead? && s.callers[c].phase.seen.Some? ==> OwnRow(s.table, s.callers[c].upsert, s.callers[c].phase.seen.value)
  }

  predicate OwnRow(table: Table, upsert: Upsert, id: nat) {
    exists i :: 0 <= i < |table| && table[i].id == id && table[i].company == upsert.company && table[i].provider == upsert.provider
  }

  lemma {:induction false} FindFinds(table: Table, id: nat)
    ensures Find(table, id).None? <==> forall i :: 0 <= i < |table| ==> table[i].id != id
    ensures Find(table, id).Some? ==> Find(table, id).value < |table| && table[Find(table, id).value].id == id
  {
    if table != [] && table[|table| - 1].id != id {
      FindFinds(table[..|table| - 1], id);
    }
  }

  lemma {:induction false} NewestIsOwn(table: Table, company: string, provider: string)
    ensures Newest(table, company, provider).Some? <==> exists i :: 0 <= i < |table| && table[i].company == company && table[i].provider == provider
    ensures Newest(table, company, provider).Some? ==>
      var row := Newest(table, company, provider).value; row in table && row.company == company && row.provider == provider
  {
    if table != [] {
      NewestIsOwn(table[..|table| - 1], company, provider);
    }
  }

  lemma StepKeepsInv(s: System, action: Action)
    requires Inv(s) && Enabled(s, action)
    ensures Inv(Step(s, action).0)
  {
    var after := Step(s, action).0;
    var caller := s.callers[action.who];
    if action.DoRead? {
      NewestIsOwn(s.table, caller.upsert.company, caller.upsert.provider);
    }
    forall c | 0 <= c < |after.callers| && after.callers[c].phase.HasRead? && after.callers[c].phase.seen.Some?
      ensures OwnRow(after.table, after.callers[c].upsert, after.callers[c].phase.seen.value)
    {
      if action.DoWrite? {
        assert after.callers[c] == s.callers[c];
        var i :| 0 <= i < |s.table| && s.table[i].id == s.callers[c].phase.seen.value
                 && s.table[i].company == s.callers[c].upsert.company && s.table[i].provider == s.callers[c].upsert.provider;
        assert after.table[i].id == s.table[i].id;
      }
    }
  }

  // ---------- versions ----------

  function VersionOf(table: Table, id: nat): int {
    var at := Find(table, id);
    if at.Some? && at.value < |table| then table[at.value].version else 0
  }

  predicate Present(table: Table, id: nat) {
    exists i :: 0 <= i < |table| && table[i].id == id
  }

  function Updates(outcomes: seq<Outcome>, id: nat): nat {
    if outcomes == [] then 0 else (if outcomes[0] == Updated(id) then 1 else 0) + Updates(outcomes[1..], id)
  }

  /** With unique ids, the position of a row is where `Find` looks. */
  lemma FindAt(table: Table, id: nat, at: nat)
    requires UniqueIds(table) && at < |table| && table[at].id == id
    ensures Find(table, id) == Some(at)
  {
    FindFinds(table, id);
  }

  /** One write after its read: a success raises its row's version by one and merges its values into
      the row as it is then; a guarded success found the expected version; a refusal changes
      nothing; and after a read that saw a row, a write without a guard always succeeds. */
  lemma WriteOnRow(table: Table, upsert: Upsert, seen: Option<nat>, newId: nat, now: int, id: nat)
    requires UniqueIds(table) && Present(table, id) && forall i :: 0 <= i < |table| ==> table[i].id != newId
    requires seen.Some? ==> OwnRow(table, upsert, seen.value)
    ensures var (after, outcome) := Write(table, upsert, seen, newId, now);
      Present(after, id)
      && VersionOf(after, id) == VersionOf(table, id) + (if outcome == Updated(id) then 1 else 0)
      && (outcome == Updated(id) && upsert.expectedVersion.Some? ==> VersionOf(table, id) == upsert.expectedVersion.value)
      && (outcome == Refused ==> after == table)
      && outcome != Untouched
  {
    var (after, outcome) := Write(table, upsert, seen, newId, now);
    var at :| 0 <= at < |table| && table[at].id == id;
    FindAt(table, id, at);
    assert after[at].id == id;
    FindAt(after, id, at);
    if seen.Some? {
      var i :| 0 <= i < |table| && table[i].id == seen.value && table[i].company == upsert.company && table[i].provider == upsert.provider;
      FindAt(table, seen.value, i);
    }
  }

  lemma WriteEffect(s: System, action: Action, id: nat)
    requires Inv(s) && Enabled(s, action) && Present(s.table, id)
    ensures Present(Step(s, action).0.table, id)
    ensures VersionOf(Step(s, action).0.table, id) == VersionOf(s.table, id) + (if Step(s, action).1 == Updated(id) then 1 else 0)
    ensures Step(s, action).1 == Updated(id) && s.callers[action.who].upsert.expectedVersion.Some? ==>
      VersionOf(s.table, id) == s.callers[action.who].upsert.expectedVersion.value
    ensures Step(s, action).1 == Refused ==> Step(s, action).0.table == s.table
    ensures Step(s, action).1 != Untouched
  {
    if action.DoWrite? {
      var caller := s.callers[action.who];
      WriteOnRow(s.table, caller.upsert, caller.phase.seen, action.newId, action.now, id);
    }
  }

  /** Over any interleaving, the version of an existing row counts its successful updates. */
  lemma {:induction false} VersionCountsUpdates(s: System, actions: seq<Action>, id: nat)
    requires Inv(s) && CanRun(s, actions) && Present(s.table, id)
    ensures var (after, outcomes) := Run(s, actions);
      |outcomes| == |actions| && Present(after.table, id)
      && VersionOf(after.table, id) == VersionOf(s.table, id) + Updates(outcomes, id)
    decreases |actions|
  {
    if actions != [] {
      var (s1, outcome) := Step(s, actions[0]);
      StepKeepsInv(s, actions[0]);
      WriteEffect(s, actions[0], id);
      VersionCountsUpdates(s1, actions[1..], id);
      var rest := Run(s1, actions[1..]).1;
      assert ([outcome] + rest)[1..] == rest;
    }
  }

  /** The upsert of the caller of an action; callers keep their upserts. */
  function UpsertOf(s: System, action: Action): Option<Upsert> {
    if action.who < |s.callers| then Some(s.callers[action.who].upsert) else None
  }

  predicate GuardedAt(s: System, action: Action, version: int) {
    action.DoWrite? && UpsertOf(s, action).Some? && UpsertOf(s, action).value.expectedVersion == Some(version)
  }

  /** A guarded write on a row whose version has passed the expected one never succeeds. */
  lemma {:induction false} NoLateWinner(s: System, actions: seq<Action>, id: nat, version: int, i: nat)
    requires Inv(s) && CanRun(s, actions) && Present(s.table, id) && VersionOf(s.table, id) > version
    requires i < |actions| && GuardedAt(s, actions[i], version)
    ensures |Run(s, actions).1| == |actions| && Run(s, actions).1[i] != Updated(id)
    decreases |actions|
  {
    VersionCountsUpdates(s, actions, id);
    WriteEffect(s, actions[0], id);
    if i > 0 {
      StepKeepsInv(s, actions[0]);
      NoLateWinner(Step(s, actions[0]).0, actions[1..], id, version, i - 1);
    }
  }

  /** Of all callers that carry the same expected version, at most one updates the row. */
  lemma {:induction false} AtMostOneWinner(s: System, actions: seq<Action>, id: nat, version: int, i: nat, j: nat)
    requires Inv(s) && CanRun(s, actions) && Present(s.table, id)
    requires i < j < |actions| && GuardedAt(s, actions[i], version) && GuardedAt(s, actions[j], version)
    requires |Run(s, actions).1| == |actions| && Run(s, actions).1[i] == Updated(id)
    ensures Run(s, actions).1[j] != Updated(id)
    decreases |actions|
  {
    var s1 := Step(s, actions[0]).0;
    StepKeepsInv(s, actions[0]);
    VersionCountsUpdates(s, actions, id);
    if i == 0 {
      FirstUpdateWins(s, actions, id, version, j);
    } else {
      WriteEffect(s, actions[0], id);
      AtMostOneWinner(s1, actions[1..], id, version, i - 1, j - 1);
    }
  }

  lemma FirstUpdateWins(s: System, actions: seq<Action>, id: nat, version: int, j: nat)
    requires Inv(s) && CanRun(s, actions) && Present(s.table, id) && 0 < j < |actions|
    requires GuardedAt(s, actions[0], version) && GuardedAt(s, actions[j], version)
    requires Step(s, actions[0]).1 == Updated(id)
    ensures |Run(s, actions).1| == |actions| && Run(s, actions).1[j] != Updated(id)
  {
    StepKeepsInv(s, actions[0]);
    WriteEffect(s, actions[0], id);
    VersionCountsUpdates(s, actions, id);
    NoLateWinner(Step(s, actions[0]).0, actions[1..], id, version, j - 1);
  }

  // ---------- the missing row ----------

  function Inserts(outcomes: seq<Outcome>): nat {
    if outcomes == [] then 0 else (if outcomes[0].Inserted? then 1 else 0) + Inserts(outcomes[1..])
  }

  /** Rows are only ever added by inserts, one each. */
  lemma {:induction false} RowsCountInserts(s: System, actions: seq<Action>)
    requires CanRun(s, actions)
    ensures |Run(s, actions).0.table| == |s.table| + Inserts(Run(s, actions).1)
    decreases |actions|
  {
    if actions != [] {
      var (s1, outcome) := Step(s, actions[0]);
      RowsCountInserts(s1, actions[1..]);
      var rest := Run(s1, actions[1..]).1;
      assert ([outcome] + rest)[1..] == rest;
    }
  }

  /** A caller inserts exactly when its read saw no row, which is when no row of its (company,
      provider) existed at that time; nothing guards the insert. */
  lemma {:induction false} InsertsExactlyAfterEmptyRead(s: System, who: nat, between: seq<Action>, newId: nat, now: int)
    requires Enabled(s, DoRead(who)) && forall i :: 0 <= i < |between| ==> between[i].who != who
    requires CanRun(Step(s, DoRead(who)).0, between)
    requires Enabled(Run(Step(s, DoRead(who)).0, between).0, DoWrite(who, newId, now))
    ensures Step(Run(Step(s, DoRead(who)).0, between).0, DoWrite(who, newId, now)).1.Inserted?
      <==> forall i :: 0 <= i < |s.table| ==>
        !(s.table[i].company == s.callers[who].upsert.company && s.table[i].provider == s.callers[who].upsert.provider)
  {
    var read := Step(s, DoRead(who)).0;
    OthersLeaveCaller(read, between, who);
    NewestIsOwn(s.table, s.callers[who].upsert.company, s.callers[who].upsert.provider);
  }

  lemma {:induction false} OthersLeaveCaller(s: System, actions: seq<Action>, who: nat)
    requires who < |s.callers| && CanRun(s, actions) && forall i :: 0 <= i < |actions| ==> actions[i].who != who
    ensures |Run(s, actions).0.callers| == |s.callers| && Run(s, actions).0.callers[who] == s.callers[who]
    decreases |actions|
  {
    if actions != [] {
      OthersLeaveCaller(Step(s, actions[0]).0, actions[1..], who);
    }
  }

  /** Two first-time callers that read before either writes leave two rows behind. */
  lemma TwoFirstCallersInsertTwice(upsert: Upsert)
    ensures var s := System([], [Caller(upsert, Idle), Caller(upsert, Idle)]);
      var actions := [DoRead(0), DoRead(1), DoWrite(0, 10, 1), DoWrite(1, 11, 2)];
      CanRun(s, actions) && |Run(s, actions).0.table| == 2
  {
    var s := System([], [Caller(upsert, Idle), Caller(upsert, Idle)]);
    var actions := [DoRead(0), DoRead(1), DoWrite(0, 10, 1), DoWrite(1, 11, 2)];
    var a := Step(s, DoRead(0)).0;
    var b := Step(a, DoRead(1)).0;
    assert b == System([], [Caller(upsert, HasRead(None)), Caller(upsert, HasRead(None))]);
    var c := Step(b, DoWrite(0, 10, 1)).0;
    assert c.table == [NewRow(upsert, 10, 1)] && c.callers[1] == Caller(upsert, HasRead(None));
    var d := Step(c, DoWrite(1, 11, 2)).0;
    assert actions[1..] == [DoRead(1), DoWrite(0, 10, 1), DoWrite(1, 11, 2)];
    assert actions[1..][1..] == [DoWrite(0, 10, 1), DoWrite(1, 11, 2)];
    assert actions[1..][1..][1..] == [DoWrite(1, 11, 2)] && actions[1..][1..][1..][1..] == [];
    assert CanRun(d, []) && CanRun(c, [DoWrite(1, 11, 2)]) && Run(c, [DoWrite(1, 11, 2)]).0 == d;
    assert CanRun(b, actions[1..][1..]) && CanRun(a, actions[1..]);
  }

  // ---------- one row per (company, provider) ----------

  predicate IsOf(row: Row, company: string, provider: string) {
    row.company == company && row.provider == provider
  }

  function RowsOf(table: Table, company: string, provider: string): nat {
    if table == [] then 0
    else RowsOf(table[..|table| - 1], company, provider) + (if IsOf(table[|table| - 1], company, provider) then 1 else 0)
  }

  predicate NoRow(table: Table, company: string, provider: string) {
    forall i :: 0 <= i < |table| ==> !IsOf(table[i], company, provider)
  }

  lemma {:induction false} NoRowIsNone(table: Table, company: string, provider: string)
    ensures NoRow(table, company, provider) <==> RowsOf(table, company, provider) == 0
  {
    if table != [] {
      NoRowIsNone(table[..|table| - 1], company, provider);
    }
  }

  /** An update leaves the row where it is. */
  lemma {:induction false} RowsOfUpdate(table: Table, at: nat, row: Row, company: string, provider: string)
    requires at < |table| && row.company == table[at].company && row.provider == table[at].provider
    ensures RowsOf(table[at := row], company, provider) == RowsOf(table, company, provider)
  {
    var last := |table| - 1;
    if at < last {
      assert table[at := row][..last] == table[..last][at := row];
      RowsOfUpdate(table[..last], at, row, company, provider);
    } else {
      assert table[at := row][..last] == table[..last];
    }
  }

  lemma WriteRows(table: Table, upsert: Upsert, seen: Option<nat>, newId: nat, now: int, company: string, provider: string)
    ensures RowsOf(Write(table, upsert, seen, newId, now).0, company, provider)
      == RowsOf(table, company, provider) + (if seen.None? && upsert.company == company && upsert.provider == provider then 1 else 0)
  {
    if seen.None? {
      var row := NewRow(upsert, newId, now);
      assert (table + [row])[..|table|] == table;
    } else {
      var at := Find(table, seen.value);
      if at.Some? && at.value < |table| && Matches(table[at.value], upsert) {
        RowsOfUpdate(table, at.value, UpdatedRow(table[at.value], upsert, now), company, provider);
      }
    }
  }

  /** The caller of an action upserts this (company, provider). */
  predicate OfKey(s: System, who: nat, company: string, provider: string) {
    who < |s.callers| && s.callers[who].upsert.company == company && s.callers[who].upsert.provider == provider
  }

  /** The action is the write of a caller of the key whose read saw no row. */
  predicate WritesBlind(s: System, action: Action, company: string, provider: string) {
    action.DoWrite? && OfKey(s, action.who, company, provider) && s.callers[action.who].phase == HasRead(None)
  }

  function BlindWrites(s: System, actions: seq<Action>, company: string, provider: string): nat
    requires CanRun(s, actions)
    decreases |actions|
  {
    if actions == [] then 0
    else
      (if WritesBlind(s, actions[0], company, provider) then 1 else 0)
      + BlindWrites(Step(s, actions[0]).0, actions[1..], company, provider)
  }

  lemma StepRows(s: System, action: Action, company: string, provider: string)
    requires Enabled(s, action)
    ensures RowsOf(Step(s, action).0.table, company, provider)
      == RowsOf(s.table, company, provider) + (if WritesBlind(s, action, company, provider) then 1 else 0)
  {
    if action.DoWrite? {
      var caller := s.callers[action.who];
      WriteRows(s.table, caller.upsert, caller.phase.seen, action.newId, action.now, company, provider);
    }
  }

  /** The rows of a (company, provider) grow by one for each write after an empty read. */
  lemma {:induction false} RowsCountBlindWrites(s: System, actions: seq<Action>, company: string, provider: string)
    requires CanRun(s, actions)
    ensures RowsOf(Run(s, actions).0.table, company, provider)
      == RowsOf(s.table, company, provider) + BlindWrites(s, actions, company, provider)
    decreases |actions|
  {
    if actions != [] {
      StepRows(s, actions[0], company, provider);
      RowsCountBlindWrites(Step(s, actions[0]).0, actions[1..], company, provider);
    }
  }

  predicate WritesIn(actions: seq<Action>, who: nat) {
    exists w :: 0 <= w < |actions| && actions[w].DoWrite? && actions[w].who == who
  }

  /** The caller reads before anybody writes under the key. */
  predicate ReadsFirst(s: System, actions: seq<Action>, who: nat, company: string, provider: string) {
    exists r :: 0 <= r < |actions| && actions[r] == DoRead(who) && NoWriteBefore(s, actions, r, company, provider)
  }

  predicate NoWriteBefore(s: System, actions: seq<Action>, r: nat, company: string, provider: string)
    requires r <= |actions|
  {
    forall w :: 0 <= w < r ==> !(actions[w].DoWrite? && OfKey(s, actions[w].who, company, provider))
  }

  /** The caller writes in the run, and its read sees no row of the key. */
  predicate WillWriteBlind(s: System, actions: seq<Action>, who: nat, company: string, provider: string) {
    && OfKey(s, who, company, provider) && WritesIn(actions, who)
    && (s.callers[who].phase == HasRead(None)
        || (NoRow(s.table, company, provider) && ReadsFirst(s, actions, who, company, provider)))
  }

  function BlindWriters(s: System, actions: seq<Action>, company: string, provider: string): set<nat> {
    set who: nat | who < |s.callers| && WillWriteBlind(s, actions, who, company, provider)
  }

  lemma WritesTail(actions: seq<Action>, who: nat)
    requires actions != []
    ensures WritesIn(actions, who) <==> (actions[0].DoWrite? && actions[0].who == who) || WritesIn(actions[1..], who)
  {
    if WritesIn(actions[1..], who) {
      var w :| 0 <= w < |actions[1..]| && actions[1..][w].DoWrite? && actions[1..][w].who == who;
      assert actions[w + 1] == actions[1..][w];
    }
    if WritesIn(actions, who) {
      var w :| 0 <= w < |actions| && actions[w].DoWrite? && actions[w].who == who;
      assert w > 0 ==> actions[1..][w - 1] == actions[w];
    }
  }

  lemma ReadsTail(s: System, s1: System, actions: seq<Action>, who: nat, company: string, provider: string)
    requires actions != [] && forall c :: OfKey(s, c, company, provider) <==> OfKey(s1, c, company, provider)
    ensures ReadsFirst(s, actions, who, company, provider)
      <==> (actions[0] == DoRead(who)
            || (!(actions[0].DoWrite? && OfKey(s, actions[0].who, company, provider))
                && ReadsFirst(s1, actions[1..], who, company, provider)))
  {
    var rest := actions[1..];
    if actions[0] == DoRead(who) {
      assert NoWriteBefore(s, actions, 0, company, provider);
    }
    if ReadsFirst(s, actions, who, company, provider) && actions[0] != DoRead(who) {
      var r :| 0 <= r < |actions| && actions[r] == DoRead(who) && NoWriteBefore(s, actions, r, company, provider);
      assert rest[r - 1] == actions[r];
      assert NoWriteBefore(s1, rest, r - 1, company, provider) by {
        assert forall w :: 0 <= w < r - 1 ==> rest[w] == actions[w + 1];
      }
    }
    if !(actions[0].DoWrite? && OfKey(s, actions[0].who, company, provider)) && ReadsFirst(s1, rest, who, company, provider) {
      var r :| 0 <= r < |rest| && rest[r] == DoRead(who) && NoWriteBefore(s1, rest, r, company, provider);
      assert actions[r + 1] == rest[r];
      assert NoWriteBefore(s, actions, r + 1, company, provider) by {
        assert forall w :: 1 <= w < r + 1 ==> actions[w] == rest[w - 1];
      }
    }
  }

  lemma SeesNothingIff(s: System, who: nat, company: string, provider: string)
    requires OfKey(s, who, company, provider)
    ensures SeenBy(s.table, s.callers[who].upsert).None? <==> NoRow(s.table, company, provider)
  {
    NewestIsOwn(s.table, company, provider);
  }

  /** One action takes its own caller off the blind writers when it is a blind write, and nobody else. */
  lemma BlindWriterStep(s: System, actions: seq<Action>, who: nat, company: string, provider: string)
    requires Inv(s) && actions != [] && Enabled(s, actions[0]) && who < |s.callers|
    ensures WillWriteBlind(s, actions, who, company, provider)
      <==> ((WritesBlind(s, actions[0], company, provider) && actions[0].who == who)
            || WillWriteBlind(Step(s, actions[0]).0, actions[1..], who, company, provider))
    ensures WritesBlind(s, actions[0], company, provider) && actions[0].who == who
      ==> !WillWriteBlind(Step(s, actions[0]).0, actions[1..], who, company, provider)
  {
    var action, s1, rest := actions[0], Step(s, actions[0]).0, actions[1..];
    StepRows(s, action, company, provider);
    NoRowIsNone(s.table, company, provider);
    NoRowIsNone(s1.table, company, provider);
    WritesTail(actions, who);
    ReadsTail(s, s1, actions, who, company, provider);
    if OfKey(s, action.who, company, provider) {
      if action.DoRead? {
        SeesNothingIff(s, action.who, company, provider);
      }
    }
  }

  lemma BlindWritersStep(s: System, actions: seq<Action>, company: string, provider: string)
    requires Inv(s) && actions != [] && Enabled(s, actions[0])
    ensures var later := BlindWriters(Step(s, actions[0]).0, actions[1..], company, provider);
      |BlindWriters(s, actions, company, provider)|
      == |later| + (if WritesBlind(s, actions[0], company, provider) then 1 else 0)
  {
    var now, later := BlindWriters(s, actions, company, provider), BlindWriters(Step(s, actions[0]).0, actions[1..], company, provider);
    forall who: nat | who < |s.callers|
      ensures who in now <==> (WritesBlind(s, actions[0], company, provider) && actions[0].who == who) || who in later
      ensures WritesBlind(s, actions[0], company, provider) && actions[0].who == who ==> who !in later
    {
      BlindWriterStep(s, actions, who, company, provider);
    }
    if WritesBlind(s, actions[0], company, provider) {
      assert now == later + {actions[0].who};
    } else {
      assert now == later;
    }
  }

  lemma {:induction false} BlindWritesCountWriters(s: System, actions: seq<Action>, company: string, provider: string)
    requires Inv(s) && CanRun(s, actions)
    ensures BlindWrites(s, actions, company, provider) == |BlindWriters(s, actions, company, provider)|
    decreases |actions|
  {
    if actions == [] {
      assert BlindWriters(s, actions, company, provider) == {};
    } else {
      StepKeepsInv(s, actions[0]);
      BlindWritersStep(s, actions, company, provider);
      BlindWritesCountWriters(Step(s, actions[0]).0, actions[1..], company, provider);
    }
  }

  lemma AtMostOne(people: set<nat>)
    ensures |people| <= 1 <==> forall a, b :: a in people && b in people ==> a == b
  {
    if |people| <= 1 {
      forall a, b | a in people && b in people ensures a == b {
        assert people - {a} == {} || |people - {a}| == 0;
      }
    } else {
      var a :| a in people;
      assert |people - {a}| > 0;
      var b :| b in people - {a};
    }
  }

  /** Both callers upsert the key, both write in the run, and both read before anybody wrote. */
  predicate Race(s: System, actions: seq<Action>, a: nat, b: nat, company: string, provider: string) {
    a != b && OfKey(s, a, company, provider) && OfKey(s, b, company, provider) && WritesIn(actions, a) && WritesIn(actions, b)
    && ReadsFirst(s, actions, a, company, provider) && ReadsFirst(s, actions, b, company, provider)
  }

  /** From a table without a row of (company, provider) and callers that have not read yet, any run
      leaves at most one such row exactly when no two callers of it that write both read before the
      first write. */
  lemma OneRowIffNoRace(s: System, actions: seq<Action>, company: string, provider: string)
    requires Inv(s) && CanRun(s, actions) && NoRow(s.table, company, provider)
    requires forall c :: 0 <= c < |s.callers| ==> s.callers[c].phase.Idle?
    ensures RowsOf(Run(s, actions).0.table, company, provider) <= 1
      <==> forall a, b :: 0 <= a < |s.callers| && 0 <= b < |s.callers| ==> !Race(s, actions, a, b, company, provider)
  {
    var blind := BlindWriters(s, actions, company, provider);
    NoRowIsNone(s.table, company, provider);
    RowsCountBlindWrites(s, actions, company, provider);
    BlindWritesCountWriters(s, actions, company, provider);
    AtMostOne(blind);
    forall a, b | 0 <= a < |s.callers| && 0 <= b < |s.callers|
      ensures Race(s, actions, a, b, company, provider) <==> a != b && a in blind && b in blind
    {
    }
  }
}
