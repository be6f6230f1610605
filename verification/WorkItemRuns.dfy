/** Idempotency of the work-item store over every interleaving of creates, appends and updates. */
module WorkItemRuns {
  import opened Basics
  import opened WorkItems

  datatype Op =
    | DoCreate(create: CreateArgs, now: int)
    | DoAppend(event: EventArgs, now: int)
    | DoUpdate(update: UpdateArgs, now: int)

  datatype Answer =
    | ItemAnswer(item: Item, created: bool)
    | EventAnswer(event: Event)
    | UpdateAnswer(updated: Item, logged: Event)
    | Failed(error: Error)

  function Step(store: Store, op: Op, bySeverity: WindowBySeverity): (Store, Answer) {
    match op
    case DoCreate(args, now) =>
      var result := Create(store, args, now, bySeverity);
      if result.Ok? then (result.value.0, ItemAnswer(result.value.1, result.value.2)) else (store, Failed(result.error))
    case DoAppend(args, now) =>
      var result := Append(store, args, now);
      if result.Ok? then (result.value.0, EventAnswer(result.value.1)) else (store, Failed(result.error))
    case DoUpdate(args, now) =>
      var result := Update(store, args, now);
      if result.Ok? then (result.value.0, UpdateAnswer(result.value.1, result.value.2)) else (store, Failed(result.error))
  }

  type Stepper = (Store, Op) -> (Store, Answer)

  /** One operation, as a function of store and operation. */
  function Stepping(bySeverity: WindowBySeverity): Stepper {
    (store: Store, op: Op) => Step(store, op, bySeverity)
  }

  function Run(store: Store, ops: seq<Op>, step: Stepper): (Store, seq<Answer>)
    decreases |ops|
  {
    if ops == [] then (store, [])
    else
      var (store1, answer) := step(store, ops[0]);
      var (store2, answers) := Run(store1, ops[1..], step);
      (store2, [answer] + answers)
  }

  // ---------- what every store keeps ----------

  /** Positions are ids, and a key names one item, or one event, per company. */
  predicate Inv(store: Store) {
    (forall i :: 0 <= i < |store.items| ==> store.items[i].id == i)
    && (forall i :: 0 <= i < |store.events| ==> store.events[i].id == i)
    && (forall i, j :: 0 <= i < j < |store.items| && store.items[i].dedupKey.Some? ==>
          !(store.items[i].company == store.items[j].company && store.items[i].dedupKey == store.items[j].dedupKey))
    && (forall i, j :: 0 <= i < j < |store.events| && store.events[i].idempotencyKey.Some? ==>
          !(store.events[i].company == store.events[j].company && store.events[i].idempotencyKey == store.events[j].idempotencyKey))
  }

  /** Nothing that identifies an item or makes up an event ever changes, and nothing disappears. */
  predicate Extends(before: Store, after: Store) {
    |before.items| <= |after.items| && before.events <= after.events
    && forall i :: 0 <= i < |before.items| ==>
      after.items[i].id == before.items[i].id && after.items[i].company == before.items[i].company
      && after.items[i].dedupKey == before.items[i].dedupKey && after.items[i].facts == before.items[i].facts
      && after.items[i].createdAt == before.items[i].createdAt
  }

  lemma AppendKeepsInv(store: Store, args: EventArgs, now: int)
    requires Inv(store) && Append(store, args, now).Ok?
    ensures Inv(Append(store, args, now).value.0)
    ensures var (after, event) := Append(store, args, now).value;
      after.items == store.items && store.events <= after.events && event in after.events
      && event.company == args.company && event.idempotencyKey == OptionalText(args.idempotencyKey)
  {
    var event := NewEvent(args, |store.events|, now);
    if event.idempotencyKey.Some? {
      EventByKeyFinds(store.events, args.company, event.idempotencyKey.value);
    }
    var after := Append(store, args, now).value.0;
    if after != store {
      assert after.events[|store.events|] == event;
    }
  }

  lemma CreateKeepsInv(store: Store, args: CreateArgs, now: int, bySeverity: WindowBySeverity)
    requires Inv(store) && Create(store, args, now, bySeverity).Ok?
    ensures Inv(Create(store, args, now, bySeverity).value.0)
    ensures Extends(store, Create(store, args, now, bySeverity).value.0)
    ensures var (after, item, created) := Create(store, args, now, bySeverity).value;
      item.id < |after.items| && after.items[item.id] == item
      && item.company == args.company && item.dedupKey == OptionalText(Some(args.dedupKey))
      && (created <==> item.id == |store.items|) && (!created ==> after == store)
  {
    var item := NewItem(args, |store.items|, now, bySeverity);
    if item.dedupKey.Some? {
      ItemByKeyFinds(store.items, args.company, item.dedupKey.value);
    }
  }

  lemma UpdateKeepsInv(store: Store, args: UpdateArgs, now: int)
    requires Inv(store) && Update(store, args, now).Ok?
    ensures Inv(Update(store, args, now).value.0)
    ensures Extends(store, Update(store, args, now).value.0)
  {
    ItemByIdFinds(store.items, args.event.company, args.event.workItemId);
    var at := ItemById(store.items, args.event.company, args.event.workItemId).value;
    AppendKeepsInv(store, args.event.(captureSessionId := store.items[at].facts.captureSessionId), now);
  }

  lemma StepKeepsInv(store: Store, op: Op, bySeverity: WindowBySeverity)
    requires Inv(store)
    ensures Inv(Step(store, op, bySeverity).0)
    ensures Extends(store, Step(store, op, bySeverity).0)
  {
    match op
    case DoCreate(args, now) =>
      if Create(store, args, now, bySeverity).Ok? {
        CreateKeepsInv(store, args, now, bySeverity);
      }
    case DoAppend(args, now) =>
      if Append(store, args, now).Ok? {
        AppendKeepsInv(store, args, now);
      }
    case DoUpdate(args, now) =>
      if Update(store, args, now).Ok? {
        UpdateKeepsInv(store, args, now);
      }
  }

  lemma ExtendsTransitive(a: Store, b: Store, c: Store)
    requires Extends(a, b) && Extends(b, c)
    ensures Extends(a, c)
  {
  }

  /** Every operation keeps the invariant and what is already there. */
  ghost predicate Keeps(step: Stepper) {
    forall store, op :: Inv(store) ==> Inv(step(store, op).0) && Extends(store, step(store, op).0)
  }

  lemma SteppingKeeps(bySeverity: WindowBySeverity)
    ensures Keeps(Stepping(bySeverity))
  {
    forall store, op | Inv(store)
      ensures Inv(Stepping(bySeverity)(store, op).0) && Extends(store, Stepping(bySeverity)(store, op).0)
    {
      StepKeepsInv(store, op, bySeverity);
    }
  }

  /** A run of operations that keep the invariant: each answer is given by a store in between. */
  lemma {:induction false} RunSplits(store: Store, ops: seq<Op>, step: Stepper, i: nat) returns (before: Store)
    requires Inv(store) && Keeps(step) && i < |ops|
    ensures |Run(store, ops, step).1| == |ops|
    ensures Inv(before) && Extends(store, before)
    ensures Run(store, ops, step).1[i] == step(before, ops[i]).1
    decreases |ops|
  {
    var store1 := step(store, ops[0]).0;
    if i == 0 {
      before := store;
      RunLength(store, ops, step);
    } else {
      before := RunSplits(store1, ops[1..], step, i - 1);
      ExtendsTransitive(store, store1, before);
    }
  }

  lemma {:induction false} RunLength(store: Store, ops: seq<Op>, step: Stepper)
    ensures |Run(store, ops, step).1| == |ops|
    decreases |ops|
  {
    if ops != [] {
      RunLength(step(store, ops[0]).0, ops[1..], step);
    }
  }

  lemma {:induction false} RunSplitsTwice(store: Store, ops: seq<Op>, step: Stepper, i: nat, j: nat) returns (first: Store, second: Store)
    requires Inv(store) && Keeps(step) && i < j < |ops|
    ensures |Run(store, ops, step).1| == |ops|
    ensures Inv(first) && Inv(second) && Extends(step(first, ops[i]).0, second)
    ensures Run(store, ops, step).1[i] == step(first, ops[i]).1 && Run(store, ops, step).1[j] == step(second, ops[j]).1
    decreases |ops|
  {
    RunLength(store, ops, step);
    var store1 := step(store, ops[0]).0;
    if i == 0 {
      first := store;
      second := RunSplits(store1, ops[1..], step, j - 1);
    } else {
      first, second := RunSplitsTwice(store1, ops[1..], step, i - 1, j - 1);
    }
  }

  lemma {:induction false} RunKeepsInv(store: Store, ops: seq<Op>, step: Stepper)
    requires Inv(store) && Keeps(step)
    ensures Inv(Run(store, ops, step).0) && Extends(store, Run(store, ops, step).0)
    decreases |ops|
  {
    if ops != [] {
      var store1 := step(store, ops[0]).0;
      RunKeepsInv(store1, ops[1..], step);
      ExtendsTransitive(store, store1, Run(store1, ops[1..], step).0);
    }
  }

  /** Every reachable store has one item per key and one event per key, and no operation alters what
      identifies an item or removes an event. */
  lemma EveryRunKeepsInv(store: Store, ops: seq<Op>, bySeverity: WindowBySeverity)
    requires Inv(store)
    ensures Inv(Run(store, ops, Stepping(bySeverity)).0) && Extends(store, Run(store, ops, Stepping(bySeverity)).0)
  {
    SteppingKeeps(bySeverity);
    RunKeepsInv(store, ops, Stepping(bySeverity));
  }

  // ---------- creates with one key ----------

  predicate CreatesWith(op: Op, company: string, key: string) {
    op.DoCreate? && op.create.company == company && OptionalText(Some(op.create.dedupKey)) == Some(key)
  }

  predicate HasItem(store: Store, company: string, key: string, id: nat) {
    id < |store.items| && store.items[id].company == company && store.items[id].dedupKey == Some(key)
  }

  predicate NoItem(store: Store, company: string, key: string) {
    forall id :: 0 <= id < |store.items| ==> !HasItem(store, company, key, id)
  }

  /** A successful create reports that it created exactly when the key had no item before it. */
  lemma CreatedExactlyWhenNew(store: Store, op: Op, bySeverity: WindowBySeverity, company: string, key: string)
    requires Inv(store) && CreatesWith(op, company, key) && !Step(store, op, bySeverity).1.Failed?
    ensures Step(store, op, bySeverity).1.ItemAnswer?
    ensures Step(store, op, bySeverity).1.created <==> NoItem(store, company, key)
    ensures HasItem(Step(store, op, bySeverity).0, company, key, Step(store, op, bySeverity).1.item.id)
  {
    CreateKeepsInv(store, op.create, op.now, bySeverity);
    ItemByKeyFinds(store.items, company, key);
    if ItemByKey(store.items, company, key).Some? {
      assert HasItem(store, company, key, ItemByKey(store.items, company, key).value);
    }
  }

  /** What a successful create with the key answers. */
  predicate AnswersItem(store: Store, after: Store, answer: Answer, company: string, key: string) {
    answer.Failed? || (answer.ItemAnswer? && HasItem(after, company, key, answer.item.id)
      && (answer.created <==> NoItem(store, company, key))
      && forall id :: 0 <= id < |store.items| && HasItem(store, company, key, id) ==> answer.item.id == id && !answer.created)
  }

  ghost predicate CreatesOnce(step: Stepper, company: string, key: string) {
    forall store, op :: Inv(store) && CreatesWith(op, company, key) ==> AnswersItem(store, step(store, op).0, step(store, op).1, company, key)
  }

  lemma SteppingCreatesOnce(bySeverity: WindowBySeverity, company: string, key: string)
    ensures CreatesOnce(Stepping(bySeverity), company, key)
  {
    forall store, op | Inv(store) && CreatesWith(op, company, key)
      ensures AnswersItem(store, Stepping(bySeverity)(store, op).0, Stepping(bySeverity)(store, op).1, company, key)
    {
      CreateAnswersItem(store, op, bySeverity, company, key);
    }
  }

  lemma CreateAnswersItem(store: Store, op: Op, bySeverity: WindowBySeverity, company: string, key: string)
    requires Inv(store) && CreatesWith(op, company, key)
    ensures AnswersItem(store, Step(store, op, bySeverity).0, Step(store, op, bySeverity).1, company, key)
  {
    if !Step(store, op, bySeverity).1.Failed? {
      CreatedExactlyWhenNew(store, op, bySeverity, company, key);
      CreateKeepsInv(store, op.create, op.now, bySeverity);
    }
  }

  lemma SameItem(store: Store, ops: seq<Op>, step: Stepper, company: string, key: string, i: nat, j: nat)
    requires Inv(store) && Keeps(step) && CreatesOnce(step, company, key)
    requires i < j < |ops| && CreatesWith(ops[i], company, key) && CreatesWith(ops[j], company, key)
    ensures |Run(store, ops, step).1| == |ops|
    ensures var first, second := Run(store, ops, step).1[i], Run(store, ops, step).1[j];
      first.Failed? || second.Failed? || (first.ItemAnswer? && second.ItemAnswer? && second.item.id == first.item.id && !second.created)
  {
    var before, later := RunSplitsTwice(store, ops, step, i, j);
    assert AnswersItem(before, step(before, ops[i]).0, step(before, ops[i]).1, company, key);
    assert AnswersItem(later, step(later, ops[j]).0, step(later, ops[j]).1, company, key);
    var first := step(before, ops[i]).1;
    if first.ItemAnswer? {
      assert HasItem(later, company, key, first.item.id);
    }
  }

  /** Of two successful creates with the same company and key, in any run, the later one answers the
      earlier one's item and reports that it created nothing. */
  lemma OneItemPerKey(store: Store, ops: seq<Op>, bySeverity: WindowBySeverity, company: string, key: string, i: nat, j: nat)
    requires Inv(store) && i < j < |ops| && CreatesWith(ops[i], company, key) && CreatesWith(ops[j], company, key)
    ensures |Run(store, ops, Stepping(bySeverity)).1| == |ops|
    ensures var first, second := Run(store, ops, Stepping(bySeverity)).1[i], Run(store, ops, Stepping(bySeverity)).1[j];
      first.Failed? || second.Failed? || (first.ItemAnswer? && second.ItemAnswer? && second.item.id == first.item.id && !second.created)
  {
    SteppingKeeps(bySeverity);
    SteppingCreatesOnce(bySeverity, company, key);
    SameItem(store, ops, Stepping(bySeverity), company, key, i, j);
  }

  // ---------- the first create with a key ----------

  /** No other operation, and no failed one, gives the key an item. */
  ghost predicate OnlyCreatesAdd(step: Stepper, company: string, key: string) {
    forall store, op ::
      Inv(store) && NoItem(store, company, key) && (!CreatesWith(op, company, key) || step(store, op).1.Failed?)
      ==> NoItem(step(store, op).0, company, key)
  }

  lemma CreateOfAnotherKey(store: Store, args: CreateArgs, now: int, bySeverity: WindowBySeverity, company: string, key: string)
    requires Inv(store) && NoItem(store, company, key) && Create(store, args, now, bySeverity).Ok?
    requires !(args.company == company && OptionalText(Some(args.dedupKey)) == Some(key))
    ensures NoItem(Create(store, args, now, bySeverity).value.0, company, key)
  {
    CreateKeepsInv(store, args, now, bySeverity);
    var (after, item, created) := Create(store, args, now, bySeverity).value;
    forall id | 0 <= id < |after.items| ensures !HasItem(after, company, key, id) {
      if id < |store.items| {
        assert !HasItem(store, company, key, id);
        assert after.items[id].company == store.items[id].company && after.items[id].dedupKey == store.items[id].dedupKey;
      } else {
        assert after.items[id] == item;
      }
    }
  }

  lemma ExtendsKeepsNoItem(store: Store, after: Store, company: string, key: string)
    requires Extends(store, after) && |after.items| == |store.items| && NoItem(store, company, key)
    ensures NoItem(after, company, key)
  {
    forall id | 0 <= id < |after.items| ensures !HasItem(after, company, key, id) {
      assert !HasItem(store, company, key, id);
    }
  }

  lemma OtherStepKeepsNoItem(store: Store, op: Op, bySeverity: WindowBySeverity, company: string, key: string)
    requires Inv(store) && NoItem(store, company, key)
    requires !CreatesWith(op, company, key) || Step(store, op, bySeverity).1.Failed?
    ensures NoItem(Step(store, op, bySeverity).0, company, key)
  {
    StepKeepsInv(store, op, bySeverity);
    var after := Step(store, op, bySeverity).0;
    if op.DoCreate? && Create(store, op.create, op.now, bySeverity).Ok? {
      CreateOfAnotherKey(store, op.create, op.now, bySeverity, company, key);
    } else {
      SameItemCount(store, op, bySeverity);
      ExtendsKeepsNoItem(store, after, company, key);
    }
  }

  lemma SameItemCount(store: Store, op: Op, bySeverity: WindowBySeverity)
    requires Inv(store) && (op.DoCreate? ==> Create(store, op.create, op.now, bySeverity).Err?)
    ensures |Step(store, op, bySeverity).0.items| == |store.items|
  {
    match op
    case DoCreate(_, _) =>
    case DoAppend(args, now) =>
      if Append(store, args, now).Ok? {
        AppendKeepsInv(store, args, now);
      }
    case DoUpdate(_, _) =>
  }

  lemma SteppingOnlyCreatesAdd(bySeverity: WindowBySeverity, company: string, key: string)
    ensures OnlyCreatesAdd(Stepping(bySeverity), company, key)
  {
    forall store, op | Inv(store) && NoItem(store, company, key)
        && (!CreatesWith(op, company, key) || Stepping(bySeverity)(store, op).1.Failed?)
      ensures NoItem(Stepping(bySeverity)(store, op).0, company, key)
    {
      OtherStepKeepsNoItem(store, op, bySeverity, company, key);
    }
  }

  /** No create with the key before position `j` succeeds. */
  predicate FirstSuccess(ops: seq<Op>, answers: seq<Answer>, company: string, key: string, j: nat)
    requires j <= |ops| && |answers| == |ops|
  {
    forall i :: 0 <= i < j && CreatesWith(ops[i], company, key) ==> answers[i].Failed?
  }

  lemma {:induction false} CreatedIffFirst(store: Store, ops: seq<Op>, step: Stepper, company: string, key: string, j: nat)
    requires Inv(store) && Keeps(step) && CreatesOnce(step, company, key) && OnlyCreatesAdd(step, company, key)
    requires NoItem(store, company, key) && j < |ops| && CreatesWith(ops[j], company, key)
    ensures |Run(store, ops, step).1| == |ops|
    ensures var answers := Run(store, ops, step).1;
      !answers[j].Failed? ==> answers[j].ItemAnswer? && (answers[j].created <==> FirstSuccess(ops, answers, company, key, j))
    decreases |ops|
  {
    RunLength(store, ops, step);
    var store1, answers := step(store, ops[0]).0, Run(store, ops, step).1;
    assert answers[0] == step(store, ops[0]).1;
    if j == 0 {
      assert AnswersItem(store, store1, answers[0], company, key);
    } else if CreatesWith(ops[0], company, key) && !answers[0].Failed? {
      SameItem(store, ops, step, company, key, 0, j);
      assert AnswersItem(store, store1, answers[0], company, key);
    } else {
      CreatedIffFirst(store1, ops[1..], step, company, key, j - 1);
      FirstSuccessShifts(ops, answers, company, key, j);
    }
  }

  lemma FirstSuccessShifts(ops: seq<Op>, answers: seq<Answer>, company: string, key: string, j: nat)
    requires 0 < j <= |ops| && |answers| == |ops| && (CreatesWith(ops[0], company, key) ==> answers[0].Failed?)
    ensures FirstSuccess(ops, answers, company, key, j) <==> FirstSuccess(ops[1..], answers[1..], company, key, j - 1)
  {
    if FirstSuccess(ops[1..], answers[1..], company, key, j - 1) {
      forall i | 0 <= i < j && CreatesWith(ops[i], company, key) ensures answers[i].Failed? {
        if i > 0 {
          assert ops[1..][i - 1] == ops[i] && answers[1..][i - 1] == answers[i];
        }
      }
    }
    if FirstSuccess(ops, answers, company, key, j) {
      forall i | 0 <= i < j - 1 && CreatesWith(ops[1..][i], company, key) ensures answers[1..][i].Failed? {
        assert CreatesWith(ops[i + 1], company, key);
      }
    }
  }

  /** From a store where the key has no item, over any interleaving, a successful create with the key
      reports that it created exactly when no create with the key succeeded before it: so if any
      succeeds, exactly one reports it, the first. */
  lemma FirstCreateReports(store: Store, ops: seq<Op>, bySeverity: WindowBySeverity, company: string, key: string, j: nat)
    requires Inv(store) && NoItem(store, company, key) && j < |ops| && CreatesWith(ops[j], company, key)
    ensures |Run(store, ops, Stepping(bySeverity)).1| == |ops|
    ensures var answers := Run(store, ops, Stepping(bySeverity)).1;
      !answers[j].Failed? ==> answers[j].ItemAnswer? && (answers[j].created <==> FirstSuccess(ops, answers, company, key, j))
  {
    SteppingKeeps(bySeverity);
    SteppingCreatesOnce(bySeverity, company, key);
    SteppingOnlyCreatesAdd(bySeverity, company, key);
    CreatedIffFirst(store, ops, Stepping(bySeverity), company, key, j);
  }

  // ---------- events with one key ----------

  /** The operation carries the key, as an append or as the event of an update. */
  predicate CarriesKey(op: Op, company: string, key: string) {
    match op
    case DoCreate(_, _) => false
    case DoAppend(event, _) => event.company == company && OptionalText(event.idempotencyKey) == Some(key)
    case DoUpdate(update, _) => update.event.company == company && OptionalText(update.event.idempotencyKey) == Some(key)
  }

  /** The event that an append answers, or that an update logs. */
  function EventOf(answer: Answer): Option<Event> {
    match answer
    case EventAnswer(event) => Some(event)
    case UpdateAnswer(_, event) => Some(event)
    case _ => None
  }

  predicate HasEvent(store: Store, company: string, key: string, event: Event) {
    event in store.events && event.company == company && event.idempotencyKey == Some(key)
  }

  /** What a successful append or update with the key answers. */
  ghost predicate AnswersEvent(store: Store, after: Store, answer: Answer, company: string, key: string) {
    answer.Failed? || (EventOf(answer).Some? && HasEvent(after, company, key, EventOf(answer).value)
      && forall event :: HasEvent(store, company, key, event) ==> EventOf(answer) == Some(event))
  }

  ghost predicate LogsOnce(step: Stepper, company: string, key: string) {
    forall store, op :: Inv(store) && CarriesKey(op, company, key) ==> AnswersEvent(store, step(store, op).0, step(store, op).1, company, key)
  }

  /** An append under a key answers the one event of the key. */
  lemma AppendFindsEvent(store: Store, args: EventArgs, now: int, key: string)
    requires Inv(store) && OptionalText(args.idempotencyKey) == Some(key) && Append(store, args, now).Ok?
    ensures var (after, event) := Append(store, args, now).value;
      HasEvent(after, args.company, key, event) && forall other :: HasEvent(store, args.company, key, other) ==> event == other
  {
    AppendKeepsInv(store, args, now);
    EventByKeyFinds(store.events, args.company, key);
    forall other | HasEvent(store, args.company, key, other) ensures Append(store, args, now).value.1 == other {
      var i :| 0 <= i < |store.events| && store.events[i] == other;
      assert i == EventByKey(store.events, args.company, key).value;
    }
  }

  lemma UpdateLogsAppended(store: Store, args: UpdateArgs, now: int) returns (appended: EventArgs)
    requires Inv(store) && Update(store, args, now).Ok?
    ensures appended.company == args.event.company && appended.idempotencyKey == args.event.idempotencyKey
    ensures Append(store, appended, now).Ok?
    ensures Append(store, appended, now).value.0.events == Update(store, args, now).value.0.events
    ensures Append(store, appended, now).value.1 == Update(store, args, now).value.2
  {
    var at := ItemById(store.items, args.event.company, args.event.workItemId).value;
    appended := args.event.(captureSessionId := store.items[at].facts.captureSessionId);
  }

  lemma AnswersCarriedKey(store: Store, op: Op, bySeverity: WindowBySeverity, company: string, key: string)
    requires Inv(store) && CarriesKey(op, company, key)
    ensures AnswersEvent(store, Step(store, op, bySeverity).0, Step(store, op, bySeverity).1, company, key)
  {
    if !Step(store, op, bySeverity).1.Failed? {
      if op.DoAppend? {
        AppendFindsEvent(store, op.event, op.now, key);
      } else {
        var appended := UpdateLogsAppended(store, op.update, op.now);
        AppendFindsEvent(store, appended, op.now, key);
      }
    }
  }

  lemma SteppingLogsOnce(bySeverity: WindowBySeverity, company: string, key: string)
    ensures LogsOnce(Stepping(bySeverity), company, key)
  {
    forall store, op | Inv(store) && CarriesKey(op, company, key)
      ensures AnswersEvent(store, Stepping(bySeverity)(store, op).0, Stepping(bySeverity)(store, op).1, company, key)
    {
      AnswersCarriedKey(store, op, bySeverity, company, key);
    }
  }

  lemma SameEvent(store: Store, ops: seq<Op>, step: Stepper, company: string, key: string, i: nat, j: nat)
    requires Inv(store) && Keeps(step) && LogsOnce(step, company, key)
    requires i < j < |ops| && CarriesKey(ops[i], company, key) && CarriesKey(ops[j], company, key)
    ensures |Run(store, ops, step).1| == |ops|
    ensures var first, second := Run(store, ops, step).1[i], Run(store, ops, step).1[j];
      first.Failed? || second.Failed? || (EventOf(first).Some? && EventOf(second) == EventOf(first))
  {
    var before, later := RunSplitsTwice(store, ops, step, i, j);
    assert AnswersEvent(before, step(before, ops[i]).0, step(before, ops[i]).1, company, key);
    assert AnswersEvent(later, step(later, ops[j]).0, step(later, ops[j]).1, company, key);
    var first := step(before, ops[i]).1;
    if EventOf(first).Some? {
      assert HasEvent(later, company, key, EventOf(first).value);
    }
  }

  /** All successful operations that carry one company and key, appends and updates alike, answer or
      log one and the same event. */
  lemma OneEventPerKey(store: Store, ops: seq<Op>, bySeverity: WindowBySeverity, company: string, key: string, i: nat, j: nat)
    requires Inv(store) && i < j < |ops| && CarriesKey(ops[i], company, key) && CarriesKey(ops[j], company, key)
    ensures |Run(store, ops, Stepping(bySeverity)).1| == |ops|
    ensures var first, second := Run(store, ops, Stepping(bySeverity)).1[i], Run(store, ops, Stepping(bySeverity)).1[j];
      first.Failed? || second.Failed? || (EventOf(first).Some? && EventOf(second) == EventOf(first))
  {
    SteppingKeeps(bySeverity);
    SteppingLogsOnce(bySeverity, company, key);
    SameEvent(store, ops, Stepping(bySeverity), company, key, i, j);
  }

  // ---------- retried updates ----------

  /** Appending again under a key that is taken answers the event that took it. */
  lemma RetriedAppend(store: Store, args: EventArgs, now: int, later: int)
    requires Inv(store) && OptionalText(args.idempotencyKey).Some? && Append(store, args, now).Ok?
    ensures var (after, event) := Append(store, args, now).value; Inv(after) && Append(after, args, later) == Ok((after, event))
  {
    AppendKeepsInv(store, args, now);
    var (after, event) := Append(store, args, now).value;
    EventByKeyFinds(after.events, args.company, OptionalText(args.idempotencyKey).value);
    var i :| 0 <= i < |after.events| && after.events[i] == event;
    assert EventByKey(after.events, args.company, OptionalText(args.idempotencyKey).value) == Some(i);
  }

  /** What a successful update comes to, given the item found and the event appended. */
  lemma UpdateUnfolds(store: Store, args: UpdateArgs, now: int, at: nat, appended: Store, event: Event)
    requires at < |store.items| && ItemById(store.items, args.event.company, args.event.workItemId) == Some(at)
    requires args.status.GetOr(store.items[at].status) in STATUSES && args.lane.GetOr(store.items[at].lane) in LANES
    requires Append(store, args.event.(captureSessionId := store.items[at].facts.captureSessionId), now) == Ok((appended, event))
    ensures var updated := UpdatedItem(store.items[at], args, now);
      Update(store, args, now) == Ok((appended.(items := store.items[at := updated]), updated, event))
  {
  }

  /** An append depends on the event table alone. */
  lemma AppendIgnoresItems(store: Store, args: EventArgs, now: int, items: seq<Item>)
    ensures Append(store.(items := items), args, now)
      == if Append(store, args, now).Err? then Err(Append(store, args, now).error)
         else Ok((Append(store, args, now).value.0.(items := items), Append(store, args, now).value.1))
  {
  }

  /** An immediate identical retry of an update that carries a key adds no event, answers the same
      event, and changes nothing but the time of the last update. */
  lemma RetriedUpdate(store: Store, args: UpdateArgs, now: int, later: int)
    requires Inv(store) && OptionalText(args.event.idempotencyKey).Some? && Update(store, args, now).Ok?
    ensures var (once, item, event) := Update(store, args, now).value;
      item.id < |once.items| && once.items[item.id] == item
      && Update(once, args, later) == Ok((once.(items := once.items[item.id := item.(updatedAt := later)]),
          item.(updatedAt := later), event))
  {
    ItemByIdFinds(store.items, args.event.company, args.event.workItemId);
    var at := ItemById(store.items, args.event.company, args.event.workItemId).value;
    var eventArgs := args.event.(captureSessionId := store.items[at].facts.captureSessionId);
    var appended, event := Append(store, eventArgs, now).value.0, Append(store, eventArgs, now).value.1;
    UpdateUnfolds(store, args, now, at, appended, event);
    AppendKeepsInv(store, eventArgs, now);
    RetriedAppend(store, eventArgs, now, later);
    UpdateAgain(store.items, appended, args, now, later, at, event);
  }

  /** The second of two identical updates, given that its event is the first one's. */
  lemma UpdateAgain(items: seq<Item>, appended: Store, args: UpdateArgs, now: int, later: int, at: nat, event: Event)
    requires at < |items| && items[at].id == at && ItemById(items, args.event.company, args.event.workItemId) == Some(at)
    requires args.status.GetOr(items[at].status) in STATUSES && args.lane.GetOr(items[at].lane) in LANES
    requires Append(appended, args.event.(captureSessionId := items[at].facts.captureSessionId), later) == Ok((appended, event))
    ensures var item := UpdatedItem(items[at], args, now);
      var once := appended.(items := items[at := item]);
      Update(once, args, later) == Ok((once.(items := once.items[at := item.(updatedAt := later)]), item.(updatedAt := later), event))
  {
    var item := UpdatedItem(items[at], args, now);
    var once := appended.(items := items[at := item]);
    AppendIgnoresItems(appended, args.event.(captureSessionId := items[at].facts.captureSessionId), later, once.items);
    ItemByIdSame(items, at, item, args.event.company, args.event.workItemId);
    UpdateUnfolds(once, args, later, at, once, event);
  }

  /** Rewriting an item in place does not change where it is found. */
  lemma {:induction false} ItemByIdSame(items: seq<Item>, at: nat, item: Item, company: string, id: nat)
    requires at < |items| && item.company == items[at].company && item.id == items[at].id
    ensures ItemById(items[at := item], company, id) == ItemById(items, company, id)
  {
    var last := |items| - 1;
    if at < last {
      assert items[at := item][..last] == items[..last][at := item];
      ItemByIdSame(items[..last], at, item, company, id);
    } else {
      assert items[at := item][..last] == items[..last];
    }
  }

  /** No event of the key belongs to another item. */
  predicate KeyIsFor(store: Store, company: string, key: Option<string>, workItemId: nat) {
    key.Some? ==>
      forall i :: 0 <= i < |store.events| && store.events[i].company == company && store.events[i].idempotencyKey == key ==>
        store.events[i].workItemId == workItemId
  }

  /** The event an update answers belongs to the updated item exactly when the key was unused or was
      first used for this item.  With a key first used elsewhere the item changes all the same, no
      event is added, and the caller gets the other item's event. */
  lemma UpdateEventBelongs(store: Store, args: UpdateArgs, now: int)
    requires Inv(store) && Update(store, args, now).Ok?
    ensures var (after, item, event) := Update(store, args, now).value;
      (event.workItemId == item.id <==> KeyIsFor(store, args.event.company, OptionalText(args.event.idempotencyKey), item.id))
      && (event.workItemId != item.id ==> after.events == store.events && item.id < |after.items| && after.items[item.id] == item)
  {
    ItemByIdFinds(store.items, args.event.company, args.event.workItemId);
    var key := OptionalText(args.event.idempotencyKey);
    if key.Some? {
      EventByKeyFinds(store.events, args.event.company, key.value);
    }
  }

  lemma AppendOnTakenKey(store: Store, args: EventArgs, now: int, at: nat)
    requires args.eventType in EVENT_TYPES && args.actorKind in ACTOR_KINDS && OptionalText(args.idempotencyKey).Some?
    requires EventByKey(store.events, args.company, OptionalText(args.idempotencyKey).value) == Some(at) && at < |store.events|
    ensures Append(store, args, now) == Ok((store, store.events[at]))
  {
  }

  function SampleItem(id: nat, facts: Facts): Item {
    Item(id, "c", None, facts, "new", "triage", None, None, None, 0, 0)
  }

  /** An event of item 0, and an update of item 1 under the same key. */
  const OF_ITEM_0 := Event(0, "c", 0, Some("k"), "message.added", "user", None, None, "", "", None, 0)
  const RESOLVE_ITEM_1 := UpdateArgs(EventArgs("c", 1, "resolution.accepted", "user", None, None, "", "", Some("k"), None),
    Some("resolved"), None, Keep, Keep, Keep)

  /** A key first used for item 0: an update of item 1 under that key changes item 1, logs nothing, and
      answers the event of item 0. */
  lemma KeyOfAnotherItem(facts: Facts)
    ensures var store := Store([SampleItem(0, facts), SampleItem(1, facts)], [OF_ITEM_0]);
      var resolved := SampleItem(1, facts).(status := "resolved", updatedAt := 5);
      Inv(store)
      && Update(store, RESOLVE_ITEM_1, 5) == Ok((Store([SampleItem(0, facts), resolved], [OF_ITEM_0]), resolved, OF_ITEM_0))
      && OF_ITEM_0.workItemId != resolved.id
  {
    var items := [SampleItem(0, facts), SampleItem(1, facts)];
    var store := Store(items, [OF_ITEM_0]);
    ItemByIdFinds(items, "c", 1);
    EventByKeyFinds([OF_ITEM_0], "c", "k");
    assert Trim("k") == "k";
    assert EVENT_TYPES[22] in EVENT_TYPES && ACTOR_KINDS[0] in ACTOR_KINDS && STATUSES[7] in STATUSES && LANES[0] in LANES;
    AppendOnTakenKey(store, RESOLVE_ITEM_1.event.(captureSessionId := facts.captureSessionId), 5, 0);
    UpdateUnfolds(store, RESOLVE_ITEM_1, 5, 1, store, OF_ITEM_0);
    assert items[1 := UpdatedItem(items[1], RESOLVE_ITEM_1, 5)] == [items[0], UpdatedItem(items[1], RESOLVE_ITEM_1, 5)];
  }
}
