/** The work-item and handoff-event store of apps/api/src/context-handoff.ts. */
module WorkItems {
  import opened Basics

  // ---------- vocabularies ----------

  const STATUSES := ["new", "triaged", "agent_running", "human_assigned", "review_ready", "review_stale",
    "proposal_expired", "resolved", "reopened", "wont_do", "reversed"]
  const LANES := ["triage", "human", "agent", "both", "done"]
  const SEVERITIES := ["low", "normal", "high", "urgent"]
  const DOMAINS := ["app_issue", "field_request"]
  const ACTOR_KINDS := ["user", "agent", "system", "external"]
  const EVENT_TYPES := [
    "work_item.created", "work_item.updated", "work_item.status_changed", "message.added", "support_packet.linked",
    "agent.dispatch_requested", "agent.dispatch_acknowledged", "agent.dispatch_retried", "agent.dispatch_cancel_requested",
    "agent.callback_missing", "agent.failed", "agent.dispatch_expired", "agent.message_received", "agent.artifact_attached",
    "agent.proposal_ready", "agent.completed", "human.assigned", "human.review_requested", "human.reviewed",
    "external.github_export_prepared", "handoff_packet.exported", "external.github_linked", "resolution.accepted",
    "resolution.reopened", "work_item.reversed"]

  // ---------- tables ----------

  /** The columns a create writes once and nothing changes later. */
  datatype Facts = Facts(
    supportPacketId: string, domain: string, title: string, summary: Option<string>, severity: Option<string>,
    route: Option<string>, captureSessionId: Option<string>, entityType: Option<string>, entityId: Option<string>,
    createdByUserId: Option<string>, metadata: string, reversibilityWindowSeconds: int)

  datatype Item = Item(
    id: nat, company: string, dedupKey: Option<string>, facts: Facts, status: string, lane: string,
    assigneeUserId: Option<string>, resolvedAt: Option<string>, reversedAt: Option<string>, createdAt: int, updatedAt: int)

  datatype Event = Event(
    id: nat, company: string, workItemId: nat, idempotencyKey: Option<string>, eventType: string, actorKind: string,
    actorUserId: Option<string>, actorRef: Option<string>, payload: string, metadata: string,
    captureSessionId: Option<string>, recordedAt: int)

  datatype Store = Store(items: seq<Item>, events: seq<Event>)

  const EMPTY := Store([], [])

  datatype CreateArgs = CreateArgs(
    company: string, supportPacketId: string, domain: Option<string>, title: string, summary: Option<string>,
    status: Option<string>, lane: Option<string>, severity: Option<string>, route: Option<string>,
    captureSessionId: Option<string>, entityType: Option<string>, entityId: Option<string>, assigneeUserId: Option<string>,
    createdByUserId: Option<string>, metadata: string, reversibilityWindowSeconds: Option<real>, dedupKey: string)

  datatype EventArgs = EventArgs(
    company: string, workItemId: nat, eventType: string, actorKind: string, actorUserId: Option<string>,
    actorRef: Option<string>, payload: string, metadata: string, idempotencyKey: Option<string>,
    captureSessionId: Option<string>)

  /** An argument that may be left out: `undefined` keeps the column, anything else replaces it. */
  datatype Arg<T> = Keep | Replace(value: T)

  datatype UpdateArgs = UpdateArgs(
    event: EventArgs, status: Option<string>, lane: Option<string>,
    assigneeUserId: Arg<Option<string>>, resolvedAt: Arg<Option<string>>, reversedAt: Arg<Option<string>>)

  datatype Error = TitleRequired | NotAllowed(what: string) | NoRow

  // ---------- small helpers ----------

  function OptionalText(value: Option<string>): Option<string> {
    if value.None? || Trim(value.value) == "" then None else Some(Trim(value.value))
  }

  /** `reversibilityWindowForSeverity` of the shared contract is not part of this model. */
  type WindowBySeverity = Option<string> -> int

  function Window(args: CreateArgs, bySeverity: WindowBySeverity): int {
    if args.reversibilityWindowSeconds.Some? then
      var seconds := args.reversibilityWindowSeconds.value.Floor;
      if seconds > 0 then seconds else 0
    else bySeverity(args.severity)
  }

  function CheckCreate(args: CreateArgs): Option<Error> {
    if OptionalText(Some(args.title)).None? then Some(TitleRequired)
    else if args.status.GetOr("new") !in STATUSES then Some(NotAllowed("status"))
    else if args.lane.GetOr("triage") !in LANES then Some(NotAllowed("lane"))
    else if args.domain.GetOr("field_request") !in DOMAINS then Some(NotAllowed("domain"))
    else if args.severity.GetOr("") != "" && args.severity.value !in SEVERITIES then Some(NotAllowed("severity"))
    else None
  }

  function NewItem(args: CreateArgs, id: nat, now: int, bySeverity: WindowBySeverity): Item {
    Item(id, args.company, OptionalText(Some(args.dedupKey)),
      Facts(args.supportPacketId, args.domain.GetOr("field_request"), OptionalText(Some(args.title)).GetOr(""),
        OptionalText(args.summary), args.severity, OptionalText(args.route), OptionalText(args.captureSessionId),
        OptionalText(args.entityType), OptionalText(args.entityId), OptionalText(args.createdByUserId), args.metadata,
        Window(args, bySeverity)),
      args.status.GetOr("new"), args.lane.GetOr("triage"), OptionalText(args.assigneeUserId), None, None, now, now)
  }

  function NewEvent(args: EventArgs, id: nat, now: int): Event {
    Event(id, args.company, args.workItemId, OptionalText(args.idempotencyKey), args.eventType, args.actorKind,
      OptionalText(args.actorUserId), OptionalText(args.actorRef), args.payload, args.metadata,
      OptionalText(args.captureSessionId), now)
  }

  // ---------- lookups ----------

  function ItemByKey(items: seq<Item>, company: string, key: string): Option<nat> {
    if items == [] then None
    else
      var earlier := ItemByKey(items[..|items| - 1], company, key);
      if earlier.Some? then earlier
      else if items[|items| - 1].company == company && items[|items| - 1].dedupKey == Some(key) then Some(|items| - 1) else None
  }

  function EventByKey(events: seq<Event>, company: string, key: string): Option<nat> {
    if events == [] then None
    else
      var earlier := EventByKey(events[..|events| - 1], company, key);
      if earlier.Some? then earlier
      else if events[|events| - 1].company == company && events[|events| - 1].idempotencyKey == Some(key) then Some(|events| - 1) else None
  }

  function ItemById(items: seq<Item>, company: string, id: nat): Option<nat> {
    if items == [] then None
    else
      var earlier := ItemById(items[..|items| - 1], company, id);
      if earlier.Some? then earlier
      else if items[|items| - 1].company == company && items[|items| - 1].id == id then Some(|items| - 1) else None
  }

  lemma {:induction false} ItemByKeyFinds(items: seq<Item>, company: string, key: string)
    ensures ItemByKey(items, company, key).None? <==> forall i :: 0 <= i < |items| ==> !(items[i].company == company && items[i].dedupKey == Some(key))
    ensures ItemByKey(items, company, key).Some? ==>
      var at := ItemByKey(items, company, key).value;
      at < |items| && items[at].company == company && items[at].dedupKey == Some(key)
  {
    if items != [] {
      ItemByKeyFinds(items[..|items| - 1], company, key);
    }
  }

  lemma {:induction false} EventByKeyFinds(events: seq<Event>, company: string, key: string)
    ensures EventByKey(events, company, key).None? <==> forall i :: 0 <= i < |events| ==> !(events[i].company == company && events[i].idempotencyKey == Some(key))
    ensures EventByKey(events, company, key).Some? ==>
      var at := EventByKey(events, company, key).value;
      at < |events| && events[at].company == company && events[at].idempotencyKey == Some(key)
  {
    if events != [] {
      EventByKeyFinds(events[..|events| - 1], company, key);
    }
  }

  lemma {:induction false} ItemByIdFinds(items: seq<Item>, company: string, id: nat)
    ensures ItemById(items, company, id).None? <==> forall i :: 0 <= i < |items| ==> !(items[i].company == company && items[i].id == id)
    ensures ItemById(items, company, id).Some? ==>
      var at := ItemById(items, company, id).value;
      at < |items| && items[at].company == company && items[at].id == id
  {
    if items != [] {
      ItemByIdFinds(items[..|items| - 1], company, id);
    }
  }

  // ---------- transactions ----------

  /** Keys are generated in order of insertion. */
  function Create(store: Store, args: CreateArgs, now: int, bySeverity: WindowBySeverity): Result<(Store, Item, bool), Error> {
    if CheckCreate(args).Some? then Err(CheckCreate(args).value)
    else
      var item := NewItem(args, |store.items|, now, bySeverity);
      var taken := if item.dedupKey.None? then None else ItemByKey(store.items, args.company, item.dedupKey.value);
      if taken.Some? && taken.value < |store.items| then Ok((store, store.items[taken.value], false))
      else Ok((store.(items := store.items + [item]), item, true))
  }

  function Append(store: Store, args: EventArgs, now: int): Result<(Store, Event), Error> {
    if args.eventType !in EVENT_TYPES then Err(NotAllowed("event_type"))
    else if args.actorKind !in ACTOR_KINDS then Err(NotAllowed("actor_kind"))
    else
      var event := NewEvent(args, |store.events|, now);
      var taken := if event.idempotencyKey.None? then None else EventByKey(store.events, args.company, event.idempotencyKey.value);
      if taken.Some? && taken.value < |store.events| then Ok((store, store.events[taken.value]))
      else Ok((store.(events := store.events + [event]), event))
  }

  function Chosen<T>(arg: Arg<T>, old_: T): T {
    if arg.Keep? then old_ else arg.value
  }

  function UpdatedItem(item: Item, args: UpdateArgs, now: int): Item {
    item.(status := args.status.GetOr(item.status), lane := args.lane.GetOr(item.lane),
      assigneeUserId := if args.assigneeUserId.Keep? then item.assigneeUserId else OptionalText(args.assigneeUserId.value),
      resolvedAt := Chosen(args.resolvedAt, item.resolvedAt), reversedAt := Chosen(args.reversedAt, item.reversedAt),
      updatedAt := now)
  }

  /** The event of an update carries the capture session of the item. */
  function Update(store: Store, args: UpdateArgs, now: int): Result<(Store, Item, Event), Error> {
    var at := ItemById(store.items, args.event.company, args.event.workItemId);
    if at.None? || at.value >= |store.items| then Err(NoRow)
    else
      var item := store.items[at.value];
      if args.status.GetOr(item.status) !in STATUSES then Err(NotAllowed("status"))
      else if args.lane.GetOr(item.lane) !in LANES then Err(NotAllowed("lane"))
      else
        var appended := Append(store, args.event.(captureSessionId := item.facts.captureSessionId), now);
        if appended.Err? then Err(appended.error)
        else
          var updated := UpdatedItem(item, args, now);
          Ok((appended.value.0.(items := store.items[at.value := updated]), updated, appended.value.1))
  }

  class WorkItemStore {
    var items: seq<Item>
    var events: seq<Event>

    constructor ()
      ensures Contents() == EMPTY
    {
      items, events := [], [];
    }

    function Contents(): Store
      reads this
    {
      Store(items, events)
    }

    /** `createContextWorkItemWithDedupTx`; the flag says whether a new item was made. */
    method CreateWithDedup(args: CreateArgs, now: int, bySeverity: WindowBySeverity) returns (result: Result<(Item, bool), Error>)
      modifies this
      ensures var expected := Create(old(Contents()), args, now, bySeverity);
        if expected.Ok? then (Contents(), result) == (expected.value.0, Ok((expected.value.1, expected.value.2)))
        else Contents() == old(Contents()) && result == Err(expected.error)
    {
      var error := CheckCreate(args);
      if error.Some? {
        return Err(error.value);
      }
      var item := NewItem(args, |items|, now, bySeverity);
      if item.dedupKey.Some? {
        var existing := ItemByKey(items, args.company, item.dedupKey.value);
        if existing.Some? && existing.value < |items| {
          return Ok((items[existing.value], false));
        }
      }
      items := items + [item];
      result := Ok((item, true));
    }

    method AppendEvent(args: EventArgs, now: int) returns (result: Result<Event, Error>)
      modifies this`events
      ensures var expected := Append(old(Contents()), args, now);
        if expected.Ok? then (Contents(), result) == (expected.value.0, Ok(expected.value.1))
        else Contents() == old(Contents()) && result == Err(expected.error)
    {
      if args.eventType !in EVENT_TYPES {
        return Err(NotAllowed("event_type"));
      }
      if args.actorKind !in ACTOR_KINDS {
        return Err(NotAllowed("actor_kind"));
      }
      var event := NewEvent(args, |events|, now);
      if event.idempotencyKey.Some? {
        var existing := EventByKey(events, args.company, event.idempotencyKey.value);
        if existing.Some? && existing.value < |events| {
          return Ok(events[existing.value]);
        }
      }
      events := events + [event];
      result := Ok(event);
    }

    method UpdateWithEvent(args: UpdateArgs, now: int) returns (result: Result<(Item, Event), Error>)
      modifies this
      ensures var expected := Update(old(Contents()), args, now);
        if expected.Ok? then (Contents(), result) == (expected.value.0, Ok((expected.value.1, expected.value.2)))
        else Contents() == old(Contents()) && result == Err(expected.error)
    {
      var at := ItemById(items, args.event.company, args.event.workItemId);
      if at.None? || at.value >= |items| {
        return Err(NoRow);
      }
      var item := items[at.value];
      if args.status.GetOr(item.status) !in STATUSES {
        return Err(NotAllowed("status"));
      }
      if args.lane.GetOr(item.lane) !in LANES {
        return Err(NotAllowed("lane"));
      }
      var appended := AppendEvent(args.event.(captureSessionId := item.facts.captureSessionId), now);
      if appended.Err? {
        return Err(appended.error);
      }
      var updated := UpdatedItem(item, args, now);
      items := items[at.value := updated];
      result := Ok((updated, appended.value));
    }
  }
}
