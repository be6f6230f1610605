/** The material-bill push of apps/api/src/qbo-material-bill-sync.ts.

    Every database statement and every call of the accounting API is numbered in the order in which
    it is made, and an oracle says what each of them does: throw, or come back (with an id, where the
    call returns one). */
module BillPush {
  import opened Basics

  datatype Bill = Bill(id: string, vendorName: string, amount: real, deleted: bool)

  /** A row of the mapping table, keyed by (entity type, local reference). */
  datatype Mapping = Mapping(externalId: string, deleted: bool)

  type Mappings = map<(string, string), Mapping>

  datatype Reply = Throws(message: string) | Returns(id: Option<string>)

  type Oracle = nat -> Reply

  datatype Problem = NoAccount | NoVendorName | NoVendor | NoBillId | Thrown(message: string)

  datatype Failure = Failure(billId: string, problem: Problem)

  datatype Applied = Applied(billId: string, qboBillId: string, amount: real)

  /** The state of a push: the tables it writes, its local variables, and what the accounting system
      was asked to create. */
  datatype Push = Push(
    mappings: Mappings, pending: set<string>, acks: seq<string>,
    vendorCache: map<string, string>, errors: seq<Failure>, applied: seq<Applied>, synced: nat,
    tick: nat, vendorsCreated: seq<(string, string)>, billsCreated: seq<(string, string)>)

  const VENDOR := "qbo_vendor"
  const BILL := "material_bill"
  const ACCOUNT := "qbo_account"

  function Truthy(id: Option<string>): Option<string> {
    if id.Some? && id.value == "" then None else id
  }

  /** `select external_id … and deleted_at is null` */
  function LiveMapping(mappings: Mappings, entityType: string, localRef: string): Option<string> {
    if (entityType, localRef) in mappings && !mappings[(entityType, localRef)].deleted
    then Truthy(Some(mappings[(entityType, localRef)].externalId)) else None
  }

  /** `on conflict … do update set external_id, status`: a soft-deleted row stays soft-deleted. */
  function Upserted(mappings: Mappings, entityType: string, localRef: string, externalId: string): Mappings {
    var key := (entityType, localRef);
    mappings[key := Mapping(externalId, if key in mappings then mappings[key].deleted else false)]
  }

  /** A bill is a candidate while it is live and no live mapping row exists for it. */
  predicate IsCandidate(bill: Bill, mappings: Mappings) {
    !bill.deleted && !((BILL, bill.id) in mappings && !mappings[(BILL, bill.id)].deleted)
  }

  function Candidates(bills: seq<Bill>, mappings: Mappings): seq<Bill> {
    if bills == [] then []
    else (if IsCandidate(bills[0], mappings) then [bills[0]] else []) + Candidates(bills[1..], mappings)
  }

  function Fails(push: Push, bill: Bill, problem: Problem): Push {
    push.(errors := push.errors + [Failure(bill.id, problem)])
  }

  function Tick(push: Push): Push {
    push.(tick := push.tick + 1)
  }

  /** What finding a vendor comes to: an id, or the end of this bill. */
  datatype VendorStep = Found(push: Push, id: string) | Stopped(push: Push)

  /** After the mapping table had no vendor: search, create on a miss, remember. */
  function SearchOrCreate(push: Push, bill: Bill, name: string, oracle: Oracle): VendorStep {
    var search := oracle(push.tick);
    var searched := Tick(push);
    if search.Throws? then Stopped(Fails(searched, bill, Thrown(search.message)))
    else if Truthy(search.id).Some? then Remember(searched, bill, name, search.id.value, oracle)
    else
      var create := oracle(searched.tick);
      var asked := Tick(searched);
      if create.Throws? then Stopped(Fails(asked, bill, Thrown(create.message)))
      else if Truthy(create.id).None? then Stopped(Fails(asked, bill, NoVendor))
      else Remember(asked.(vendorsCreated := asked.vendorsCreated + [(name, create.id.value)]), bill, name, create.id.value, oracle)
  }

  function Remember(push: Push, bill: Bill, name: string, id: string, oracle: Oracle): VendorStep {
    var cached := push.(vendorCache := push.vendorCache[name := id]);
    var write := oracle(cached.tick);
    var done := Tick(cached);
    if write.Throws? then Stopped(Fails(done, bill, Thrown(write.message)))
    else Found(done.(mappings := Upserted(done.mappings, VENDOR, name, id)), id)
  }

  /** Cache, then mapping table, then the accounting system. */
  function ResolveVendor(push: Push, bill: Bill, name: string, oracle: Oracle): VendorStep {
    if name in push.vendorCache && push.vendorCache[name] != "" then Found(push, push.vendorCache[name])
    else
      var read := oracle(push.tick);
      var looked := Tick(push);
      if read.Throws? then Stopped(Fails(looked, bill, Thrown(read.message)))
      else
        var mapped := LiveMapping(looked.mappings, VENDOR, name);
        if mapped.Some? then Found(looked, mapped.value) else SearchOrCreate(looked, bill, name, oracle)
  }

  /** Post the bill, mirror its id, settle the outbox row, note the acknowledgement. */
  function PostBill(push: Push, bill: Bill, oracle: Oracle): Push {
    var post := oracle(push.tick);
    var posted := Tick(push);
    if post.Throws? then Fails(posted, bill, Thrown(post.message))
    else if Truthy(post.id).None? then Fails(posted, bill, NoBillId)
    else
      var id := post.id.value;
      var created := posted.(billsCreated := posted.billsCreated + [(bill.id, id)]);
      var mirror := oracle(created.tick);
      var mirrored := Tick(created);
      if mirror.Throws? then Fails(mirrored, bill, Thrown(mirror.message))
      else
        var mapped := mirrored.(mappings := Upserted(mirrored.mappings, BILL, bill.id, id));
        var settle := oracle(mapped.tick);
        var ticked := Tick(mapped);
        if settle.Throws? then Fails(ticked, bill, Thrown(settle.message))
        else
          var settled := ticked.(pending := ticked.pending - {bill.id});
          var note := oracle(settled.tick);
          var noted := Tick(settled);
          if note.Throws? then Fails(noted, bill, Thrown(note.message))
          else noted.(acks := noted.acks + [bill.id], applied := noted.applied + [Applied(bill.id, id, bill.amount)],
              synced := noted.synced + 1)
  }

  /** One turn of the loop. */
  function PushBill(push: Push, bill: Bill, hasAccount: bool, oracle: Oracle): Push {
    if !hasAccount then Fails(push, bill, NoAccount)
    else if Trim(bill.vendorName) == "" then Fails(push, bill, NoVendorName)
    else
      var vendor := ResolveVendor(push, bill, Trim(bill.vendorName), oracle);
      if vendor.Stopped? then vendor.push else PostBill(vendor.push, bill, oracle)
  }

  function PushAll(push: Push, bills: seq<Bill>, hasAccount: bool, oracle: Oracle): Push
    decreases |bills|
  {
    if bills == [] then push else PushAll(PushBill(push, bills[0], hasAccount, oracle), bills[1..], hasAccount, oracle)
  }

  function Start(mappings: Mappings, pending: set<string>): Push {
    Push(mappings, pending, [], map[], [], [], 0, 0, [], [])
  }

  class BillSync {
    var state: Push

    constructor (mappings: Mappings, pending: set<string>)
      ensures state == Start(mappings, pending)
    {
      state := Start(mappings, pending);
    }

    /** `processQboMaterialBillSync`; the result is the state's `synced`, `errors` and `applied`. */
    method Process(bills: seq<Bill>, oracle: Oracle) returns (totalCandidates: nat)
      modifies this
      ensures var candidates := Candidates(bills, old(state).mappings);
        totalCandidates == |candidates|
        && state == PushAll(old(state), candidates, LiveMapping(old(state).mappings, ACCOUNT, "materials").Some?, oracle)
    {
      var account := LiveMapping(state.mappings, ACCOUNT, "materials");
      var unsynced := Candidates(bills, state.mappings);
      for i := 0 to |unsynced|
        invariant PushAll(old(state), unsynced, account.Some?, oracle) == PushAll(state, unsynced[i..], account.Some?, oracle)
      {
        assert unsynced[i..][0] == unsynced[i] && unsynced[i..][1..] == unsynced[i + 1..];
        Turn(unsynced[i], account.Some?, oracle);
      }
      totalCandidates := |unsynced|;
    }

    /** The loop body: account, name, vendor, then the bill. */
    method Turn(bill: Bill, hasAccount: bool, oracle: Oracle)
      modifies this
      ensures state == PushBill(old(state), bill, hasAccount, oracle)
    {
      if !hasAccount {
        state := Fails(state, bill, NoAccount);
        return;
      }
      var displayName := Trim(bill.vendorName);
      if displayName == "" {
        state := Fails(state, bill, NoVendorName);
        return;
      }
      var vendor := FindVendor(bill, displayName, oracle);
      if vendor.None? {
        return;
      }
      Post(bill, oracle);
    }

    /** The bill, then its mirror row, the outbox row and the acknowledgement. */
    method Post(bill: Bill, oracle: Oracle)
      modifies this
      ensures state == PostBill(old(state), bill, oracle)
    {
      var response := Ask(oracle);
      if response.Throws? {
        state := Fails(state, bill, Thrown(response.message));
        return;
      }
      var id := Truthy(response.id);
      if id.None? {
        state := Fails(state, bill, NoBillId);
        return;
      }
      state := state.(billsCreated := state.billsCreated + [(bill.id, id.value)]);
      var mirror := Ask(oracle);
      if mirror.Throws? {
        state := Fails(state, bill, Thrown(mirror.message));
        return;
      }
      state := state.(mappings := Upserted(state.mappings, BILL, bill.id, id.value));
      var settle := Ask(oracle);
      if settle.Throws? {
        state := Fails(state, bill, Thrown(settle.message));
        return;
      }
      state := state.(pending := state.pending - {bill.id});
      var note := Ask(oracle);
      if note.Throws? {
        state := Fails(state, bill, Thrown(note.message));
        return;
      }
      state := state.(acks := state.acks + [bill.id], applied := state.applied + [Applied(bill.id, id.value, bill.amount)],
        synced := state.synced + 1);
    }

    method FindVendor(bill: Bill, displayName: string, oracle: Oracle) returns (vendorId: Option<string>)
      modifies this
      ensures var step := ResolveVendor(old(state), bill, displayName, oracle);
        state == step.push && vendorId == if step.Found? then Some(step.id) else None
    {
      if displayName in state.vendorCache && state.vendorCache[displayName] != "" {
        return Some(state.vendorCache[displayName]);
      }
      var read := Ask(oracle);
      if read.Throws? {
        state := Fails(state, bill, Thrown(read.message));
        return None;
      }
      var mapped := LiveMapping(state.mappings, VENDOR, displayName);
      if mapped.Some? {
        return mapped;
      }
      var search := Ask(oracle);
      if search.Throws? {
        state := Fails(state, bill, Thrown(search.message));
        return None;
      }
      var id := Truthy(search.id);
      if id.None? {
        var create := Ask(oracle);
        if create.Throws? {
          state := Fails(state, bill, Thrown(create.message));
          return None;
        }
        id := Truthy(create.id);
        if id.None? {
          state := Fails(state, bill, NoVendor);
          return None;
        }
        state := state.(vendorsCreated := state.vendorsCreated + [(displayName, id.value)]);
      }
      state := state.(vendorCache := state.vendorCache[displayName := id.value]);
      var write := Ask(oracle);
      if write.Throws? {
        state := Fails(state, bill, Thrown(write.message));
        return None;
      }
      state := state.(mappings := Upserted(state.mappings, VENDOR, displayName, id.value));
      vendorId := id;
    }

    method Ask(oracle: Oracle) returns (reply: Reply)
      modifies this
      ensures reply == oracle(old(state).tick) && state == Tick(old(state))
    {
      reply := oracle(state.tick);
      state := Tick(state);
    }
  }
}
