/** What every push keeps, whichever calls throw. */
module BillPushRuns {
  import opened Basics
  import opened BillPush

  function BillIds(bills: seq<Bill>): seq<string> {
    seq(|bills|, i requires 0 <= i < |bills| => bills[i].id)
  }

  function AppliedIds(applied: seq<Applied>): seq<string> {
    seq(|applied|, i requires 0 <= i < |applied| => applied[i].billId)
  }

  function FailedIds(errors: seq<Failure>): seq<string> {
    seq(|errors|, i requires 0 <= i < |errors| => errors[i].billId)
  }

  /** Where the bills of a push ended up, as a multiset. */
  function Landed(push: Push): multiset<string> {
    multiset(AppliedIds(push.applied)) + multiset(FailedIds(push.errors))
  }

  lemma AppliedSnoc(applied: seq<Applied>, last: Applied)
    ensures AppliedIds(applied + [last]) == AppliedIds(applied) + [last.billId]
  {
  }

  lemma FailedSnoc(errors: seq<Failure>, last: Failure)
    ensures FailedIds(errors + [last]) == FailedIds(errors) + [last.billId]
  {
  }

  /** One turn of the loop ends in exactly one new error or one new applied entry. */
  ghost predicate OneLanding(before: Push, after: Push, bill: Bill) {
    (exists problem :: after.errors == before.errors + [Failure(bill.id, problem)] && after.applied == before.applied && after.synced == before.synced)
    || (exists id :: after.applied == before.applied + [Applied(bill.id, id, bill.amount)] && after.errors == before.errors && after.synced == before.synced + 1)
  }

  lemma TurnLands(push: Push, bill: Bill, hasAccount: bool, oracle: Oracle)
    ensures OneLanding(push, PushBill(push, bill, hasAccount, oracle), bill)
  {
    if hasAccount && Trim(bill.vendorName) != "" {
      VendorLands(push, bill, Trim(bill.vendorName), oracle);
      var vendor := ResolveVendor(push, bill, Trim(bill.vendorName), oracle);
      if vendor.Found? {
        PostLands(vendor.push, bill, oracle);
      }
    }
  }

  lemma VendorLands(push: Push, bill: Bill, name: string, oracle: Oracle)
    ensures var step := ResolveVendor(push, bill, name, oracle);
      if step.Found? then step.push.errors == push.errors && step.push.applied == push.applied && step.push.synced == push.synced
      else OneLanding(push, step.push, bill)
  {
  }

  lemma PostLands(push: Push, bill: Bill, oracle: Oracle)
    ensures OneLanding(push, PostBill(push, bill, oracle), bill)
  {
  }

  /** Whatever throws, every candidate lands exactly once, in applied or in errors, and the counter
      counts the applied ones. */
  lemma {:induction false} EveryCandidateLandsOnce(push: Push, bills: seq<Bill>, hasAccount: bool, oracle: Oracle)
    requires push.synced == |push.applied|
    ensures var after := PushAll(push, bills, hasAccount, oracle);
      Landed(after) == Landed(push) + multiset(BillIds(bills)) && after.synced == |after.applied|
    decreases |bills|
  {
    if bills == [] {
      assert BillIds(bills) == [];
    } else {
      var next := PushBill(push, bills[0], hasAccount, oracle);
      TurnLands(push, bills[0], hasAccount, oracle);
      LandedGrows(push, next, bills[0]);
      EveryCandidateLandsOnce(next, bills[1..], hasAccount, oracle);
      assert BillIds(bills) == [bills[0].id] + BillIds(bills[1..]);
    }
  }

  lemma LandedGrows(before: Push, after: Push, bill: Bill)
    requires OneLanding(before, after, bill) && before.synced == |before.applied|
    ensures Landed(after) == Landed(before) + multiset{bill.id} && after.synced == |after.applied|
  {
    if problem :| after.errors == before.errors + [Failure(bill.id, problem)] && after.applied == before.applied && after.synced == before.synced {
      FailedSnoc(before.errors, Failure(bill.id, problem));
    } else {
      var id :| after.applied == before.applied + [Applied(bill.id, id, bill.amount)] && after.errors == before.errors
          && after.synced == before.synced + 1;
      AppliedSnoc(before.applied, Applied(bill.id, id, bill.amount));
    }
  }

  // ---------- vendors ----------

  /** A vendor that was created is in the cache under its id, and was created once. */
  predicate VendorsOnce(push: Push) {
    (forall i :: 0 <= i < |push.vendorsCreated| ==>
      push.vendorsCreated[i].1 != "" && push.vendorsCreated[i].0 in push.vendorCache
      && push.vendorCache[push.vendorsCreated[i].0] == push.vendorsCreated[i].1)
    && (forall i, j :: 0 <= i < j < |push.vendorsCreated| ==> push.vendorsCreated[i].0 != push.vendorsCreated[j].0)
  }

  lemma TurnKeepsVendors(push: Push, bill: Bill, hasAccount: bool, oracle: Oracle)
    requires VendorsOnce(push)
    ensures VendorsOnce(PushBill(push, bill, hasAccount, oracle))
  {
    if hasAccount && Trim(bill.vendorName) != "" {
      VendorKeepsVendors(push, bill, Trim(bill.vendorName), oracle);
      var vendor := ResolveVendor(push, bill, Trim(bill.vendorName), oracle);
      if vendor.Found? {
        PostKeepsVendors(vendor.push, bill, oracle);
      }
    }
  }

  lemma VendorKeepsVendors(push: Push, bill: Bill, name: string, oracle: Oracle)
    requires VendorsOnce(push)
    ensures VendorsOnce(ResolveVendor(push, bill, name, oracle).push)
  {
    if !(name in push.vendorCache && push.vendorCache[name] != "") {
      var created := forall i :: 0 <= i < |push.vendorsCreated| ==> push.vendorsCreated[i].0 != name;
      assert created;
      SearchKeepsVendors(Tick(push), bill, name, oracle);
    }
  }

  lemma SearchKeepsVendors(push: Push, bill: Bill, name: string, oracle: Oracle)
    requires VendorsOnce(push) && forall i :: 0 <= i < |push.vendorsCreated| ==> push.vendorsCreated[i].0 != name
    ensures VendorsOnce(SearchOrCreate(push, bill, name, oracle).push)
  {
    var search, asked := oracle(push.tick), Tick(Tick(push));
    if !search.Throws? {
      if Truthy(search.id).Some? {
        RememberKeepsVendors(Tick(push), bill, name, search.id.value, oracle);
      } else {
        var create := oracle(push.tick + 1);
        if !create.Throws? && Truthy(create.id).Some? {
          CreatedVendorOnce(asked, name, create.id.value);
        }
      }
    }
  }

  lemma RememberKeepsVendors(push: Push, bill: Bill, name: string, id: string, oracle: Oracle)
    requires VendorsOnce(push) && forall i :: 0 <= i < |push.vendorsCreated| ==> push.vendorsCreated[i].0 != name
    ensures VendorsOnce(Remember(push, bill, name, id, oracle).push)
  {
  }

  lemma CreatedVendorOnce(push: Push, name: string, id: string)
    requires VendorsOnce(push) && id != "" && forall i :: 0 <= i < |push.vendorsCreated| ==> push.vendorsCreated[i].0 != name
    ensures VendorsOnce(push.(vendorsCreated := push.vendorsCreated + [(name, id)], vendorCache := push.vendorCache[name := id]))
  {
  }

  lemma PostKeepsVendors(push: Push, bill: Bill, oracle: Oracle)
    ensures PostBill(push, bill, oracle).vendorsCreated == push.vendorsCreated && PostBill(push, bill,
        oracle).vendorCache == push.vendorCache
  {
  }

  /** In every push each vendor name has at most one create that returned an id. */
  lemma {:induction false} EachVendorCreatedOnce(push: Push, bills: seq<Bill>, hasAccount: bool, oracle: Oracle)
    requires VendorsOnce(push)
    ensures VendorsOnce(PushAll(push, bills, hasAccount, oracle))
    decreases |bills|
  {
    if bills != [] {
      TurnKeepsVendors(push, bills[0], hasAccount, oracle);
      EachVendorCreatedOnce(PushBill(push, bills[0], hasAccount, oracle), bills[1..], hasAccount, oracle);
    }
  }

  // ---------- the next push ----------

  /** What one turn may do to the mapping rows: bill rows only change for its own bill, deleted rows
      stay deleted, and an applied bill has its row. */
  lemma TurnMappings(push: Push, bill: Bill, hasAccount: bool, oracle: Oracle)
    ensures var after := PushBill(push, bill, hasAccount, oracle);
      (forall key :: key in push.mappings ==> key in after.mappings && after.mappings[key].deleted == push.mappings[key].deleted)
      && (forall key :: key in after.mappings && key !in push.mappings ==> !after.mappings[key].deleted)
      && (forall id :: (BILL, id) in after.mappings && (BILL, id) !in push.mappings ==> id == bill.id)
      && (after.applied != push.applied ==> (BILL, bill.id) in after.mappings)
  {
    if hasAccount && Trim(bill.vendorName) != "" {
      var vendor := ResolveVendor(push, bill, Trim(bill.vendorName), oracle);
      VendorMappings(push, bill, Trim(bill.vendorName), oracle);
      if vendor.Found? {
        PostMappings(vendor.push, bill, oracle);
      }
    }
  }

  lemma VendorMappings(push: Push, bill: Bill, name: string, oracle: Oracle)
    ensures var after := ResolveVendor(push, bill, name, oracle).push;
      (forall key :: key in push.mappings ==> key in after.mappings && after.mappings[key].deleted == push.mappings[key].deleted)
      && (forall key :: key in after.mappings && key !in push.mappings ==> !after.mappings[key].deleted && key == (VENDOR, name))
      && after.applied == push.applied
  {
  }

  lemma PostMappings(push: Push, bill: Bill, oracle: Oracle)
    ensures var after := PostBill(push, bill, oracle);
      (forall key :: key in push.mappings ==> key in after.mappings && after.mappings[key].deleted == push.mappings[key].deleted)
      && (forall key :: key in after.mappings && key !in push.mappings ==> !after.mappings[key].deleted && key == (BILL, bill.id))
      && (after.applied != push.applied ==> (BILL, bill.id) in after.mappings)
  {
  }

  /** Deleted mapping rows survive a push, and every new row is live. */
  lemma {:induction false} PushMappings(push: Push, bills: seq<Bill>, hasAccount: bool, oracle: Oracle)
    ensures var after := PushAll(push, bills, hasAccount, oracle);
      (forall key :: key in push.mappings ==> key in after.mappings && after.mappings[key].deleted == push.mappings[key].deleted)
      && (forall key :: key in after.mappings && key !in push.mappings ==> !after.mappings[key].deleted)
    decreases |bills|
  {
    if bills != [] {
      TurnMappings(push, bills[0], hasAccount, oracle);
      PushMappings(PushBill(push, bills[0], hasAccount, oracle), bills[1..], hasAccount, oracle);
    }
  }

  lemma {:induction false} AppliedHasMapping(push: Push, bills: seq<Bill>, hasAccount: bool, oracle: Oracle, i: nat)
    requires |push.applied| <= i < |PushAll(push, bills, hasAccount, oracle).applied|
    ensures (BILL, PushAll(push, bills, hasAccount, oracle).applied[i].billId) in PushAll(push, bills, hasAccount, oracle).mappings
    decreases |bills|
  {
    if bills != [] {
      var next := PushBill(push, bills[0], hasAccount, oracle);
      TurnLands(push, bills[0], hasAccount, oracle);
      TurnMappings(push, bills[0], hasAccount, oracle);
      PushMappings(next, bills[1..], hasAccount, oracle);
      AppliedOnlyGrows(next, bills[1..], hasAccount, oracle);
      if i >= |next.applied| {
        AppliedHasMapping(next, bills[1..], hasAccount, oracle, i);
      } else {
        assert next.applied != push.applied;
        assert PushAll(next, bills[1..], hasAccount, oracle).applied[i] == next.applied[i];
      }
    }
  }

  lemma {:induction false} AppliedOnlyGrows(push: Push, bills: seq<Bill>, hasAccount: bool, oracle: Oracle)
    ensures push.applied <= PushAll(push, bills, hasAccount, oracle).applied
    decreases |bills|
  {
    if bills != [] {
      TurnLands(push, bills[0], hasAccount, oracle);
      AppliedOnlyGrows(PushBill(push, bills[0], hasAccount, oracle), bills[1..], hasAccount, oracle);
    }
  }

  /** A live bill that was applied is a candidate of the next push exactly when a soft-deleted
      mapping row existed for it before this push: the upsert does not revive the row. */
  lemma AppliedBillComesBackIff(mappings: Mappings, pending: set<string>, bills: seq<Bill>, hasAccount: bool,
      oracle: Oracle, bill: Bill, i: nat)
    requires !bill.deleted && i < |PushAll(Start(mappings, pending), bills, hasAccount, oracle).applied|
    requires PushAll(Start(mappings, pending), bills, hasAccount, oracle).applied[i].billId == bill.id
    ensures IsCandidate(bill, PushAll(Start(mappings, pending), bills, hasAccount, oracle).mappings)
      <==> (BILL, bill.id) in mappings && mappings[(BILL, bill.id)].deleted
  {
    AppliedHasMapping(Start(mappings, pending), bills, hasAccount, oracle, i);
    PushMappings(Start(mappings, pending), bills, hasAccount, oracle);
  }

  // ---------- bills that exist remotely but landed in errors ----------

  /** The accounting system created the bill whose post is the next call. */
  predicate Creates(push: Push, oracle: Oracle) {
    oracle(push.tick).Returns? && Truthy(oracle(push.tick).id).Some?
  }

  /** The branches of one post: applied exactly when all four statements came back, and mirrored
      exactly when the first two did. */
  lemma CreatedAndApplied(push: Push, bill: Bill, oracle: Oracle)
    ensures var after, t := PostBill(push, bill, oracle), push.tick;
      (after.billsCreated == if Creates(push, oracle) then push.billsCreated + [(bill.id, oracle(t).id.value)] else push.billsCreated)
      && (after.applied != push.applied <==>
          Creates(push, oracle) && oracle(t + 1).Returns? && oracle(t + 2).Returns? && oracle(t + 3).Returns?)
      && (Creates(push, oracle) && oracle(t + 1).Throws? ==> after.mappings == push.mappings)
      && (Creates(push, oracle) && oracle(t + 1).Returns? ==>
          after.mappings == Upserted(push.mappings, BILL, bill.id, oracle(t).id.value))
  {
  }

  predicate NoneHasId(bills: seq<Bill>, id: string) {
    forall i :: 0 <= i < |bills| ==> bills[i].id != id
  }

  predicate DistinctIds(bills: seq<Bill>) {
    forall i, j :: 0 <= i < j < |bills| ==> bills[i].id != bills[j].id
  }

  /** A push without the bill neither adds nor removes its mapping row. */
  lemma {:induction false} OthersLeaveTheRow(push: Push, bills: seq<Bill>, hasAccount: bool, oracle: Oracle, id: string)
    requires NoneHasId(bills, id)
    ensures (BILL, id) in PushAll(push, bills, hasAccount, oracle).mappings <==> (BILL, id) in push.mappings
    decreases |bills|
  {
    if bills != [] {
      TurnMappings(push, bills[0], hasAccount, oracle);
      OthersLeaveTheRow(PushBill(push, bills[0], hasAccount, oracle), bills[1..], hasAccount, oracle, id);
    }
  }

  /** Whatever the rest of the push does, a bill that was created and mirrored is a candidate of the next
      push exactly when it is live and its mapping row was soft-deleted before, applied or not.  A bill
      whose mirror was lost is a candidate of the next push exactly when it was one of this push. */
  lemma MirroredBillIsDone(push: Push, bill: Bill, oracle: Oracle, rest: seq<Bill>, hasAccount: bool)
    requires Creates(push, oracle)
    ensures var final := PushAll(PostBill(push, bill, oracle), rest, hasAccount, oracle);
      oracle(push.tick + 1).Returns? ==>
        (IsCandidate(bill, final.mappings) <==> !bill.deleted && (BILL, bill.id) in push.mappings && push.mappings[(BILL, bill.id)].deleted)
    ensures var final := PushAll(PostBill(push, bill, oracle), rest, hasAccount, oracle);
      oracle(push.tick + 1).Throws? && NoneHasId(rest, bill.id) ==>
        (IsCandidate(bill, final.mappings) <==> IsCandidate(bill, push.mappings))
  {
    CreatedAndApplied(push, bill, oracle);
    PushMappings(PostBill(push, bill, oracle), rest, hasAccount, oracle);
    if NoneHasId(rest, bill.id) {
      OthersLeaveTheRow(PostBill(push, bill, oracle), rest, hasAccount, oracle, bill.id);
    }
  }

  lemma {:induction false} PushAllSplits(push: Push, bills: seq<Bill>, hasAccount: bool, oracle: Oracle, j: nat)
    requires j <= |bills|
    ensures PushAll(push, bills, hasAccount, oracle)
      == PushAll(PushAll(push, bills[..j], hasAccount, oracle), bills[j..], hasAccount, oracle)
    decreases |bills|
  {
    if j == 0 {
      assert bills[..j] == [] && bills[j..] == bills;
    } else {
      assert bills[..j][0] == bills[0] && bills[..j][1..] == bills[1..][..j - 1] && bills[1..][j - 1..] == bills[j..];
      PushAllSplits(PushBill(push, bills[0], hasAccount, oracle), bills[1..], hasAccount, oracle, j - 1);
    }
  }

  /** The push reaches the post of its bill number j, in this state. */
  predicate PostsAt(push: Push, bills: seq<Bill>, hasAccount: bool, oracle: Oracle, j: nat, posting: Push)
    requires j < |bills|
  {
    var bill := bills[j];
    hasAccount && Trim(bill.vendorName) != ""
    && var vendor := ResolveVendor(PushAll(push, bills[..j], hasAccount, oracle), bill, Trim(bill.vendorName), oracle);
    vendor.Found? && vendor.push == posting
  }

  lemma TurnIsPost(push: Push, bills: seq<Bill>, hasAccount: bool, oracle: Oracle, j: nat, posting: Push)
    requires j < |bills| && PostsAt(push, bills, hasAccount, oracle, j, posting)
    ensures PushAll(push, bills, hasAccount, oracle)
      == PushAll(PostBill(posting, bills[j], oracle), bills[j + 1..], hasAccount, oracle)
  {
    PushAllSplits(push, bills, hasAccount, oracle, j);
    assert bills[j..][0] == bills[j] && bills[j..][1..] == bills[j + 1..];
  }

  lemma OthersHaveOtherIds(bills: seq<Bill>, j: nat)
    requires DistinctIds(bills) && j < |bills|
    ensures NoneHasId(bills[..j], bills[j].id) && NoneHasId(bills[j + 1..], bills[j].id)
  {
  }

  /** What happens before its turn leaves the row of a bill as it was. */
  lemma RowBeforeTurn(push: Push, bills: seq<Bill>, hasAccount: bool, oracle: Oracle, j: nat, posting: Push)
    requires j < |bills| && NoneHasId(bills[..j], bills[j].id) && PostsAt(push, bills, hasAccount, oracle, j, posting)
    ensures (BILL, bills[j].id) in posting.mappings <==> (BILL, bills[j].id) in push.mappings
    ensures IsCandidate(bills[j], posting.mappings) <==> IsCandidate(bills[j], push.mappings)
  {
    PushMappings(push, bills[..j], hasAccount, oracle);
    OthersLeaveTheRow(push, bills[..j], hasAccount, oracle, bills[j].id);
    VendorMappings(PushAll(push, bills[..j], hasAccount, oracle), bills[j], Trim(bills[j].vendorName), oracle);
  }

  /** From the moment a bill is posted. */
  lemma ComesBackAfter(posting: Push, bill: Bill, oracle: Oracle, rest: seq<Bill>, hasAccount: bool)
    requires Creates(posting, oracle) && IsCandidate(bill, posting.mappings) && NoneHasId(rest, bill.id)
    ensures IsCandidate(bill, PushAll(PostBill(posting, bill, oracle), rest, hasAccount, oracle).mappings)
      <==> oracle(posting.tick + 1).Throws? || (BILL, bill.id) in posting.mappings
  {
    MirroredBillIsDone(posting, bill, oracle, rest, hasAccount);
  }

  /** A bill that a push created, at whatever place, is a candidate of the next push exactly when its
      mirror statement threw or it had a soft-deleted mapping row before the push. */
  lemma CreatedBillComesBackIff(push: Push, bills: seq<Bill>, hasAccount: bool, oracle: Oracle, j: nat, posting: Push)
    requires DistinctIds(bills) && j < |bills| && IsCandidate(bills[j], push.mappings)
    requires PostsAt(push, bills, hasAccount, oracle, j, posting) && Creates(posting, oracle)
    ensures IsCandidate(bills[j], PushAll(push, bills, hasAccount, oracle).mappings)
      <==> oracle(posting.tick + 1).Throws? || (BILL, bills[j].id) in push.mappings
  {
    OthersHaveOtherIds(bills, j);
    TurnIsPost(push, bills, hasAccount, oracle, j, posting);
    RowBeforeTurn(push, bills, hasAccount, oracle, j, posting);
    ComesBackAfter(posting, bills[j], oracle, bills[j + 1..], hasAccount);
  }

  const SAMPLE := Bill("b", "Acme", 10.0, false)

  /** The mirror statement of this push throws after the bill was created: the bill is a candidate
      again, and the next push creates it a second time. */
  lemma LostMirrorCreatesTwice()
    ensures var mappings: Mappings := map[(VENDOR, "Acme") := Mapping("v", false)];
      var first := PushAll(Start(mappings, {"b"}), [SAMPLE], true, n => if n == 2 then Throws("lost") else Returns(Some("q1")));
      IsCandidate(SAMPLE, first.mappings) && first.billsCreated == [("b", "q1")]
      && PushAll(Start(first.mappings, {"b"}), [SAMPLE], true, n => Returns(Some("q2"))).billsCreated == [("b", "q2")]
  {
  }

  /** A bill with a soft-deleted mapping row is applied by a push in which every call comes back, is a
      candidate again, and the next push creates it a second time. */
  lemma SoftDeletedRowCreatesTwice()
    ensures var mappings: Mappings := map[(VENDOR, "Acme") := Mapping("v", false), (BILL, "b") := Mapping("q0", true)];
      var first := PushAll(Start(mappings, {"b"}), [SAMPLE], true, n => Returns(Some("q1")));
      IsCandidate(SAMPLE, mappings) && first.applied == [Applied("b", "q1", 10.0)] && first.errors == []
      && first.billsCreated == [("b", "q1")] && IsCandidate(SAMPLE, first.mappings)
      && PushAll(Start(first.mappings, {"b"}), [SAMPLE], true, n => Returns(Some("q2"))).billsCreated == [("b", "q2")]
  {
  }

  // ---------- a settle statement that never succeeds ----------

  /** If this turn posts and mirrors its bill, the settle statement after that throws. */
  predicate SettleThrows(push: Push, bill: Bill, hasAccount: bool, oracle: Oracle) {
    hasAccount && Trim(bill.vendorName) != "" ==>
      var vendor := ResolveVendor(push, bill, Trim(bill.vendorName), oracle);
      vendor.Found? && Creates(vendor.push, oracle) && oracle(vendor.push.tick + 1).Returns? ==> oracle(vendor.push.tick + 2).Throws?
  }

  predicate EverySettleThrows(push: Push, bills: seq<Bill>, hasAccount: bool, oracle: Oracle)
    decreases |bills|
  {
    bills == [] || (SettleThrows(push, bills[0], hasAccount, oracle)
      && EverySettleThrows(PushBill(push, bills[0], hasAccount, oracle), bills[1..], hasAccount, oracle))
  }

  lemma SettleDecides(push: Push, bill: Bill, oracle: Oracle)
    requires Creates(push, oracle) && oracle(push.tick + 1).Returns? ==> oracle(push.tick + 2).Throws?
    ensures var after := PostBill(push, bill, oracle);
      after.applied == push.applied && after.acks == push.acks && after.pending == push.pending
  {
  }

  lemma TurnWithoutSettle(push: Push, bill: Bill, hasAccount: bool, oracle: Oracle)
    requires SettleThrows(push, bill, hasAccount, oracle)
    ensures var after := PushBill(push, bill, hasAccount, oracle);
      after.applied == push.applied && after.acks == push.acks && after.pending == push.pending
  {
    if hasAccount && Trim(bill.vendorName) != "" {
      var vendor := ResolveVendor(push, bill, Trim(bill.vendorName), oracle);
      if vendor.Found? {
        SettleDecides(vendor.push, bill, oracle);
      }
    }
  }

  lemma {:induction false} PushWithoutSettle(push: Push, bills: seq<Bill>, hasAccount: bool, oracle: Oracle)
    requires EverySettleThrows(push, bills, hasAccount, oracle)
    ensures var after := PushAll(push, bills, hasAccount, oracle);
      after.applied == push.applied && after.acks == push.acks && after.pending == push.pending
    decreases |bills|
  {
    if bills != [] {
      TurnWithoutSettle(push, bills[0], hasAccount, oracle);
      PushWithoutSettle(PushBill(push, bills[0], hasAccount, oracle), bills[1..], hasAccount, oracle);
    }
  }

  /** Where every settle statement throws, no push applies, acknowledges or settles anything, and every
      candidate lands in errors. */
  lemma NothingAppliedWithoutSettle(push: Push, bills: seq<Bill>, hasAccount: bool, oracle: Oracle)
    requires push.synced == |push.applied| && EverySettleThrows(push, bills, hasAccount, oracle)
    ensures var after := PushAll(push, bills, hasAccount, oracle);
      after.applied == push.applied && after.synced == push.synced && after.acks == push.acks && after.pending == push.pending
      && multiset(FailedIds(after.errors)) == multiset(FailedIds(push.errors)) + multiset(BillIds(bills))
  {
    PushWithoutSettle(push, bills, hasAccount, oracle);
    EveryCandidateLandsOnce(push, bills, hasAccount, oracle);
    var after := PushAll(push, bills, hasAccount, oracle);
    CancelLeft(multiset(AppliedIds(push.applied)), multiset(FailedIds(after.errors)),
      multiset(FailedIds(push.errors)) + multiset(BillIds(bills)));
  }

  /** There, a bill that was created and mirrored is reported as an error and never pushed again, unless
      its mapping row was soft-deleted: the accounting system holds it, and no push ever applies it. */
  lemma MirroredBillFailsForGood(push: Push, bills: seq<Bill>, hasAccount: bool, oracle: Oracle, j: nat, posting: Push)
    requires push.synced == |push.applied| && EverySettleThrows(push, bills, hasAccount, oracle)
    requires DistinctIds(bills) && j < |bills| && IsCandidate(bills[j], push.mappings)
    requires PostsAt(push, bills, hasAccount, oracle, j, posting) && Creates(posting, oracle)
    requires oracle(posting.tick + 1).Returns?
    ensures var after := PushAll(push, bills, hasAccount, oracle);
      after.applied == push.applied && bills[j].id in FailedIds(after.errors)
      && (IsCandidate(bills[j], after.mappings) <==> (BILL, bills[j].id) in push.mappings)
  {
    NothingAppliedWithoutSettle(push, bills, hasAccount, oracle);
    CreatedBillComesBackIff(push, bills, hasAccount, oracle, j, posting);
    assert BillIds(bills)[j] == bills[j].id;
    assert bills[j].id in multiset(FailedIds(PushAll(push, bills, hasAccount, oracle).errors));
  }

  lemma CancelLeft(x: multiset<string>, y: multiset<string>, z: multiset<string>)
    requires x + y == x + z
    ensures y == z
  {
    assert x + y - x == y && x + z - x == z;
  }
}
