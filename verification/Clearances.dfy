/** Vendor and product clearances and the fan-out that follows a change of one
    (app/services/lifecycle_service.py). */
module Clearances {
  import opened Vocabulary
  import opened Lifecycle
  import opened Store
  import opened Gates
  import opened LifecycleService

  /** The audit row beside a clearance tells a first one from an update. */
  function ClearanceRecorded(d: Db, isNew: bool, id: Id): Db {
    d.(nextId := if isNew then d.nextId + 1 else d.nextId,
       audit := d.audit + [Audit(if isNew then ClearanceSet else ClearanceUpdated, id)])
  }

  function ApprovalIn(approvals: map<Id, Approval>, key: Id, next: Id, status: ApprovalStatus, until: Option<int>): Approval {
    Approval(if key in approvals then approvals[key].id else next, status, until)
  }

  function VendorApproved(d: Db, vendor: Id, status: ApprovalStatus, until: Option<int>): Db {
    var approval := ApprovalIn(d.world.vendorApprovals, vendor, d.nextId, status, until);
    ClearanceRecorded(d.(world := d.world.(vendorApprovals := d.world.vendorApprovals[vendor := approval])),
                      vendor !in d.world.vendorApprovals, approval.id)
  }

  function ProductApproved(d: Db, product: Id, status: ApprovalStatus, until: Option<int>): Db {
    var approval := ApprovalIn(d.world.productApprovals, product, d.nextId, status, until);
    ClearanceRecorded(d.(world := d.world.(productApprovals := d.world.productApprovals[product := approval])),
                      product !in d.world.productApprovals, approval.id)
  }

  /** The clearance opens its gate: granted, and not expired by the clock. */
  predicate Clears(status: ApprovalStatus, until: Option<int>, now: int) {
    status.Cleared? && (until.Some? ==> now <= until.value)
  }

  /** The use cases on systems linked to this vendor, or to this product. */
  predicate OnVendor(d: Db, vendor: Id, u: Id) {
    u in d.useCases && d.useCases[u].system in d.world.systems && d.world.systems[d.useCases[u].system].vendor == Some(vendor)
  }

  predicate OnProduct(d: Db, product: Id, u: Id) {
    u in d.useCases && d.useCases[u].system in d.world.systems && d.world.systems[d.useCases[u].system].product == Some(product)
  }

  /** Created or updated in place, with an audit row. From then on the vendor gate of every use case
      on the vendor is open exactly while the clearance is. */
  method SetVendorApproval(s: Session, vendor: Id, status: ApprovalStatus, until: Option<int>)
    modifies s
    ensures s.Tables() == VendorApproved(old(s.Tables()), vendor, status, until)
    ensures forall u | OnVendor(s.Tables(), vendor, u) ::
              VendorGate(s.Tables(), u).verdict.Advances? <==> Clears(status, until, s.world.now)
  {
    var isNew := vendor !in s.world.vendorApprovals;
    var id := s.nextId;
    if isNew {
      s.nextId := s.nextId + 1;
    } else {
      id := s.world.vendorApprovals[vendor].id;
    }
    s.world := s.world.(vendorApprovals := s.world.vendorApprovals[vendor := Approval(id, status, until)]);
    s.audit := s.audit + [Audit(if isNew then ClearanceSet else ClearanceUpdated, id)];
  }

  method SetProductApproval(s: Session, product: Id, status: ApprovalStatus, until: Option<int>)
    modifies s
    ensures s.Tables() == ProductApproved(old(s.Tables()), product, status, until)
    ensures forall u | OnProduct(s.Tables(), product, u) ::
              ProductGate(s.Tables(), u).verdict.Advances? <==> Clears(status, until, s.world.now)
  {
    var isNew := product !in s.world.productApprovals;
    var id := s.nextId;
    if isNew {
      s.nextId := s.nextId + 1;
    } else {
      id := s.world.productApprovals[product].id;
    }
    s.world := s.world.(productApprovals := s.world.productApprovals[product := Approval(id, status, until)]);
    s.audit := s.audit + [Audit(if isNew then ClearanceSet else ClearanceUpdated, id)];
  }

  /** The use case rests where its gates put it. */
  ghost predicate AtRest(d: Db, u: Id)
    requires u in d.useCases
  {
    d.useCases[u].cursor.state == Settled(d.useCases[u].cursor.state, FullVector(d, u))
  }

  /** One vendor clearance decides the vendor gate of all use cases on the vendor at once and no other
      gate of anybody, and setting it again keeps its identity. */
  lemma VendorClearanceDecides(d: Db, vendor: Id, status: ApprovalStatus, until: Option<int>, u: Id)
    requires u in d.useCases
    ensures var e := VendorApproved(d, vendor, status, until);
            && FullVector(e, u)[0].Advances? ==
               (if OnVendor(d, vendor, u) then Clears(status, until, d.world.now) else FullVector(d, u)[0].Advances?)
            && (forall k | 1 <= k < 6 :: FullVector(e, u)[k] == FullVector(d, u)[k])
            && (vendor in d.world.vendorApprovals ==> e.world.vendorApprovals[vendor].id == d.world.vendorApprovals[vendor].id)
  {
    MiddleGatesRead(d, VendorApproved(d, vendor, status, until), u);
  }

  lemma ProductClearanceDecides(d: Db, product: Id, status: ApprovalStatus, until: Option<int>, u: Id)
    requires u in d.useCases
    ensures var e := ProductApproved(d, product, status, until);
            && FullVector(e, u)[1].Advances? ==
               (if OnProduct(d, product, u) then Clears(status, until, d.world.now) else FullVector(d, u)[1].Advances?)
            && (forall k | 0 <= k < 6 && k != 1 :: FullVector(e, u)[k] == FullVector(d, u)[k])
            && (product in d.world.productApprovals ==> e.world.productApprovals[product].id == d.world.productApprovals[product].id)
  {
    MiddleGatesRead(d, ProductApproved(d, product, status, until), u);
  }

  /** A clearance is read by the gates of the use cases on its vendor or product, and by no other gate. */
  lemma OnlyVendorGatesChange(d: Db, vendor: Id, status: ApprovalStatus, until: Option<int>, u: Id)
    requires u in d.useCases && !OnVendor(d, vendor, u)
    ensures FullVector(VendorApproved(d, vendor, status, until), u) == FullVector(d, u)
  {
    MiddleGatesRead(d, VendorApproved(d, vendor, status, until), u);
  }

  lemma OnlyProductGatesChange(d: Db, product: Id, status: ApprovalStatus, until: Option<int>, u: Id)
    requires u in d.useCases && !OnProduct(d, product, u)
    ensures FullVector(ProductApproved(d, product, status, until), u) == FullVector(d, u)
  {
    MiddleGatesRead(d, ProductApproved(d, product, status, until), u);
  }

  /** Time only revokes: when nothing but the clock moves on, no gate starts to pass, so the state
      that the vector targets never moves forward and a use case can only be held, never advanced. */
  lemma TimeOnlyRevokes(d: Db, later: int, u: Id)
    requires u in d.useCases && d.world.now <= later
    ensures var p, q := FullVector(d, u), FullVector(d.(world := d.world.(now := later)), u);
            (forall k | 0 <= k < 6 :: q[k].Advances? ==> p[k].Advances?) && Rank(Target(q)).value <= Rank(Target(p)).value
  {
    var e := d.(world := d.world.(now := later));
    MiddleGatesRead(d, e, u);
    TargetIsMonotone(FullVector(d, u), FullVector(e, u));
  }

  lemma TargetIsMonotone(p: Vector, q: Vector)
    requires forall k | 0 <= k < 6 :: q[k].Advances? ==> p[k].Advances?
    ensures Rank(Target(q)).value <= Rank(Target(p)).value
  {
  }

  lemma {:induction false} OccursTwice(ids: seq<Id>, more: seq<Id>, u: Id)
    ensures Occurrences(ids + more, u) == Occurrences(ids, u) + Occurrences(more, u)
    ensures u in ids <==> Occurrences(ids, u) > 0
    decreases |ids| + |more|
  {
    if |more| == 0 {
      assert ids + more == ids;
      if |ids| > 0 {
        OccursTwice(ids[..|ids| - 1], [], u);
        assert ids == ids[..|ids| - 1] + [ids[|ids| - 1]];
        assert ids[..|ids| - 1] + [] == ids[..|ids| - 1];
      }
    } else {
      OccursTwice(ids, more[..|more| - 1], u);
      assert (ids + more)[..|ids + more| - 1] == ids + more[..|more| - 1];
    }
  }

  /** If everything was at rest before a clearance changed, then fanning out twice over the affected
      use cases, in any order, puts everything to rest again: the enumeration misses nobody. */
  lemma FanOutReachesEverybody(d: Db, vendor: Id, status: ApprovalStatus, until: Option<int>, ids: seq<Id>)
    requires AllLive(d) && forall u | u in d.useCases :: AtRest(d, u)
    requires forall u :: OnVendor(d, vendor, u) ==> u in ids
    ensures var e := FannedOut(VendorApproved(d, vendor, status, until), ids + ids);
            e.error.None? && e.db.useCases.Keys == d.useCases.Keys && forall u | u in d.useCases :: AtRest(e.db, u)
  {
    var f := VendorApproved(d, vendor, status, until);
    forall u | u in d.useCases && u !in ids ensures FullVector(f, u) == FullVector(d, u) {
      OnlyVendorGatesChange(d, vendor, status, until, u);
    }
    EverybodySettles(d, f, ids);
  }

  lemma FanOutReachesEverybodyOnProduct(d: Db, product: Id, status: ApprovalStatus, until: Option<int>, ids: seq<Id>)
    requires AllLive(d) && forall u | u in d.useCases :: AtRest(d, u)
    requires forall u :: OnProduct(d, product, u) ==> u in ids
    ensures var e := FannedOut(ProductApproved(d, product, status, until), ids + ids);
            e.error.None? && e.db.useCases.Keys == d.useCases.Keys && forall u | u in d.useCases :: AtRest(e.db, u)
  {
    var f := ProductApproved(d, product, status, until);
    forall u | u in d.useCases && u !in ids ensures FullVector(f, u) == FullVector(d, u) {
      OnlyProductGatesChange(d, product, status, until, u);
    }
    EverybodySettles(d, f, ids);
  }

  lemma EverybodySettles(d: Db, f: Db, ids: seq<Id>)
    requires AllLive(d) && f.useCases == d.useCases && forall u | u in d.useCases :: AtRest(d, u)
    requires forall u | u in d.useCases && u !in ids :: FullVector(f, u) == FullVector(d, u)
    ensures var e := FannedOut(f, ids + ids);
            e.error.None? && e.db.useCases.Keys == d.useCases.Keys && forall u | u in d.useCases :: AtRest(e.db, u)
  {
    NeverFails(f, ids + ids);
    var e := FannedOut(f, ids + ids).db;
    forall u | u in d.useCases ensures AtRest(e, u) {
      assert AtRest(d, u);
      OccursTwice(ids, ids, u);
      FanOutSettles(f, ids + ids, u);
      FanOutIsPointwise(f, ids + ids, u);
      SettledTwice(f.useCases[u].cursor.state, FullVector(f, u));
    }
  }

  lemma SettledTwice(s: LifecycleState, v: Vector)
    ensures Settled(Settled(s, v), v) == Settled(s, v)
  {
  }
}
