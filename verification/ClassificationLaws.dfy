/** What registering, recording and signing off a classification mean for the tier of a use case and for
    where it goes. */
module ClassificationLaws {
  import opened Vocabulary
  import opened Lifecycle
  import opened Store
  import opened Gates
  import opened Invariants
  import opened LifecycleService
  import opened ClassificationService
  import opened AssessmentService
  import opened EngineSafety
  import opened GateLaws
  import ContextResolver

  // --- Snapshots ---------------------------------------------------------------------------------------

  /** A new snapshot: the next number, the only current one, the tier of the use case only if stamped, and
      the use case as far on as its gates then let it. */
  lemma SnapshotIsNewest(d: Db, u: Id, tier: Tier, status: ClassificationStatus, stamp: bool)
    requires u in d.useCases && SnapshotsOk(d.useCases[u].classifications)
    ensures var e, cs := Snapshotted(d, u, tier, status, stamp), d.useCases[u].classifications;
            && u in e.useCases && SnapshotsOk(e.useCases[u].classifications)
            && |e.useCases[u].classifications| == |cs| + 1
            && (forall k | 0 <= k < |cs| :: e.useCases[u].classifications[k] == cs[k].(isCurrent := false))
            && e.useCases[u].classifications[|cs|] == Classification(tier, |cs| + 1, true, status)
            && e.useCases[u].euTier == (if stamp then tier else d.useCases[u].euTier)
            && e == d.(useCases := d.useCases[u := e.useCases[u]]) && AutoAdvanced(e, u) == e
  {
    LatestIsCount(d.useCases[u].classifications);
    AdvancedRests(WithRow(d, u, WithSnapshot(d.useCases[u], tier, status, stamp)), u);
    hide FullVector, Advanced;
  }

  // --- Registration --------------------------------------------------------------------------------------

  /** A registered use case goes exactly as far as its clearances, its tier and its ratification take it: a
      prohibited one is halted, and one whose tier is not ratified comes no further than INTAKE. */
  lemma RegistrationRests(d: Db, system: Id, categories: seq<bool>, tier: Tier, status: ClassificationStatus, stamp: bool)
    requires Inv(d) && system in d.world.systems
    ensures var e, sys := Registered(d, system, categories, tier, status, stamp).db, d.world.systems[system];
            && e.useCases.Keys == d.useCases.Keys + {d.nextId} && (forall w | w in d.useCases :: e.useCases[w] == d.useCases[w])
            && e.useCases[d.nextId].system == system && e.useCases[d.nextId].dataCategories == categories
            && e.useCases[d.nextId].euTier == (if stamp then tier else Unclassified)
            && e.useCases[d.nextId].classifications == [Classification(tier, 1, true, status)]
            && e.useCases[d.nextId].cursor.state ==
               if tier == Prohibited then HaltedProhibited
               else if sys.vendor.Some? && !InForce(d.world.vendorApprovals, sys.vendor.value, d.world.now) then VendorCheck
               else if sys.product.Some? && !InForce(d.world.productApprovals, sys.product.value, d.world.now) then ProductCheck
               else if !stamp || !Storable(tier) then Intake
               else UnderAssessment
  {
    var u, p := d.nextId, WithNewUseCase(d, system, categories);
    var row := WithSnapshot(p.useCases[u], tier, status, stamp);
    assert row.classifications == [Classification(tier, 1, true, status)];
    var f := WithRow(p, u, row);
    NoAssessmentYet(d);
    hide Inv;
    assert !FullVector(f, u)[3].Advances?;
    RegisteredVector(f, u, tier, system, status);
    RegisteredWalk(FullVector(f, u));
    hide FullVector, Advanced;
  }

  lemma RegisteredWalk(v: Vector)
    requires !v[3].Advances?
    ensures Advanced(NEW_CURSOR, v).state ==
            if v[2].Halts? then HaltedProhibited
            else if !v[0].Advances? then VendorCheck else if !v[1].Advances? then ProductCheck
            else if !v[2].Advances? then Intake else UnderAssessment
  {
    assert forall k | 0 <= k < 4 :: StepsOff(v, k + 1) <==> v[k].Advances?;
    RestRankIsWhereTheWalkStops(v, 0, RestRank(v, 0));
  }

  /** A registration is refused exactly for an unknown system. */
  lemma RegistrationIsRefusedIff(d: Db, system: Id, categories: seq<bool>, tier: Tier, status: ClassificationStatus, stamp: bool)
    ensures var r := Registered(d, system, categories, tier, status, stamp);
            if system in d.world.systems then r.error.None? else r == Refuse(d, NotFound)
  {
    hide Snapshotted;
  }

  lemma NoAssessmentYet(d: Db)
    requires Inv(d)
    ensures d.nextId !in d.useCases && forall a | a in d.assessments :: d.assessments[a].useCase != d.nextId
  {
    forall a | a in d.assessments ensures d.assessments[a].useCase != d.nextId {
      assert RowOk(d.assessments, d.useCases.Keys, d.assessments[a]);
    }
  }

  lemma RegisteredVector(f: Db, u: Id, tier: Tier, system: Id, status: ClassificationStatus)
    requires u in f.useCases && f.useCases[u].system == system && system in f.world.systems
    requires f.useCases[u].classifications == [Classification(tier, 1, true, status)]
    ensures var v, sys := FullVector(f, u), f.world.systems[system];
            && (v[0].Advances? <==> sys.vendor.Some? ==> InForce(f.world.vendorApprovals, sys.vendor.value, f.world.now))
            && (v[1].Advances? <==> sys.product.Some? ==> InForce(f.world.productApprovals, sys.product.value, f.world.now))
            && (v[2].Advances? <==> tier != Prohibited && Storable(f.useCases[u].euTier)) && (v[2].Halts? <==> tier == Prohibited)
  {
  }

  /** No assessment is begun while the tier is not ratified. */
  lemma AssessmentNeedsATier(d: Db, u: Id, sections: nat, facts: seq<string>, risks: seq<Id>)
    requires u in d.useCases && !Storable(d.useCases[u].euTier)
    ensures AiiaCreated(d, u, sections, facts, risks) == Refuse(d, Conflict)
  {
  }

  // --- Sign-off ---------------------------------------------------------------------------------------------

  /** A sign-off goes through exactly when the newest snapshot is pending. */
  lemma SignOffGoesThroughIff(d: Db, u: Id)
    requires Inv(d)
    ensures var error := SignedOffBy(d, u).error;
            if u !in d.useCases || d.useCases[u].classifications == [] then error == Some(NotFound)
            else
              var cs := d.useCases[u].classifications;
              && (error.None? <==> cs[|cs| - 1].status == PendingReview)
              && (error.Some? ==> error.value == Conflict)
  {
    if u in d.useCases {
      assert SnapshotsOk(d.useCases[u].classifications);
      CurrentIsNewest(d.useCases[u].classifications);
      hide FullVector, Advanced;
    }
  }

  /** The row that a sign-off advances. */
  function Ratified(row: UseCase): UseCase
    requires row.classifications != []
  {
    var n := |row.classifications| - 1;
    row.(classifications := row.classifications[n := row.classifications[n].(status := SignedOff)],
         euTier := row.classifications[n].tier)
  }

  lemma SignOffAdvances(d: Db, u: Id)
    requires Inv(d) && SignedOffBy(d, u).error.None?
    ensures d.useCases[u].classifications != []
    ensures SignedOffBy(d, u).db == AutoAdvanced(WithRow(d, u, Ratified(d.useCases[u])), u)
  {
    var cs := d.useCases[u].classifications;
    assert SnapshotsOk(cs);
    CurrentIsNewest(cs);
    hide Inv;
    assert SignOffCurrent(cs) == cs[|cs| - 1 := cs[|cs| - 1].(status := SignedOff)];
  }

  /** It makes the newest snapshot's tier the tier of the use case, whatever that was before, and marks that
      snapshot alone; the use case is then as far on as its gates let it. */
  lemma SignOffRatifies(d: Db, u: Id)
    requires Inv(d) && SignedOffBy(d, u).error.None?
    ensures var e, cs := SignedOffBy(d, u).db, d.useCases[u].classifications;
            && u in e.useCases && |cs| > 0 && e.useCases[u].euTier == cs[|cs| - 1].tier
            && e.useCases[u].classifications == cs[|cs| - 1 := cs[|cs| - 1].(status := SignedOff)]
            && e.useCases[u] == d.useCases[u].(classifications := e.useCases[u].classifications, euTier := e.useCases[u].euTier,
                                               cursor := e.useCases[u].cursor)
            && e == d.(useCases := d.useCases[u := e.useCases[u]]) && AutoAdvanced(e, u) == e
  {
    SignOffAdvances(d, u);
    hide Inv, SignedOffBy;
    AdvancedRests(WithRow(d, u, Ratified(d.useCases[u])), u);
    hide FullVector, Advanced;
  }

  /** A second sign-off conflicts. */
  lemma SignOffIsOnce(d: Db, u: Id)
    requires Inv(d) && SignedOffBy(d, u).error.None?
    ensures SignedOffBy(SignedOffBy(d, u).db, u).error == Some(Conflict)
  {
    SignOffKeeps(d, u);
    SignOffRatifies(d, u);
    var e := SignedOffBy(d, u).db;
    hide Inv, SignedOffBy;
    SignOffGoesThroughIff(e, u);
  }

  /** With a real tier that is not prohibited the intake gate is open from then on; a use case waiting at
      INTAKE moves past it, and from rest to exactly where its gates now put it. */
  lemma SignOffOpensTheIntake(d: Db, u: Id)
    requires Inv(d) && SignedOffBy(d, u).error.None?
    requires var cs := d.useCases[u].classifications; cs != [] && Storable(cs[|cs| - 1].tier) && cs[|cs| - 1].tier != Prohibited
    ensures var e := SignedOffBy(d, u).db;
            && FullVector(e, u)[2] == Advances
            && (d.useCases[u].cursor.state == Intake ==>
                  && e.useCases[u].cursor.state in {UnderAssessment, TreatmentPending, PendingAuthorisation}
                  && (Target(FullVector(d, u)) == Intake ==> e.useCases[u].cursor.state == Target(FullVector(e, u))))
  {
    OpenedVector(d, u);
    AdvancedFrom(d, u);
    hide Inv, SignedOffBy, FullVector, Target, Advanced;
    if d.useCases[u].cursor.state == Intake {
      PastIntake(d.useCases[u].cursor, FullVector(SignedOffBy(d, u).db, u));
      TargetByGates(FullVector(d, u));
    }
  }

  lemma OpenedVector(d: Db, u: Id)
    requires Inv(d) && SignedOffBy(d, u).error.None?
    requires var cs := d.useCases[u].classifications; cs != [] && Storable(cs[|cs| - 1].tier) && cs[|cs| - 1].tier != Prohibited
    ensures var e := SignedOffBy(d, u).db;
            && u in e.useCases && FullVector(e, u)[2] == Advances
            && FullVector(e, u)[0] == FullVector(d, u)[0] && FullVector(e, u)[1] == FullVector(d, u)[1]
  {
    SignOffKeeps(d, u);
    SignOffRatifies(d, u);
    hide SignedOffBy, FullVector;
    IntakeGateIff(SignedOffBy(d, u).db, u);
    ClearanceGatesIff(d, u);
    ClearanceGatesIff(SignedOffBy(d, u).db, u);
  }

  lemma AdvancedFrom(d: Db, u: Id)
    requires Inv(d) && SignedOffBy(d, u).error.None?
    ensures var e := SignedOffBy(d, u).db; u in e.useCases && e.useCases[u].cursor == Advanced(d.useCases[u].cursor, FullVector(e, u))
  {
    SignOffAdvances(d, u);
    hide Inv, SignedOffBy;
    AdvancedRests(WithRow(d, u, Ratified(d.useCases[u])), u);
    hide FullVector, Advanced;
  }

  lemma PastIntake(c: Cursor, v: Vector)
    requires c.state == Intake && v[2] == Advances
    ensures Advanced(c, v).state in {UnderAssessment, TreatmentPending, PendingAuthorisation}
    ensures v[0] == Advances && v[1] == Advances ==> Advanced(c, v).state == Target(v)
  {
    if v[0] == Advances && v[1] == Advances { WalkReachesTarget(v, 3); }
    RestRankIsWhereTheWalkStops(v, 3, RestRank(v, 3));
  }

  // --- Context answers -----------------------------------------------------------------------------------------

  /** The tier that recording an outcome is about. */
  function Wanted(outcome: ContextResolver.Resolution, override: Option<Tier>): Tier
    requires outcome.Outcome? && outcome.tier.Some?
  {
    match override case Some(t) => t case None => outcome.tier.value
  }

  /** Recording an outcome: failures are passed on; an unresolved one leaves no trace; otherwise the
      override, or without one the computed tier, must be a real one. */
  lemma RecordingGoesThroughIff(d: Db, u: Id, outcome: ContextResolver.Resolution, override: Option<Tier>)
    requires outcome.Outcome? && !outcome.kind.Unresolved? ==> outcome.tier.Some? && Storable(outcome.tier.value)
    ensures var r := ContextRecorded(d, u, outcome, override);
            if u !in d.useCases then r == Refuse(d, NotFound)
            else if outcome.Failed? then r == Refuse(d, outcome.error)
            else if outcome.kind.Unresolved? then r == Done(d)
            else (r.error.None? <==> Storable(Wanted(outcome, override))) && (r.error.Some? ==> r == Refuse(d, Unprocessable))
  {
  }

  /** It is stored as the newest snapshot, pending, without touching the ratified tier; and signing off next
      ratifies exactly that tier: the override wherever there is one. */
  lemma RecordedTierIsRatified(d: Db, u: Id, outcome: ContextResolver.Resolution, override: Option<Tier>)
    requires Inv(d) && u in d.useCases && outcome.Outcome? && !outcome.kind.Unresolved? && outcome.tier.Some?
    requires Storable(outcome.tier.value) && Storable(Wanted(outcome, override))
    ensures var e, n := ContextRecorded(d, u, outcome, override).db, |d.useCases[u].classifications|;
            && u in e.useCases && e.useCases[u].euTier == d.useCases[u].euTier
            && |e.useCases[u].classifications| == n + 1
            && e.useCases[u].classifications[n] == Classification(Wanted(outcome, override), n + 1, true, PendingReview)
            && SignedOffBy(e, u).error.None?
            && SignedOffBy(e, u).db.useCases[u].euTier == Wanted(outcome, override)
  {
    assert SnapshotsOk(d.useCases[u].classifications);
    SnapshotIsNewest(d, u, Wanted(outcome, override), PendingReview, false);
    var e := Snapshotted(d, u, Wanted(outcome, override), PendingReview, false);
    SnapshotKeeps(d, u, Wanted(outcome, override), PendingReview, false);
    hide Inv, Snapshotted, SignedOffBy;
    SignOffGoesThroughIff(e, u);
    SignOffRatifies(e, u);
  }
}
