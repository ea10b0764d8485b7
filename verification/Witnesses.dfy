/** Runs that reach the failures which the conditions of this project describe: each is a run of the
    service from the empty tenant. */
module Witnesses {
  import opened Vocabulary
  import opened Lifecycle
  import opened Store
  import opened Gates
  import opened Invariants
  import opened LifecycleService
  import opened Clearances
  import opened ClassificationService
  import opened ReviewService
  import opened AssessmentService
  import opened Runs
  import opened Readiness
  import opened Parking
  import opened Guarantees
  import opened ReviewReadiness
  import opened AuthorisationService
  import opened EngineSafety
  import opened GateLaws
  import opened ClassificationLaws
  import opened ReviewLaws

  // --- Making a run -----------------------------------------------------------------------------

  /** One system, one control, and the templates that the runs below need. */
  function OneSystem(isDeployer: bool): World {
    World(map[0 := System(None, None, isDeployer)], map[], map[], {7}, {},
          {(Aiia, Limited), (ModelRisk, Limited), (Aiia, High), (Fria, High)}, 0)
  }

  lemma Begin(world: World) returns (h: seq<Db>, steps: seq<Step>)
    requires world.vendorApprovals == map[] && world.productApprovals == map[]
    ensures IsRun(h, steps) && steps == [] && h[0] == Empty(world) && h[0].world == world
  {
    h, steps := [Empty(world)], [];
  }

  lemma Extend(h: seq<Db>, steps: seq<Step>, readAt: nat, call: Call) returns (h': seq<Db>, steps': seq<Step>)
    requires IsRun(h, steps) && readAt < |h| && Enabled(h[readAt], h[|h| - 1], call)
    ensures h' == h + [Commit(h[readAt], h[|h| - 1], call)] && steps' == steps + [Step(readAt, call)]
    ensures IsRun(h', steps')
  {
    hide Enabled, Commit;
    h', steps' := h + [Commit(h[readAt], h[|h| - 1], call)], steps + [Step(readAt, call)];
    forall k | 0 <= k < |steps'| ensures IsStep(h', k, steps'[k]) {
      if k < |steps| { assert IsStep(h, k, steps[k]); }
    }
  }

  /** One classified use case under assessment, and these tables. */
  predicate Stage(d: Db, world: World, tier: Tier, assessments: map<Id, Assessment>, items: map<Id, Item>,
                  links: map<Id, ControlLink>, next: nat)
  {
    && 0 in d.useCases && d.useCases[0].system == 0 && d.useCases[0].euTier == tier && d.useCases[0].dataCategories == []
    && ClassificationReadiness(d, 0).verdict.Advances? && d.useCases[0].cursor.state == UnderAssessment
    && d.assessments == assessments && d.items == items && d.controlLinks == links && d.reviews == [] && d.atos == []
    && d.world == world && d.nextId == next
  }

  lemma Registering(d: Db, isDeployer: bool, tier: Tier)
    requires d == Empty(OneSystem(isDeployer)) && tier in {High, Limited}
    ensures Stage(Commit(d, d, Register(0, [], tier, SignedOff, true)), OneSystem(isDeployer), tier, map[], map[], map[], 1)
  {
    EmptyIsSafe(OneSystem(isDeployer));
    RegistrationRests(d, 0, [], tier, SignedOff, true);
    RegistrationCommits(d, tier, SignedOff, true);
    hide Inv, Registered, Commit;
  }

  lemma RegistrationCommits(d: Db, tier: Tier, status: ClassificationStatus, stamp: bool)
    ensures Enabled(d, d, Register(0, [], tier, status, stamp))
    ensures Commit(d, d, Register(0, [], tier, status, stamp)) == Registered(d, 0, [], tier, status, stamp).db
  {
    hide Registered;
  }

  /** Advancing does not take a use case past an assessment that is not approved. */
  lemma WaitsForApproval(d: Db)
    requires 0 in d.useCases && d.useCases[0].cursor.state == UnderAssessment && ClassificationReadiness(d, 0).verdict.Advances?
    requires forall a | IsAiiaOf(d.assessments, 0, a) :: d.assessments[a].status != Approved
    ensures AutoAdvanced(d, 0).useCases[0].cursor.state == UnderAssessment
  {
    var v := FullVector(d, 0);
    assert !v[3].Advances? && v[2].Advances?;
    RestRankIsWhereTheWalkStops(v, 4, 4);
  }

  /** The AIIA of the runs below: as created, and in its first round of review. */
  function DraftAiia(tier: Tier): Assessment {
    NewAssessment(0, Aiia, None, tier)
  }

  function AiiaInReview(tier: Tier): Assessment {
    Changed(DraftAiia(tier), ToReview(1, 9))
  }

  lemma PrefilledRisk(risks: seq<Id>)
    requires |risks| <= 1
    ensures var rows := Prefill(1, Aiia, 0, [], risks);
            |rows| == |risks| && Inserted(map[], 2, rows) == if risks == [] then map[] else map[2 := ProposalItem(1, risks[0])]
  {
    var rows := Prefill(1, Aiia, 0, [], risks);
    if risks == [] {
      assert rows == [];
    } else {
      assert rows == [ProposalItem(1, risks[0])] && Inserted(map[], 2, rows[..0]) == map[];
    }
  }

  lemma Creating(d: Db, isDeployer: bool, tier: Tier, risks: seq<Id>)
    requires Stage(d, OneSystem(isDeployer), tier, map[], map[], map[], 1) && tier in {High, Limited} && |risks| <= 1
    ensures Stage(Commit(d, d, NewAiia(0, 0, [], risks)), OneSystem(isDeployer), tier, map[1 := DraftAiia(tier)],
                  if risks == [] then map[] else map[2 := ProposalItem(1, risks[0])], map[], 2 + |risks|)
  {
    CreationCommits(d, risks);
    PrefilledRisk(risks);
    hide Inserted, Prefill, Commit;
  }

  lemma CreationCommits(d: Db, risks: seq<Id>)
    ensures Commit(d, d, NewAiia(0, 0, [], risks)) == AiiaCreated(d, 0, 0, [], risks).db
  {
    hide AiiaCreated;
  }

  lemma Started(isDeployer: bool, tier: Tier, risks: seq<Id>) returns (h: seq<Db>, steps: seq<Step>)
    requires tier in {High, Limited} && |risks| <= 1
    ensures IsRun(h, steps) && |steps| == 2 && |h| == 3
    ensures Stage(h[2], OneSystem(isDeployer), tier, map[1 := DraftAiia(tier)],
                  if risks == [] then map[] else map[2 := ProposalItem(1, risks[0])], map[], 2 + |risks|)
  {
    hide Commit, IsRun, Stage;
    h, steps := Begin(OneSystem(isDeployer));
    Registering(h[0], isDeployer, tier);
    h, steps := Extend(h, steps, 0, Register(0, [], tier, SignedOff, true));
    Creating(h[1], isDeployer, tier, risks);
    h, steps := Extend(h, steps, 1, NewAiia(0, 0, [], risks));
  }

  // --- A risk to be mitigated, and one control -----------------------------------------------------

  const PROPOSED := ProposalItem(1, 5)
  const CONFIRMED := Confirmed(PROPOSED)
  const MITIGATED := Amended(CONFIRMED, BLANK, Treatment(Some(Mitigate), None))
  const LINKED := map[3 := ControlLink(2, 7, Open)]

  lemma Confirming(d: Db)
    requires Stage(d, OneSystem(false), Limited, map[1 := DraftAiia(Limited)], map[2 := PROPOSED], map[], 3)
    ensures Enabled(d, d, Confirm(2, 0))
    ensures Stage(Commit(d, d, Confirm(2, 0)), OneSystem(false), Limited, map[1 := DraftAiia(Limited)], map[2 := CONFIRMED], map[], 3)
  {
    WaitsForApproval(Staged(d.(items := d.items[2 := CONFIRMED]), ItemConfirmed, 2));
    hide Advanced, FullVector;
  }

  lemma Mitigating(d: Db)
    requires Stage(d, OneSystem(false), Limited, map[1 := DraftAiia(Limited)], map[2 := CONFIRMED], map[], 3)
    ensures Enabled(d, d, Amend(2, BLANK, Treatment(Some(Mitigate), None), 1))
    ensures Stage(Commit(d, d, Amend(2, BLANK, Treatment(Some(Mitigate), None), 1)), OneSystem(false), Limited,
                  map[1 := DraftAiia(Limited)], map[2 := MITIGATED], map[], 3)
  {
    WaitsForApproval(Staged(d.(items := d.items[2 := MITIGATED]), TreatmentSet, 2));
    hide Advanced, FullVector;
  }

  lemma Linking(d: Db)
    requires Stage(d, OneSystem(false), Limited, map[1 := DraftAiia(Limited)], map[2 := MITIGATED], map[], 3)
    ensures Stage(Commit(d, d, LinkControl(2, 7, Open)), OneSystem(false), Limited,
                  map[1 := DraftAiia(Limited)], map[2 := MITIGATED], LINKED, 4)
  {
  }

  lemma Worked() returns (h: seq<Db>, steps: seq<Step>)
    ensures IsRun(h, steps) && |steps| == 5 && |h| == 6
    ensures Stage(h[5], OneSystem(false), Limited, map[1 := DraftAiia(Limited)], map[2 := MITIGATED], LINKED, 4)
  {
    hide Commit, IsRun, Stage;
    h, steps := Started(false, Limited, [5]);
    Confirming(h[2]);
    h, steps := Extend(h, steps, 2, Confirm(2, 0));
    Mitigating(h[3]);
    h, steps := Extend(h, steps, 3, Amend(2, BLANK, Treatment(Some(Mitigate), None), 1));
    Linking(h[4]);
    h, steps := Extend(h, steps, 4, LinkControl(2, 7, Open));
  }

  /** Ready, from the rows. */
  lemma ReadyWhen(d: Db, u: Id, a: Id)
    requires u in d.useCases && OneAiia(d.assessments) && IsAiiaOf(d.assessments, u, a)
    requires forall kind | kind in [Fria, Dpia, ModelRisk] :: !FeederMissing(d, a, kind)
    requires forall i | i in d.items :: !d.items[i].provenance.AiSuggested? && (d.items[i].risk.Some? ==> Treated(d, i))
    ensures Ready(d, u)
  {
    AiiaIsUnique(d.assessments, u, a);
  }

  lemma WorkedIsReady(d: Db)
    requires Stage(d, OneSystem(false), Limited, map[1 := DraftAiia(Limited)], map[2 := MITIGATED], LINKED, 4)
    ensures Ready(d, 0)
  {
    assert d.controlLinks[3].item == 2;
    ReadyWhen(d, 0, 1);
  }

  // --- Submission, and what parks the use case afterwards ---------------------------------------------

  /** The AIIA went into review and nothing else changed but the audit trail. */
  predicate Submission(d: Db, e: Db, tier: Tier) {
    && 1 in d.assessments && d.assessments[1] == DraftAiia(tier)
    && e == Staged(d.(assessments := d.assessments[1 := AiiaInReview(tier)]), Submitted, 1)
  }

  lemma Submitting(seen: Db, d: Db, tier: Tier)
    requires Ready(seen, 0) && 1 in seen.assessments && seen.assessments[1] == DraftAiia(tier)
    requires 1 in d.assessments && d.assessments[1] == DraftAiia(tier)
    ensures Enabled(seen, d, Submit(1, 0, 9)) && Submission(d, Commit(seen, d, Submit(1, 0, 9)), tier)
  {
  }

  /** The last step of a run leaves a use case unready that was ready, and under review all along. */
  ghost predicate ParkedUnderReview(h: seq<Db>, steps: seq<Step>) {
    && IsRun(h, steps) && |steps| > 0
    && var n := |steps| - 1;
       && Ready(h[n], 0) && !Ready(h[n + 1], 0)
       && IsAiiaOf(h[n].assessments, 0, 1) && h[n].assessments[1].status.InReview?
       && IsAiiaOf(h[n + 1].assessments, 0, 1) && h[n + 1].assessments[1].status.InReview?
  }

  lemma ParkedBy(h: seq<Db>, steps: seq<Step>, readAt: nat, call: Call) returns (h': seq<Db>, steps': seq<Step>)
    requires IsRun(h, steps) && readAt < |h| && Enabled(h[readAt], h[|h| - 1], call)
    requires var d := h[|h| - 1]; Ready(d, 0) && IsAiiaOf(d.assessments, 0, 1) && d.assessments[1].status.InReview?
    requires MakesUnready(h[readAt], h[|h| - 1], call, 0, 1) && !call.Decide? && !call.Reopen?
    ensures ParkedUnderReview(h', steps') && steps' == steps + [Step(readAt, call)]
  {
    var d := h[|h| - 1];
    RunIsSafe(h, steps, readAt, |h| - 1);
    RunIsSafe(h, steps, readAt, readAt);
    StepParksIff(h[readAt], d, call, 0, 1);
    assert Below(d.assessments, d.nextId);
    StatusStays(h[readAt], d, call);
    hide IsRun, Commit, Inv, Ready;
    h', steps' := Extend(h, steps, readAt, call);
  }

  lemma StatusStays(seen: Db, d: Db, call: Call)
    requires 0 in d.useCases && IsAiiaOf(d.assessments, 0, 1) && d.assessments[1].status.InReview? && Below(d.assessments, d.nextId)
    requires MakesUnready(seen, d, call, 0, 1)
    ensures var e := Commit(seen, d, call); IsAiiaOf(e.assessments, 0, 1) && e.assessments[1].status.InReview?
  {
    hide Advanced, FullVector, Prefill, Pristine, IsLastSupport, SomethingMissing, LeavesUntreated, PatchPasses, Amended,
         FeederExists, FeederApplicability, CommitLateCall, CommitAssessmentCall;
    if IsLateCall(call) {
      PatchSparesAssessments(seen, d, call);
    } else if IsAssessmentCall(call) {
      FeedersSpareTheAiia(seen, d, call);
    }
  }

  lemma PatchSparesAssessments(seen: Db, d: Db, call: Call)
    requires call.Amend?
    ensures CommitLateCall(seen, d, call).assessments == d.assessments
  {
    hide Advanced, FullVector, PatchPasses, Amended;
  }

  lemma FeedersSpareTheAiia(seen: Db, d: Db, call: Call)
    requires IsAiiaOf(d.assessments, 0, 1) && d.assessments[1].status.InReview? && Below(d.assessments, d.nextId)
    requires call.UnlinkControl? || call.NewFeeder? || (call.RemoveAssessment? && call.assessment != 1)
    ensures var e := CommitAssessmentCall(d, call); IsAiiaOf(e.assessments, 0, 1) && e.assessments[1].status.InReview?
  {
    hide Prefill, Pristine, FeederExists;
  }

  /** The worked AIIA, submitted. */
  lemma Reviewed() returns (h: seq<Db>, steps: seq<Step>)
    ensures IsRun(h, steps) && |steps| == 6 && |h| == 7 && steps[5].call == Submit(1, 0, 9)
    ensures Stage(h[5], OneSystem(false), Limited, map[1 := DraftAiia(Limited)], map[2 := MITIGATED], LINKED, 4)
    ensures Ready(h[5], 0) && Submission(h[5], h[6], Limited)
  {
    hide IsRun, Commit, Ready, Enabled;
    h, steps := Worked();
    WorkedIsReady(h[5]);
    Submitting(h[5], h[5], Limited);
    h, steps := Extend(h, steps, 5, Submit(1, 0, 9));
  }

  lemma ReadyInReview(d: Db, e: Db)
    requires Stage(d, OneSystem(false), Limited, map[1 := DraftAiia(Limited)], map[2 := MITIGATED], LINKED, 4)
    requires Submission(d, e, Limited)
    ensures Ready(e, 0) && IsAiiaOf(e.assessments, 0, 1) && e.assessments[1].status.InReview?
    ensures IsLastSupport(e, 0, 3) && !FeederExists(e, 1, ModelRisk)
  {
    assert e.controlLinks[3].item == 2;
    ReadyWhen(e, 0, 1);
  }

  /** Removing the only control of a risk to be mitigated. */
  lemma UnlinkingParks() returns (h: seq<Db>, steps: seq<Step>)
    ensures ParkedUnderReview(h, steps) && steps[|steps| - 1].call.UnlinkControl?
  {
    h, steps := Reviewed();
    ReadyInReview(h[5], h[6]);
    h, steps := ParkedBy(h, steps, 6, UnlinkControl(3));
  }

  /** Adding a model-risk feeder that proposes a risk. */
  lemma FeederParks() returns (h: seq<Db>, steps: seq<Step>)
    ensures ParkedUnderReview(h, steps) && steps[|steps| - 1].call.NewFeeder?
  {
    h, steps := Reviewed();
    ReadyInReview(h[5], h[6]);
    h, steps := ParkedBy(h, steps, 6, NewFeeder(1, ModelRisk, 0, [], [5]));
  }

  /** A patch that found the assessment unlocked and is written after the submission: accepted now,
      without a rationale. */
  lemma LatePatchParks() returns (h: seq<Db>, steps: seq<Step>)
    ensures ParkedUnderReview(h, steps) && |steps| == 7 && steps[6].call.Amend? && steps[6].readAt == 5
  {
    h, steps := Reviewed();
    ReadyInReview(h[5], h[6]);
    h, steps := ParkedBy(h, steps, 5, Amend(2, BLANK, Treatment(Some(Accept), None), 2));
  }

  /** A submission checked before the control was removed and committed after: it goes through, and the
      assessment is under review and not ready. */
  lemma LateSubmissionIsUnready() returns (h: seq<Db>, steps: seq<Step>)
    ensures IsRun(h, steps) && |steps| == 7 && steps[6] == Step(5, Submit(1, 0, 9)) && h[7] != h[6]
    ensures Ready(h[5], 0) && !Ready(h[7], 0)
    ensures IsAiiaOf(h[7].assessments, 0, 1) && h[7].assessments[1].status.InReview?
  {
    h, steps := Worked();
    WorkedIsReady(h[5]);
    h, steps := Extend(h, steps, 5, UnlinkControl(3));
    Submitting(h[5], h[6], Limited);
    h, steps := Extend(h, steps, 5, Submit(1, 0, 9));
    assert RiskItemOf(h[7], 0, 2) && !Treated(h[7], 2);
  }

  // --- All the way ------------------------------------------------------------------------------------

  /** The review by 8 of what 9 submitted, and what the authorisation then finds. */
  lemma Approving(d: Db)
    requires Inv(d) && Ready(d, 0) && IsAiiaOf(d.assessments, 0, 1) && d.assessments[1] == AiiaInReview(Limited)
    requires 0 in d.useCases && d.useCases[0].cursor.state == UnderAssessment && d.useCases[0].system == 0
    requires d.world == OneSystem(false) && FullVector(d, 0)[2] == Advances
    ensures ReviewedBy(d, 1, Approve, None, 1, 8).error.None?
    ensures var e := ReviewedBy(d, 1, Approve, None, 1, 8).db;
            && Inv(e) && Authorisable(e, 0, 7)
            && IsAiiaOf(e.assessments, 0, 1) && e.assessments[1] == Changed(AiiaInReview(Limited), ToApproved(8)) && e.atos == d.atos
  {
    hide ReviewedBy, Ready, FullVector, Inv, Evolves;
    var e := ReviewedBy(d, 1, Approve, None, 1, 8).db;
    ReviewGoesThroughIff(d, 1, Approve, None, 1, 8);
    ReviewClosesTheRound(d, 1, Approve, None, 1, 8);
    ReviewedByKeeps(d, 1, Approve, None, 1, 8);
    assert OneAiia(e.assessments) by { UniqueAiia(e); }
    ApprovalTakesTwoHopsIff(d, 0, 1, None, 1, 8);
    assert e.assessments == d.assessments[1 := Changed(d.assessments[1], ToApproved(8))];
    ApprovedIsReady(d, e);
    ApprovedVector(d, e);
  }

  lemma UniqueAiia(d: Db)
    requires Inv(d)
    ensures OneAiia(d.assessments)
  {
  }

  lemma ApprovedIsReady(d: Db, e: Db)
    requires Inv(d) && Ready(d, 0) && IsAiiaOf(d.assessments, 0, 1) && OneAiia(e.assessments)
    requires 0 in e.useCases && e.assessments == d.assessments[1 := Changed(d.assessments[1], ToApproved(8))] && SameScope(d, e, 0)
    requires e.items == d.items && e.controlLinks == d.controlLinks
    ensures Ready(e, 0)
  {
    StatusLeavesAlone(d, e, 0, 1, 1, ToApproved(8));
    hide Inv, Ready, Undisturbed;
    ReadinessSurvives(d, e, 0, 1);
  }

  lemma ApprovedVector(d: Db, e: Db)
    requires 0 in d.useCases && 0 in e.useCases && e.useCases[0] == d.useCases[0].(cursor := e.useCases[0].cursor)
    requires e.world == d.world == OneSystem(false) && d.useCases[0].system == 0 && FullVector(d, 0)[2] == Advances
    ensures FullVector(e, 0)[0] == Advances && FullVector(e, 0)[1] == Advances && FullVector(e, 0)[2] == Advances
  {
  }

  lemma DecisionCommits(d: Db)
    requires 1 in d.assessments && d.assessments[1].lockVersion == 1
    ensures Enabled(d, d, Decide(1, Approve, None, 1, 8))
    ensures Commit(d, d, Decide(1, Approve, None, 1, 8)) == ReviewedBy(d, 1, Approve, None, 1, 8).db
  {
    UninterruptedDecisionIsAtomic(d, 1, Approve, None, 1, 8);
    hide ReviewedBy, DecideSeen;
  }

  lemma Reviewable(d: Db, e: Db)
    requires Stage(d, OneSystem(false), Limited, map[1 := DraftAiia(Limited)], map[2 := MITIGATED], LINKED, 4)
    requires Submission(d, e, Limited)
    ensures Ready(e, 0) && IsAiiaOf(e.assessments, 0, 1) && e.assessments[1] == AiiaInReview(Limited)
    ensures 0 in e.useCases && e.useCases[0].cursor.state == UnderAssessment && e.useCases[0].system == 0
    ensures e.world == OneSystem(false) && FullVector(e, 0)[2] == Advances && e.atos == []
  {
    ReadyInReview(d, e);
    assert FullVector(e, 0)[2] == ClassificationReadiness(d, 0).verdict;
  }

  lemma ReviewedAndApproved() returns (h: seq<Db>, steps: seq<Step>)
    ensures IsRun(h, steps) && |steps| == 7 && |h| == 8 && Inv(h[7])
    ensures steps[5].call == Submit(1, 0, 9) && steps[6].call == Decide(1, Approve, None, 1, 8)
    ensures Authorisable(h[7], 0, 7) && IsAiiaOf(h[7].assessments, 0, 1) && h[7].atos == []
    ensures h[7].assessments[1] == Changed(AiiaInReview(Limited), ToApproved(8))
  {
    hide Commit, Enabled, Ready, Inv, Authorisable, IsRun, ReviewedBy, FullVector, Stage, Submission;
    h, steps := Reviewed();
    Reviewable(h[5], h[6]);
    RunIsSafe(h, steps, 6, 6);
    Approving(h[6]);
    DecisionCommits(h[6]);
    h, steps := Extend(h, steps, 6, Decide(1, Approve, None, 1, 8));
  }

  lemma AuthorisationCommits(d: Db)
    ensures Enabled(d, d, Call.Authorise(0, 7)) && Commit(d, d, Call.Authorise(0, 7)) == AuthorisedBy(d, 0, 7).db
  {
    UninterruptedAuthorisationIsAtomic(d, 0, 7);
    hide AuthorisedBy, AuthoriseSeen;
  }

  /** Submitted by 9, approved by 8, authorised by 7: the use case is AUTHORISED, with one ATO. */
  lemma AllTheWay() returns (h: seq<Db>, steps: seq<Step>)
    ensures IsRun(h, steps) && |steps| == 8 && steps[5].call == Submit(1, 0, 9)
    ensures steps[6].call == Decide(1, Approve, None, 1, 8) && steps[7].call == Call.Authorise(0, 7)
    ensures 0 in h[8].useCases && h[8].useCases[0].cursor.state == LifecycleState.Authorised && h[8].atos == [Ato(0, 1, 1, 7)]
  {
    hide Commit, Enabled, AuthorisedBy, Authorisable, Inv, IsRun;
    h, steps := ReviewedAndApproved();
    AuthorisationGoesThroughIff(h[7], 0, 7);
    AuthorisationWrites(h[7], 0, 7);
    AuthorisationCommits(h[7]);
    assert forall a | IsAiiaOf(h[7].assessments, 0, a) :: a == 1 by { UniqueAiia(h[7]); }
    h, steps := Extend(h, steps, 7, Call.Authorise(0, 7));
  }

  lemma Reopening(d: Db)
    requires Inv(d) && Ready(d, 0) && IsAiiaOf(d.assessments, 0, 1)
    requires d.assessments[1] == Changed(AiiaInReview(Limited), ToApproved(8))
    ensures var e := ReopenedBy(d, 1, 2).db;
            var f := SubmittedForReview(e, 1, 3, 9).db;
            && Enabled(d, d, Call.Reopen(1, 2)) && e == Commit(d, d, Call.Reopen(1, 2))
            && Enabled(e, e, Submit(1, 3, 9)) && f == Commit(e, e, Submit(1, 3, 9))
            && 1 in f.assessments && f.assessments[1].status == InReview && f.assessments[1].submissionRound == 2
  {
    hide Commit, Enabled, ReopenedBy, SubmittedForReview, SubmitSeen, Ready, Inv;
    var e := ReopenedBy(d, 1, 2).db;
    ReopeningGoesThroughIff(d, 1, 2);
    ReopenedIsSubmittable(d, 1, 2, 9);
    SubmissionOpensARound(e, 1, 3, 9);
    UninterruptedSubmitIsAtomic(e, 1, 3, 9);
    ReopeningCommits(d, e);
  }

  /** Reopened after the approval and submitted again: the second round is in review. */
  lemma SecondRound() returns (h: seq<Db>, steps: seq<Step>)
    ensures IsRun(h, steps) && |steps| == 9 && steps[7].call == Call.Reopen(1, 2) && steps[8].call == Submit(1, 3, 9)
    ensures 1 in h[9].assessments && h[9].assessments[1].status == InReview && h[9].assessments[1].submissionRound == 2
  {
    hide Commit, Enabled, ReopenedBy, SubmittedForReview, Ready, Inv, IsRun;
    h, steps := ReviewedAndApproved();
    Reopening(h[7]);
    h, steps := Extend(h, steps, 7, Call.Reopen(1, 2));
    h, steps := Extend(h, steps, 8, Submit(1, 3, 9));
  }

  lemma ReopeningCommits(d: Db, e: Db)
    requires 1 in e.assessments && e.assessments[1].lockVersion == 3
    ensures Enabled(d, d, Call.Reopen(1, 2)) && Commit(d, d, Call.Reopen(1, 2)) == ReopenedBy(d, 1, 2).db
    ensures Enabled(e, e, Submit(1, 3, 9)) && Commit(e, e, Submit(1, 3, 9)) == SubmitSeen(e, e, 1, 3, 9)
  {
    hide ReopenedBy, SubmitSeen;
  }

  // --- A tier to be ratified --------------------------------------------------------------------------

  lemma Ratifying(d: Db)
    requires Inv(d) && 0 in d.useCases && d.useCases[0].system == 0 && d.world == OneSystem(false) && d.assessments == map[]
    requires d.useCases[0].cursor.state == Intake && d.useCases[0].euTier == Unclassified
    requires d.useCases[0].classifications == [Classification(Limited, 1, true, PendingReview)]
    ensures Enabled(d, d, SignOff(0)) && Commit(d, d, SignOff(0)) == SignedOffBy(d, 0).db
    ensures var e := SignedOffBy(d, 0).db;
            0 in e.useCases && e.useCases[0].cursor.state == UnderAssessment && e.useCases[0].euTier == Limited
  {
    hide Commit, Enabled, SignedOffBy, Inv, FullVector;
    var e := SignedOffBy(d, 0).db;
    SignOffCommits(d);
    SignOffGoesThroughIff(d, 0);
    SignOffRatifies(d, 0);
    SignOffOpensTheIntake(d, 0);
    SignOffKeeps(d, 0);
    NothingAssessed(d);
    NothingAssessed(e);
    TargetByGates(FullVector(d, 0));
    TargetByGates(FullVector(e, 0));
  }

  /** Registered below what the product calls for, a use case waits at INTAKE; signed off, it moves on. */
  lemma RatifiedLater() returns (h: seq<Db>, steps: seq<Step>)
    ensures IsRun(h, steps) && |steps| == 2 && steps[1].call == SignOff(0)
    ensures 0 in h[1].useCases && h[1].useCases[0].cursor.state == Intake && h[1].useCases[0].euTier == Unclassified
    ensures 0 in h[2].useCases && h[2].useCases[0].cursor.state == UnderAssessment && h[2].useCases[0].euTier == Limited
  {
    hide Commit, Enabled, IsRun, Registered, SignedOffBy, Inv;
    h, steps := Begin(OneSystem(false));
    EmptyIsSafe(OneSystem(false));
    RegistrationCommits(h[0], Limited, PendingReview, false);
    RegistrationRests(h[0], 0, [], Limited, PendingReview, false);
    RegisterKeeps(h[0], 0, [], Limited, PendingReview, false);
    RegisteredWorld(h[0]);
    h, steps := Extend(h, steps, 0, Register(0, [], Limited, PendingReview, false));
    Ratifying(h[1]);
    h, steps := Extend(h, steps, 1, SignOff(0));
  }

  lemma RegisteredWorld(d: Db)
    requires d == Empty(OneSystem(false))
    ensures var e := Registered(d, 0, [], Limited, PendingReview, false).db; e.world == d.world && e.assessments == map[]
  {
    hide Advanced, FullVector;
  }

  lemma SignOffCommits(d: Db)
    ensures Enabled(d, d, SignOff(0)) && Commit(d, d, SignOff(0)) == SignedOffBy(d, 0).db
  {
    hide SignedOffBy;
  }

  /** Neither vendor nor product, and no assessment. */
  lemma NothingAssessed(d: Db)
    requires Inv(d) && 0 in d.useCases && d.useCases[0].system == 0 && d.world == OneSystem(false) && d.assessments == map[]
    ensures var v, cs := FullVector(d, 0), d.useCases[0].classifications;
            && v[0] == Advances && v[1] == Advances && v[3] != Advances
            && (v[2].Advances? <==> cs != [] && cs[|cs| - 1].tier != Prohibited && Storable(d.useCases[0].euTier))
  {
    IntakeGateIff(d, 0);
  }

  // --- A risk to be transferred --------------------------------------------------------------------------

  const TRANSFERRED := Amended(CONFIRMED, BLANK, Treatment(Some(Transfer), None))

  lemma Transferring(d: Db)
    requires Stage(d, OneSystem(false), Limited, map[1 := DraftAiia(Limited)], map[2 := CONFIRMED], map[], 3)
    ensures Enabled(d, d, Amend(2, BLANK, Treatment(Some(Transfer), None), 1))
    ensures Stage(Commit(d, d, Amend(2, BLANK, Treatment(Some(Transfer), None), 1)), OneSystem(false), Limited,
                  map[1 := DraftAiia(Limited)], map[2 := TRANSFERRED], map[], 3)
  {
    WaitsForApproval(Staged(d.(items := d.items[2 := TRANSFERRED]), TreatmentSet, 2));
    hide Advanced, FullVector;
  }

  /** A risk is confirmed and to be transferred: with no plan, no rationale and no control the assessment
      passes the readiness checks and goes into review. */
  lemma TransferNeedsNothing() returns (h: seq<Db>, steps: seq<Step>)
    ensures IsRun(h, steps) && |steps| == 5 && steps[4] == Step(4, Submit(1, 0, 9)) && Submission(h[4], h[5], Limited)
    ensures RiskItemOf(h[4], 0, 2) && FullyTreated(h[4], 0) && Stripped(h[4], 2) == h[4]
  {
    hide Commit, IsRun, Stage, Enabled, Ready, Submission;
    h, steps := Started(false, Limited, [5]);
    Confirming(h[2]);
    h, steps := Extend(h, steps, 2, Confirm(2, 0));
    Transferring(h[3]);
    h, steps := Extend(h, steps, 3, Amend(2, BLANK, Treatment(Some(Transfer), None), 1));
    TransferredIsReady(h[4]);
    Submitting(h[4], h[4], Limited);
    h, steps := Extend(h, steps, 4, Submit(1, 0, 9));
  }

  lemma TransferredIsReady(d: Db)
    requires Stage(d, OneSystem(false), Limited, map[1 := DraftAiia(Limited)], map[2 := TRANSFERRED], map[], 3)
    ensures Ready(d, 0) && FullyTreated(d, 0) && RiskItemOf(d, 0, 2) && Stripped(d, 2) == d
    ensures 1 in d.assessments && d.assessments[1] == DraftAiia(Limited)
  {
    ReadyWhen(d, 0, 1);
    assert d.items[2 := d.items[2]] == d.items;
  }

  // --- A high-risk use case -----------------------------------------------------------------------------

  const FRIA_ROW := NewAssessment(0, Fria, Some(1), High)

  lemma AddingFria(d: Db)
    requires Stage(d, OneSystem(true), High, map[1 := DraftAiia(High)], map[], map[], 2)
    ensures Stage(Commit(d, d, NewFeeder(1, Fria, 0, [], [])), OneSystem(true), High,
                  map[1 := DraftAiia(High), 2 := FRIA_ROW], map[], map[], 3)
  {
    assert Prefill(2, Fria, 0, [], []) == [];
  }

  /** High risk is ready for review with its FRIA, or without one if the company is no deployer. */
  lemma HighIsReady(d: Db, isDeployer: bool)
    requires Stage(d, OneSystem(isDeployer), High,
                   if isDeployer then map[1 := DraftAiia(High), 2 := FRIA_ROW] else map[1 := DraftAiia(High)],
                   map[], map[], if isDeployer then 3 else 2)
    ensures Ready(d, 0)
  {
    if isDeployer { assert d.assessments[2].parent == Some(1) && d.assessments[2].kind == Fria; }
    ReadyWhen(d, 0, 1);
  }

  /** Deleting a required feeder that nobody has worked on. */
  lemma FeederDeletionParks() returns (h: seq<Db>, steps: seq<Step>)
    ensures ParkedUnderReview(h, steps) && |steps| == 5 && steps[4].call.RemoveAssessment?
  {
    hide IsRun, Commit, Ready, Stage, Submission, MakesUnready, ParkedUnderReview;
    h, steps := Started(true, High, []);
    AddingFria(h[2]);
    h, steps := Extend(h, steps, 2, NewFeeder(1, Fria, 0, [], []));
    HighIsReady(h[3], true);
    Submitting(h[3], h[3], High);
    h, steps := Extend(h, steps, 3, Submit(1, 0, 9));
    FriaInReview(h[3], h[4]);
    h, steps := ParkedBy(h, steps, 4, RemoveAssessment(2));
  }

  lemma FriaInReview(d: Db, e: Db)
    requires Stage(d, OneSystem(true), High, map[1 := DraftAiia(High), 2 := FRIA_ROW], map[], map[], 3) && Submission(d, e, High)
    ensures Ready(e, 0) && IsAiiaOf(e.assessments, 0, 1) && e.assessments[1].status.InReview?
    ensures 0 in e.useCases && MakesUnready(e, e, RemoveAssessment(2), 0, 1)
  {
    assert e.assessments[2].parent == Some(1) && e.assessments[2].kind == Fria;
    ReadyWhen(e, 0, 1);
  }

  /** The company becomes a deployer of the system while the assessment is under review. */
  lemma ScopeChangeParks() returns (h: seq<Db>, steps: seq<Step>)
    ensures ParkedUnderReview(h, steps) && steps[|steps| - 1].call.Environment?
  {
    hide IsRun, Commit, Ready, Submission, FeederMissing;
    h, steps := Started(false, High, []);
    HighIsReady(h[2], false);
    Submitting(h[2], h[2], High);
    h, steps := Extend(h, steps, 2, Submit(1, 0, 9));
    NoFriaInReview(h[2], h[3]);
    h, steps := ParkedBy(h, steps, 3, Environment(OneSystem(true)));
  }

  lemma NoFriaInReview(d: Db, e: Db)
    requires Stage(d, OneSystem(false), High, map[1 := DraftAiia(High)], map[], map[], 2) && Submission(d, e, High)
    ensures Ready(e, 0) && IsAiiaOf(e.assessments, 0, 1) && e.assessments[1].status.InReview?
    ensures e.world == OneSystem(false) && 0 in e.useCases && MakesUnready(e, e, Environment(OneSystem(true)), 0, 1)
  {
    ReadyWhen(e, 0, 1);
    assert FeederMissing(e.(world := OneSystem(true)), 1, Fria);
  }

  // --- A clearance that expires -----------------------------------------------------------------------

  function OnVendorFour(now: int): World {
    World(map[0 := System(Some(4), None, false)], map[], map[], {}, {}, {}, now)
  }

  /** Vendor 4 cleared until 0, a use case registered then, and the clock at 1. */
  lemma Expired() returns (h: seq<Db>, steps: seq<Step>)
    ensures IsRun(h, steps) && |steps| == 3 && |h| == 4
    ensures 1 in h[3].useCases && Regresses(h[3].useCases[1].cursor.state, FullVector(h[3], 1))
  {
    hide IsRun, Regresses, FullVector, Commit, Enabled, VendorApproved, Registered;
    h, steps := Begin(OnVendorFour(0));
    ClearingCommits(h[0]);
    h, steps := Extend(h, steps, 0, SetVendor(4, Cleared, Some(0)));
    RegistrationCommits(h[1], Limited, SignedOff, true);
    PastTheVendor(h[1]);
    h, steps := Extend(h, steps, 1, Register(0, [], Limited, SignedOff, true));
    ClockCommits(h[2]);
    h, steps := Extend(h, steps, 2, Environment(h[2].world.(now := 1)));
  }

  /** There the fan-out over the one use case is not idempotent: it is held, and then restored. */
  lemma FanOutMovesTwice() returns (h: seq<Db>, steps: seq<Step>)
    ensures IsRun(h, steps) && |steps| == 3
    ensures var once := FannedOut(h[3], [1]); FannedOut(once.db, [1]) != once
  {
    hide IsRun, FannedOut, Regresses, FullVector;
    h, steps := Expired();
    ReachableIsLive(h, steps, 3);
    OneOccurrence(1);
    FanOutIsIdempotentIff(h[3], [1]);
  }

  lemma OneOccurrence(u: Id)
    ensures forall w :: Occurrences([u], w) == if w == u then 1 else 0
  {
    assert [u][..0] == [];
  }

  lemma ClearingCommits(d: Db)
    ensures Enabled(d, d, SetVendor(4, Cleared, Some(0)))
    ensures Commit(d, d, SetVendor(4, Cleared, Some(0))) == VendorApproved(d, 4, Cleared, Some(0))
  {
  }

  lemma ClockCommits(d: Db)
    ensures Enabled(d, d, Environment(d.world.(now := 1)))
    ensures Commit(d, d, Environment(d.world.(now := 1))) == d.(world := d.world.(now := 1))
  {
  }

  /** Registered while the vendor was cleared, the use case is past the gate that closes when the clearance
      expires. */
  lemma PastTheVendor(d: Db)
    requires d == VendorApproved(Empty(OnVendorFour(0)), 4, Cleared, Some(0))
    ensures var e := Registered(d, 0, [], Limited, SignedOff, true).db;
            var f := e.(world := e.world.(now := 1));
            1 in f.useCases && Regresses(f.useCases[1].cursor.state, FullVector(f, 1))
  {
  }
}