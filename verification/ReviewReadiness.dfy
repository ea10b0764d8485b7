/** From submission to approval: a reviewer decides on what the submission found, unless one of the
    parking calls came in between; and what an approval does to the use case follows from that. */
module ReviewReadiness {
  import opened Vocabulary
  import opened Lifecycle
  import opened Store
  import opened Gates
  import opened Invariants
  import opened LifecycleService
  import opened ReviewService
  import opened AssessmentService
  import opened ReviewSafety
  import opened Runs
  import opened Readiness
  import opened Parking
  import opened ReviewLaws

  // --- Over a run ---------------------------------------------------------------------------------

  ghost predicate ParksAt(h: seq<Db>, steps: seq<Step>, m: nat, u: Id, a: Id)
    requires m < |h| && m < |steps| && steps[m].readAt < |h|
  {
    u in h[m].useCases && a in h[m].assessments && MakesUnready(h[steps[m].readAt], h[m], steps[m].call, u, a)
  }

  /** No step from `i` up to `k` parks the use case. */
  ghost predicate Unparked(h: seq<Db>, steps: seq<Step>, i: nat, k: nat, u: Id, a: Id)
    requires IsRun(h, steps) && i <= k < |h|
  {
    forall m {:trigger IsStep(h, m, steps[m])} | i <= m < k :: IsStep(h, m, steps[m]) && !ParksAt(h, steps, m, u, a)
  }

  /** While the AIIA stays locked, readiness lasts over any calls that do not park. */
  lemma {:induction false} ReadinessLasts(h: seq<Db>, steps: seq<Step>, i: nat, k: nat, u: Id, a: Id)
    requires IsRun(h, steps) && i <= k < |h| && Ready(h[i], u) && Unparked(h, steps, i, k, u, a)
    requires forall m {:trigger Locked(h[m], u, a)} | i <= m < k :: Locked(h[m], u, a)
    ensures Ready(h[k], u)
    decreases k
  {
    if i < k {
      var m: nat := k - 1;
      var s := steps[m];
      ReadinessLasts(h, steps, i, m, u, a);
      assert IsStep(h, m, s) && Locked(h[m], u, a);
      RunIsSafe(h, steps, s.readAt, m);
      RunIsSafe(h, steps, s.readAt, s.readAt);
      hide Inv, Evolves, Ready, Enabled, Commit, MakesUnready;
      StepParksIff(h[s.readAt], h[m], s.call, u, a);
    }
  }

  /** The walk out of UNDER_ASSESSMENT on an approved AIIA: all the way exactly when ready. */
  lemma TwoHops(d: Db, u: Id, a: Id)
    requires Inv(d) && AiiaOf(d.assessments, u) == Some(a) && d.assessments[a].status.Approved?
    requires u in d.useCases && d.useCases[u].cursor.state.UnderAssessment?
    ensures var c := AutoAdvanced(d, u).useCases[u].cursor;
            && (c.state.PendingAuthorisation? <==> Ready(d, u))
            && (Ready(d, u) ==> c.log == d.useCases[u].cursor.log + TWO_HOPS)
  {
    var v := FullVector(d, u);
    assert HaltOk(d.useCases[u]);
    assert (v[3].Advances? && v[4].Advances? <==> Ready(d, u)) && !v[2].Halts?;
    assert StepsOff(v, 4) && StepsOff(v, 5) && !StepsOff(v, 6) <==> Ready(d, u);
    RestRankIsWhereTheWalkStops(v, 4, 6);
    assert Ladder(4, 6) == TWO_HOPS;
  }

  const TWO_HOPS := [Edge(UnderAssessment, Advance, TreatmentPending), Edge(TreatmentPending, Advance, PendingAuthorisation)]

  /** An approval clears two gates at once, in exactly two logged hops, if and only if the use case is
      ready when it is given. */
  lemma ApprovalTakesTwoHopsIff(d: Db, u: Id, a: Id, note: Option<string>, expected: nat, actor: User)
    requires Inv(d) && IsAiiaOf(d.assessments, u, a) && u in d.useCases && d.useCases[u].cursor.state.UnderAssessment?
    requires ReviewedBy(d, a, Approve, note, expected, actor).error.None?
    ensures var e := ReviewedBy(d, a, Approve, note, expected, actor).db;
            && (e.useCases[u].cursor.state.PendingAuthorisation? <==> Ready(d, u))
            && (Ready(d, u) ==> e.useCases[u].cursor.log == d.useCases[u].cursor.log + TWO_HOPS)
  {
    var row := Changed(d.assessments[a], ToApproved(actor));
    var f := Staged(d.(assessments := d.assessments[a := row],
                       reviews := d.reviews + [Review(a, actor, Approve, row.submissionRound)]), ReviewRecorded, a);
    ReviewKeeps(d, a, Approve, actor);
    AiiaIsUnique(f.assessments, u, a);
    hide Ready, FullVector, Advanced, Inv;
    if Ready(d, u) {
      StatusLeavesAlone(d, f, u, a, a, ToApproved(actor));
      ReadinessSurvives(d, f, u, a);
    }
    if Ready(f, u) {
      StatusIsIgnored(d, f, u, a, a);
      ReadinessSurvives(f, d, u, a);
    }
    TwoHops(f, u, a);
  }

  /** A submission that goes through leaves the next database as ready as the one it commits on; if it
      was checked on that one, that means ready. */
  lemma SubmissionInRun(h: seq<Db>, steps: seq<Step>, i: nat, u: Id, a: Id, submitted: nat, submitter: User)
    requires IsRun(h, steps) && i < |steps| && IsAiiaOf(h[i].assessments, u, a)
    requires steps[i].call == Submit(a, submitted, submitter) && h[i + 1] != h[i]
    ensures IsAiiaOf(h[i + 1].assessments, u, a) && h[i + 1].assessments[a].status.InReview?
    ensures h[i + 1].assessments[a].submissionRound == h[i].assessments[a].submissionRound + 1
    ensures Ready(h[i + 1], u) <==> Ready(h[i], u)
    ensures steps[i].readAt == i ==> Ready(h[i], u)
  {
    var s := steps[i];
    assert IsStep(h, i, s);
    RunIsSafe(h, steps, s.readAt, i);
    RunIsSafe(h, steps, s.readAt, s.readAt);
    RunIsSafe(h, steps, i, i + 1);
    hide Inv, Ready, Enabled, SubmitSeen, Evolves;
    LateSubmissionIsReadyIff(h[s.readAt], h[i], a, submitted, submitter);
    LateSubmissionShape(h[s.readAt], h[i], a, submitted, submitter);
    if s.readAt == i { CheckedIsReady(h[i], a, submitted, submitter); }
  }

  lemma CheckedIsReady(d: Db, a: Id, expected: nat, actor: User)
    requires SubmitSeen(d, d, a, expected, actor) != d
    ensures a in d.assessments && Ready(d, d.assessments[a].useCase)
  {
  }

  /** A review that went through was the atomic review of the database it was committed on. */
  lemma DecisionInRun(h: seq<Db>, steps: seq<Step>, k: nat, a: Id,
                      decision: ReviewDecision, note: Option<string>, expected: nat, reviewer: User)
    requires IsRun(h, steps) && k < |steps| && steps[k].call == Decide(a, decision, note, expected, reviewer) && h[k + 1] != h[k]
    ensures ReviewedBy(h[k], a, decision, note, expected, reviewer).error.None?
    ensures h[k + 1] == ReviewedBy(h[k], a, decision, note, expected, reviewer).db && Inv(h[k])
    ensures a in h[k].assessments && h[k].assessments[a].status.InReview?
  {
    hide Inv, Evolves, DecideSeen, ReviewedBy;
    assert IsStep(h, k, steps[k]);
    RunIsSafe(h, steps, steps[k].readAt, k);
    RunIsSafe(h, steps, steps[k].readAt, steps[k].readAt);
    LateDecisionIsAtomic(h[steps[k].readAt], h[k], a, decision, note, expected, reviewer);
    ReviewGoesThroughIff(h[k], a, decision, note, expected, reviewer);
  }

  /** Still in the round it was submitted in, the assessment is as ready for review as the commit of its
      submission found it, if no call parked it since. */
  lemma ReadyAtReview(h: seq<Db>, steps: seq<Step>, i: nat, k: nat, u: Id, a: Id, submitted: nat, submitter: User)
    requires IsRun(h, steps) && i < k < |h| && IsAiiaOf(h[i].assessments, u, a)
    requires steps[i].call == Submit(a, submitted, submitter) && h[i + 1] != h[i]
    requires Unparked(h, steps, i + 1, k, u, a)
    requires a in h[k].assessments && h[k].assessments[a].status.InReview?
    requires h[k].assessments[a].submissionRound == h[i].assessments[a].submissionRound + 1
    ensures Locked(h[k], u, a) && (Ready(h[i], u) ==> Ready(h[k], u))
  {
    SubmissionInRun(h, steps, i, u, a, submitted, submitter);
    hide Ready, IsRun, Unparked;
    InReviewThroughout(h, steps, i + 1, k, u, a);
    if Ready(h[i], u) { ReadinessLasts(h, steps, i + 1, k, u, a); }
    assert Locked(h[k], u, a);
  }

  /** From a submission to its approval, with any calls between and any age of the reads of either: the
      approval takes the use case from UNDER_ASSESSMENT to PENDING_AUTHORISATION exactly when it is
      ready at that moment. It is, in exactly two hops, if the submission committed on a ready database
      and no call parked it since; and a submission checked on what it committed on did so. */
  lemma SubmittedThenApproved(h: seq<Db>, steps: seq<Step>, i: nat, k: nat, u: Id, a: Id,
                              submitted: nat, submitter: User, note: Option<string>, expected: nat, reviewer: User)
    requires IsRun(h, steps) && i < k < |steps| && IsAiiaOf(h[i].assessments, u, a)
    requires steps[i].call == Submit(a, submitted, submitter) && h[i + 1] != h[i]
    requires steps[k].call == Decide(a, Approve, note, expected, reviewer) && h[k + 1] != h[k]
    requires a in h[k].assessments && h[k].assessments[a].submissionRound == h[i].assessments[a].submissionRound + 1
    requires u in h[k].useCases && h[k].useCases[u].cursor.state.UnderAssessment?
    ensures u in h[k + 1].useCases && (h[k + 1].useCases[u].cursor.state.PendingAuthorisation? <==> Ready(h[k], u))
    ensures Ready(h[k], u) ==> h[k + 1].useCases[u].cursor.log == h[k].useCases[u].cursor.log + TWO_HOPS
    ensures Ready(h[i], u) && Unparked(h, steps, i + 1, k, u, a) ==> Ready(h[k], u)
    ensures steps[i].readAt == i ==> Ready(h[i], u)
  {
    hide Inv, Ready, ReviewedBy, Unparked;
    DecisionInRun(h, steps, k, a, Approve, note, expected, reviewer);
    SubmissionInRun(h, steps, i, u, a, submitted, submitter);
    SubmittedForLong(h, steps, i + 1, k, u, a);
    if Unparked(h, steps, i + 1, k, u, a) { ReadyAtReview(h, steps, i, k, u, a, submitted, submitter); }
    assert u in h[k + 1].useCases by {
      RunIsSafe(h, steps, k, k + 1);
      assert UseCasesEvolve(h[k].useCases, h[k + 1].useCases, h[k].nextId);
    }
    hide IsRun;
    ApprovalTakesTwoHopsIff(h[k], u, a, note, expected, reviewer);
  }

  /** A submitted AIIA stays the AIIA of its use case. */
  lemma SubmittedForLong(h: seq<Db>, steps: seq<Step>, i: nat, k: nat, u: Id, a: Id)
    requires IsRun(h, steps) && i <= k < |h| && IsAiiaOf(h[i].assessments, u, a) && a in h[k].assessments
    ensures IsAiiaOf(h[k].assessments, u, a)
  {
    RunIsSafe(h, steps, i, k);
    assert AssessmentEvolves(h[i].assessments[a], h[k].assessments[a]);
  }

  /** A round in review at both ends was in review, and the AIIA locked, all the way. */
  lemma InReviewThroughout(h: seq<Db>, steps: seq<Step>, i: nat, k: nat, u: Id, a: Id)
    requires IsRun(h, steps) && i <= k < |h| && IsAiiaOf(h[i].assessments, u, a) && a in h[k].assessments
    requires h[i].assessments[a].status.InReview? && h[k].assessments[a].status.InReview?
    requires h[i].assessments[a].submissionRound == h[k].assessments[a].submissionRound
    ensures forall m {:trigger Locked(h[m], u, a)} | i <= m <= k :: Locked(h[m], u, a)
  {
    RunIsSafe(h, steps, i, i);
    assert CycleOk(h[i].assessments[a], a, h[i].reviews, h[i].audit);
    assert EverSubmitted(h[i].assessments, a);
    forall m | i <= m <= k ensures Locked(h[m], u, a) {
      RunIsSafe(h, steps, i, m);
      RunIsSafe(h, steps, m, k);
      assert AssessmentEvolves(h[i].assessments[a], h[m].assessments[a]);
      assert AssessmentEvolves(h[m].assessments[a], h[k].assessments[a]);
    }
  }

  /** On a locked use case every authoring write is refused with a conflict. */
  lemma LockedWritesAreRefused(d: Db, u: Id, a: Id, i: Id, content: Authoring, treatment: Treatment, expected: nat,
                               control: Id, coverage: CoverageStatus, evidence: Id)
    requires Inv(d) && Locked(d, u, a) && ItemOf(d, u, i)
    ensures ItemAmendedBy(d, i, content, treatment, expected) == Refuse(d, Conflict)
    ensures ItemConfirmedBy(d, i, expected) == Refuse(d, Conflict)
    ensures ControlLinkedTo(d, i, control, coverage) == Refuse(d, Conflict)
    ensures EvidenceLinkedTo(d, i, evidence) == Refuse(d, Conflict)
    ensures forall known, response :: ItemFromSection(d, d.items[i].assessment, known, response) == Refuse(d, Conflict)
  {
    LockReachesAll(d, u, a, d.items[i].assessment);
    assert RowOk(d.assessments, d.useCases.Keys, d.assessments[d.items[i].assessment]);
  }

  /** The item with everything taken away that could substantiate its treatment. */
  function Stripped(d: Db, i: Id): Db
    requires i in d.items
  {
    var row := d.items[i];
    d.(items := d.items[i := row.(content := row.content.(mitigationPlan := None), treatment := row.treatment.(rationale := None))],
       controlLinks := ControlLinksBut(d.controlLinks, {i}))
  }

  /** The gate claims that every dispositioned risk has a substantiated treatment decision. It asks
      nothing of TRANSFER and AVOID: a treated risk may lose its plan, its rationale and all its
      controls without the gate noticing exactly when it is to be transferred or avoided. */
  lemma SubstanceIsAskedForIff(d: Db, u: Id, i: Id)
    requires FullyTreated(d, u) && RiskItemOf(d, u, i)
    ensures FullyTreated(Stripped(d, i), u) <==>
            d.items[i].treatment.decision == Some(Transfer) || d.items[i].treatment.decision == Some(Avoid)
  {
    var e := Stripped(d, i);
    assert RiskItemOf(e, u, i) && !HasControlLink(e, i) && Treated(d, i);
    forall j | j in d.items && j != i ensures RiskItemOf(e, u, j) == RiskItemOf(d, u, j) && Treated(e, j) == Treated(d, j) {
      if l :| l in d.controlLinks && d.controlLinks[l].item == j { assert e.controlLinks[l].item == j; }
      assert HasControlLink(e, j) == HasControlLink(d, j);
    }
  }
}
