/** What every run of the service guarantees. */
module Guarantees {
  import opened Vocabulary
  import opened Lifecycle
  import opened Store
  import opened Gates
  import opened Counting
  import opened Invariants
  import opened LifecycleService
  import opened ClassificationService
  import opened ReviewService
  import opened AuthorisationService
  import opened AssessmentService
  import opened EngineSafety
  import opened ReviewSafety
  import opened Runs
  import ContextResolver

  // --- Who stands behind an authorisation -----------------------------------------------------

  /** An ATO for the AIIA's own current round. */
  predicate ForThisRound(assessments: map<Id, Assessment>, a: Id, t: Ato)
    requires a in assessments
  {
    t.assessment == a && t.round == assessments[a].submissionRound
  }

  /** The gate compares use case and round only; on a consistent database that is as good as
      comparing the assessment itself, so no foreign or stale ATO ever opens it. */
  lemma GateSeesOnlyItsOwnAtos(d: Db, u: Id)
    requires Inv(d)
    ensures var aiia := AiiaOf(d.assessments, u);
            && (aiia.Some? ==> forall t | t in d.atos ::
                  Matches(t, u, d.assessments[aiia.value].submissionRound) <==> ForThisRound(d.assessments, aiia.value, t))
            && (AuthorisationGate(d, u, aiia).verdict.Advances? <==>
                  aiia.Some? && d.assessments[aiia.value].status.Approved?
                  && exists t | t in d.atos :: ForThisRound(d.assessments, aiia.value, t))
  {
    var aiia := AiiaOf(d.assessments, u);
    if aiia.Some? {
      var a := aiia.value;
      forall t | t in d.atos
        ensures Matches(t, u, d.assessments[a].submissionRound) <==> ForThisRound(d.assessments, a, t)
      {
        assert AtoOk(d.assessments, t);
        assert IsAiiaOf(d.assessments, u, a);
      }
    }
  }

  /** Three-person rule: whenever the authorisation gate advances, on any run, every ATO matching
      the current round was granted by someone who is neither the submitter nor the approver, and
      those two differ. */
  lemma ThreePersonRule(h: seq<Db>, steps: seq<Step>, k: nat, u: Id, t: Ato)
    requires IsRun(h, steps) && k < |h| && u in h[k].useCases
    requires AuthorisationGate(h[k], u, AiiaOf(h[k].assessments, u)).verdict.Advances?
    requires t in h[k].atos && Matches(t, u, h[k].assessments[AiiaOf(h[k].assessments, u).value].submissionRound)
    ensures var row := h[k].assessments[AiiaOf(h[k].assessments, u).value];
            exists submitter, approver ::
              && row.submittedBy == Some(submitter) && row.approvedBy == Some(approver)
              && submitter != approver && submitter != t.authorisedBy && approver != t.authorisedBy
  {
    RunIsSafe(h, steps, k, k);
    GateSeesOnlyItsOwnAtos(h[k], u);
    assert AtoOk(h[k].assessments, t);
    var row := h[k].assessments[AiiaOf(h[k].assessments, u).value];
    assert row.submittedBy == Some(row.submittedBy.value) && row.approvedBy == Some(row.approvedBy.value);
  }

  lemma AssessmentCallsGrantNothing(now: Db, call: Call)
    requires IsAssessmentCall(call)
    ensures CommitAssessmentCall(now, call).atos == now.atos
  {
    hide FullVector, Advanced, Pristine, Prefill, Inserted;
  }

  /** ATOs come from authorisation calls alone, each stamped with what that call read. */
  lemma AtosComeFromGrants(seen: Db, now: Db, call: Call)
    requires Enabled(seen, now, call)
    ensures Commit(seen, now, call).atos == now.atos
            || (call.Authorise? && AuthorisationRefusal(seen, call.useCase, call.actor).None?
                && var a := AiiaOf(seen.assessments, call.useCase).value;
                   Commit(seen, now, call).atos == now.atos + [Ato(call.useCase, a, seen.assessments[a].submissionRound, call.actor)])
  {
    hide FullVector, Advanced, BelowAuthorisationPass, CommitAssessmentCall, CommitOtherCall;
    if IsAssessmentCall(call) {
      AssessmentCallsGrantNothing(now, call);
    } else if !IsLateCall(call) {
      OtherCallsGrantNothing(now, call);
    } else if call.Submit? || call.Decide? || call.Amend? || call.Confirm? {
      PersonsGrantNothing(seen, now, call);
      hide CommitLateCall;
    }
  }

  lemma OtherCallsGrantNothing(now: Db, call: Call)
    requires !IsLateCall(call) && !IsAssessmentCall(call)
    ensures CommitOtherCall(now, call).atos == now.atos
  {
    hide FullVector, Advanced, Reevaluated, WithSnapshot, CurrentSnapshot, SignOffCurrent, StoredTier, ReopenedBy;
    if call.Reopen? { ReopeningGrantsNothing(now, call.assessment, call.expected); }
  }

  lemma ReopeningGrantsNothing(d: Db, a: Id, expected: nat)
    ensures ReopenedBy(d, a, expected).db.atos == d.atos
  {
  }

  lemma PersonsGrantNothing(seen: Db, now: Db, call: Call)
    requires call.Submit? || call.Decide? || call.Amend? || call.Confirm?
    ensures CommitLateCall(seen, now, call).atos == now.atos
  {
    hide FullVector, Advanced, StructurallyReady, FullyTreated, PatchPasses, Amended;
  }

  /** The commit after which the n-th ATO is there. */
  ghost predicate GrantedAt(h: seq<Db>, j: nat, n: nat)
    requires j + 1 < |h|
  {
    |h[j].atos| <= n < |h[j + 1].atos|
  }

  lemma {:induction false} GrantExists(h: seq<Db>, k: nat, n: nat) returns (j: nat)
    requires k < |h| && h[0].atos == [] && n < |h[k].atos|
    ensures j < k && GrantedAt(h, j, n)
  {
    if n >= |h[k - 1].atos| { j := k - 1; } else { j := GrantExists(h, k - 1, n); }
  }

  ghost predicate UnchangedFrom(h: seq<Db>, a: Id, i: nat, k: nat)
    requires i <= k < |h| && a in h[k].assessments
  {
    forall m {:trigger h[m]} | i <= m <= k :: a in h[m].assessments && h[m].assessments[a] == h[k].assessments[a]
  }

  /** An approved row that carries the same round later was never anything else in between. */
  lemma ApprovalIsUnbroken(h: seq<Db>, steps: seq<Step>, a: Id, i: nat, k: nat)
    requires IsRun(h, steps) && i <= k < |h| && a in h[i].assessments && a in h[k].assessments
    requires h[i].assessments[a].status.Approved? && h[k].assessments[a].status.Approved?
    requires h[i].assessments[a].submissionRound == h[k].assessments[a].submissionRound
    ensures UnchangedFrom(h, a, i, k)
  {
    RunIsSafe(h, steps, i, i);
    assert CycleOk(h[i].assessments[a], a, h[i].reviews, h[i].audit);
    assert EverSubmitted(h[i].assessments, a);
    forall m | i <= m <= k ensures a in h[m].assessments && h[m].assessments[a] == h[k].assessments[a] {
      RunIsSafe(h, steps, i, m);
      RunIsSafe(h, steps, m, k);
      assert AssessmentEvolves(h[i].assessments[a], h[m].assessments[a]);
      assert AssessmentEvolves(h[m].assessments[a], h[k].assessments[a]);
    }
  }

  /** A stale ATO never counts: if an ATO matches the approved AIIA now, then it was granted by an
      authorisation call that read this very row, and the row has not changed since that read. */
  lemma MatchingAtoIsOfThisApproval(h: seq<Db>, steps: seq<Step>, k: nat, u: Id, a: Id, n: nat) returns (j: nat)
    requires IsRun(h, steps) && k < |h| && n < |h[k].atos|
    requires AiiaOf(h[k].assessments, u) == Some(a) && h[k].assessments[a].status.Approved?
    requires Matches(h[k].atos[n], u, h[k].assessments[a].submissionRound)
    ensures j < k && steps[j].readAt <= j && steps[j].call == Call.Authorise(u, h[k].atos[n].authorisedBy)
    ensures UnchangedFrom(h, a, steps[j].readAt, k)
  {
    j := GrantBehind(h, steps, k, n);
    var t, i := h[k].atos[n], steps[j].readAt;
    RunIsSafe(h, steps, i, i);
    RunIsSafe(h, steps, k, k);
    hide IsRun, Inv, AuthorisationRefusal;
    GrantFitsLater(h[i], h[i], u, t.authorisedBy) by { EvolvesIsReflexive(h[i]); }
    GateSeesOnlyItsOwnAtos(h[k], u);
    ApprovalIsUnbroken(h, steps, a, i, k);
  }

  /** Behind every ATO is an authorisation that passed on what it read, and stamped that. */
  lemma GrantBehind(h: seq<Db>, steps: seq<Step>, k: nat, n: nat) returns (j: nat)
    requires IsRun(h, steps) && k < |h| && n < |h[k].atos|
    ensures j < k && steps[j].readAt <= j
    ensures var seen, t := h[steps[j].readAt], h[k].atos[n];
            && steps[j].call == Call.Authorise(t.useCase, t.authorisedBy)
            && AuthorisationRefusal(seen, t.useCase, t.authorisedBy).None?
            && AiiaOf(seen.assessments, t.useCase) == Some(t.assessment)
            && t.round == seen.assessments[t.assessment].submissionRound
  {
    hide Inv, Commit, Enabled;
    j := GrantExists(h, k, n);
    var s := steps[j];
    assert IsStep(h, j, s);
    AtosComeFromGrants(h[s.readAt], h[j], s.call);
    assert h[j + 1].atos[n] == h[k].atos[n] by { RunIsSafe(h, steps, j + 1, k); }
  }

  /** An assessment that was ever submitted is there for the rest of the run, and still is what it
      was: its kind, its use case and its parent never change. */
  lemma SubmittedForever(h: seq<Db>, steps: seq<Step>, a: Id, i: nat, k: nat)
    requires IsRun(h, steps) && i <= k < |h| && EverSubmitted(h[i].assessments, a)
    ensures a in h[k].assessments && h[i].assessments[a].submissionRound <= h[k].assessments[a].submissionRound
    ensures forall u :: IsAiiaOf(h[i].assessments, u, a) <==> IsAiiaOf(h[k].assessments, u, a)
  {
    RunIsSafe(h, steps, i, k);
    assert AssessmentEvolves(h[i].assessments[a], h[k].assessments[a]);
  }

  // --- The review cycle -------------------------------------------------------------------------

  /** Later reviews of an assessment belong to later rounds. */
  lemma RoundsRise(reviews: seq<Review>, i: nat, j: nat)
    requires ReviewsNumbered(reviews) && i < j < |reviews| && reviews[i].assessment == reviews[j].assessment
    ensures reviews[i].round < reviews[j].round
  {
    assert ReviewNumbered(reviews, i) && ReviewNumbered(reviews, j);
    CountGrows(reviews[..j], i + 1, reviews[i].assessment);
    assert reviews[..j][..i + 1] == reviews[..i + 1] && reviews[..j + 1][..j] == reviews[..j];
  }

  /** Exact counting, on every run: reviews equal rounds less the open one, every round up to the
      last closed one has exactly one review, and the lock version counts the recorded submits,
      reviews and reopens. */
  lemma ReviewCycleCounts(h: seq<Db>, steps: seq<Step>, k: nat, a: Id)
    requires IsRun(h, steps) && k < |h| && a in h[k].assessments
    ensures var row, reviews := h[k].assessments[a], h[k].reviews;
            && ReviewsOf(reviews, a) == row.submissionRound - (if row.status.InReview? then 1 else 0)
            && row.lockVersion == row.submissionRound + ReviewsOf(reviews, a) + Acts(h[k].audit, Reopened, a)
            && row.submissionRound == Acts(h[k].audit, Submitted, a)
            && (forall i, j | 0 <= i < j < |reviews| && reviews[i].assessment == reviews[j].assessment == a ::
                  reviews[i].round < reviews[j].round)
            && (forall r | r in reviews && r.assessment == a :: 1 <= r.round <= ReviewsOf(reviews, a))
  {
    RunIsSafe(h, steps, k, k);
    var reviews := h[k].reviews;
    assert CycleOk(h[k].assessments[a], a, reviews, h[k].audit);
    forall i, j | 0 <= i < j < |reviews| && reviews[i].assessment == reviews[j].assessment == a
      ensures reviews[i].round < reviews[j].round
    {
      RoundsRise(reviews, i, j);
    }
    forall r | r in reviews && r.assessment == a ensures 1 <= r.round <= ReviewsOf(reviews, a) { RoundsAreBounded(reviews, r); }
  }

  /** The version pins the row: when it is the same at two points of a run, nothing about the
      assessment changed anywhere in between. */
  lemma VersionPinsRow(h: seq<Db>, steps: seq<Step>, a: Id, i: nat, k: nat)
    requires IsRun(h, steps) && i <= k < |h| && a in h[i].assessments && a in h[k].assessments
    requires h[i].assessments[a].lockVersion == h[k].assessments[a].lockVersion
    ensures UnchangedFrom(h, a, i, k)
  {
    RunIsSafe(h, steps, i, i);
    forall m | i <= m <= k ensures a in h[m].assessments && h[m].assessments[a] == h[k].assessments[a] {
      RunIsSafe(h, steps, i, m);
      RunIsSafe(h, steps, m, k);
      assert a in h[m].assessments;
      assert AssessmentEvolves(h[i].assessments[a], h[m].assessments[a]);
      assert AssessmentEvolves(h[m].assessments[a], h[k].assessments[a]);
    }
  }

  /** Every review on record was made by somebody other than the submitter of its round, and the
      approver of an approved row is the reviewer of its current round. */
  lemma ApproverIsTheReviewer(h: seq<Db>, steps: seq<Step>, k: nat, r: Review)
    requires IsRun(h, steps) && k < |h| && r in h[k].reviews
    ensures r.assessment in h[k].assessments
    ensures var row := h[k].assessments[r.assessment];
            r.round == row.submissionRound ==>
              && row.submittedBy != Some(r.reviewer)
              && (r.decision.Approve? <==> HasBeenApproved(row)) && (r.decision.Approve? ==> row.approvedBy == Some(r.reviewer))
  {
    RunIsSafe(h, steps, k, k);
    assert ReviewOk(h[k].assessments, r);
  }

  // --- The lifecycle ------------------------------------------------------------------------------

  predicate Chained(log: seq<Edge>, i: nat)
    requires i < |log|
  {
    && log[i].source == (if i == 0 then Requested else log[i - 1].target)
    && Admissible(log[i].source, log[i].event, log[i].target)
  }

  /** A log replays exactly when it is an unbroken chain of admissible hops from REQUESTED. */
  lemma {:induction false} ReplayIsTheChain(log: seq<Edge>)
    ensures Replayed(log).Some? <==> forall i {:trigger Chained(log, i)} | 0 <= i < |log| :: Chained(log, i)
    ensures Replayed(log).Some? ==> Replayed(log).value.state == if |log| == 0 then Requested else log[|log| - 1].target
  {
    if |log| > 0 {
      var front := log[..|log| - 1];
      ReplayIsTheChain(front);
      assert forall i | 0 <= i < |front| :: Chained(front, i) <==> Chained(log, i);
      if forall i | 0 <= i < |log| :: Chained(log, i) { assert Chained(log, |log| - 1); }
    }
  }

  /** On every run the transition log of a use case is an unbroken chain of legal hops from
      REQUESTED to its state; it enters AUTHORISED by authorisations only, once per ATO; the held
      hint is set exactly in HELD and names the state the last hop left; DEPLOYED and RETIRED are
      never reached; and re-evaluating never fails. */
  lemma LogReplaysToState(h: seq<Db>, steps: seq<Step>, k: nat, u: Id)
    requires IsRun(h, steps) && k < |h| && u in h[k].useCases
    ensures var c := h[k].useCases[u].cursor;
            && (forall i {:trigger Chained(c.log, i)} | 0 <= i < |c.log| :: Chained(c.log, i))
            && c.state == (if |c.log| == 0 then Requested else c.log[|c.log| - 1].target)
            && Live(c.state)
            && (c.heldFrom.Some? <==> c.state.Held?) && (c.state.Held? ==> c.heldFrom == Some(c.log[|c.log| - 1].source))
            && Entries(c.log) == AtosOf(h[k].atos, u)
            && ReEvaluated(h[k], u).error.None?
  {
    RunIsSafe(h, steps, k, k);
    var c := h[k].useCases[u].cursor;
    assert CursorOk(c, AtosOf(h[k].atos, u));
    ReplayIsTheChain(c.log);
    ReplayedCursor(c.log);
    ReEvaluateKeeps(h[k], u);
  }

  /** So every database of a run is one the fan-out laws speak of. */
  lemma ReachableIsLive(h: seq<Db>, steps: seq<Step>, k: nat)
    requires IsRun(h, steps) && k < |h|
    ensures AllLive(h[k]) && OneAiia(h[k].assessments)
  {
    RunIsSafe(h, steps, k, k);
    forall u | u in h[k].useCases ensures Live(h[k].useCases[u].cursor.state) {
      assert CursorOk(h[k].useCases[u].cursor, AtosOf(h[k].atos, u));
      ReplayedCursor(h[k].useCases[u].cursor.log);
    }
  }

  /** Prohibition is total and absorbing: once the current snapshot of a use case is PROHIBITED its
      cursor is HALTED_PROHIBITED and never changes again, whatever is written later. */
  lemma ProhibitionIsAbsorbing(h: seq<Db>, steps: seq<Step>, i: nat, k: nat, u: Id)
    requires IsRun(h, steps) && i <= k < |h| && u in h[i].useCases
    requires ClassificationReadiness(h[i], u).verdict.Halts? || h[i].useCases[u].cursor.state.HaltedProhibited?
    ensures h[i].useCases[u].cursor.state.HaltedProhibited?
    ensures u in h[k].useCases && h[k].useCases[u].cursor == h[i].useCases[u].cursor
  {
    RunIsSafe(h, steps, i, i);
    RunIsSafe(h, steps, i, k);
    assert HaltOk(h[i].useCases[u]);
    assert UseCaseEvolves(h[i].useCases[u], h[k].useCases[u]);
  }

  /** Snapshots are numbered 1..n across both writers, and exactly the newest one is current. */
  lemma SnapshotsAreNumbered(h: seq<Db>, steps: seq<Step>, k: nat, u: Id)
    requires IsRun(h, steps) && k < |h| && u in h[k].useCases
    ensures var cs := h[k].useCases[u].classifications;
            && (forall i | 0 <= i < |cs| :: cs[i].version == i + 1 && (cs[i].isCurrent <==> i == |cs| - 1))
            && CurrentSnapshot(cs) == if |cs| == 0 then None else Some(cs[|cs| - 1])
  {
    RunIsSafe(h, steps, k, k);
    assert SnapshotsOk(h[k].useCases[u].classifications);
    NewestIsCurrent(h[k].useCases[u].classifications);
  }

  /** Recording the answers without an override halts the use case, whatever state it was in, exactly
      when the last answer to some question is a prohibited practice: whatever else was answered, and
      wherever in the list, but not if that question is answered again later. */
  lemma ProhibitedAnswerHalts(d: Db, u: Id, tree: seq<ContextResolver.Question>, answers: seq<ContextResolver.Answer>)
    requires Inv(d) && u in d.useCases
    requires ContextResolver.TreeOk(tree) && |tree| > 0
    requires ContextResolver.AnswersTree(tree, ContextResolver.Indexed(answers))
    ensures var r := ContextRecorded(d, u, ContextResolver.Resolve(tree, ContextResolver.Indexed(answers)), None);
            && r.error.None?
            && (r.db.useCases[u].cursor.state.HaltedProhibited? <==>
                d.useCases[u].cursor.state.HaltedProhibited? || ContextResolver.ProhibitedAtLast(tree, answers))
  {
    var outcome := ContextResolver.Resolve(tree, ContextResolver.Indexed(answers));
    ContextResolver.ResolutionOfAnswers(tree, answers);
    if outcome.tier.Some? { RecordedTierHalts(d, u, outcome.tier.value); }
  }

  lemma RecordedTierHalts(d: Db, u: Id, tier: Tier)
    requires Inv(d) && u in d.useCases
    ensures Snapshotted(d, u, tier, PendingReview, false).useCases[u].cursor.state.HaltedProhibited? <==>
            d.useCases[u].cursor.state.HaltedProhibited? || tier.Prohibited?
  {
    var row := WithSnapshot(d.useCases[u], tier, PendingReview, false);
    assert SnapshotsOk(d.useCases[u].classifications);
    LatestIsCount(d.useCases[u].classifications);
    NewestIsCurrent(row.classifications);
    assert ClassificationReadiness(WithRow(d, u, row), u).verdict.Halts? <==> tier.Prohibited?;
  }

  // --- The audit trail -------------------------------------------------------------------------------------

  /** What a call that goes through records. Hops of the engine, snapshots and facts about the surroundings are
      recorded elsewhere: in the transition log, in the snapshots, or by other services. */
  function Trace(now: Db, call: Call): seq<Audit> {
    match call
    case NewAiia(_, _, _, _) => [Audit(AssessmentCreated, now.nextId)]
    case NewFeeder(_, _, _, _, _) => [Audit(Action.FeederCreated, now.nextId)]
    case NewItem(_, _, _) => [Audit(ItemCreated, now.nextId)]
    case Amend(i, _, treatment, _) => if i in now.items then [Audit(PatchAction(now.items[i].treatment, treatment), i)] else []
    case Confirm(i, _) => [Audit(ItemConfirmed, i)]
    case RemoveItem(i) => [Audit(ItemDeleted, i)]
    case RemoveAssessment(a) => [Audit(AssessmentDeleted, a)]
    case LinkControl(_, _, _) => [Audit(ControlLinked, now.nextId)]
    case UnlinkControl(l) => [Audit(ControlUnlinked, l)]
    case LinkEvidence(_, _) => [Audit(EvidenceLinked, now.nextId)]
    case UnlinkEvidence(l) => [Audit(EvidenceUnlinked, l)]
    case Submit(a, _, _) => [Audit(Submitted, a)]
    case Decide(a, _, _, _, _) => [Audit(ReviewRecorded, a)]
    case Reopen(a, _) => [Audit(Reopened, a), Audit(RefreshNeeded, a)]
    case Authorise(_, _) => [Audit(AuthorisationGranted, now.nextId)]
    case SetVendor(v, _, _) => [Audit(if v in now.world.vendorApprovals then ClearanceUpdated else ClearanceSet,
                                      if v in now.world.vendorApprovals then now.world.vendorApprovals[v].id else now.nextId)]
    case SetProduct(p, _, _) => [Audit(if p in now.world.productApprovals then ClearanceUpdated else ClearanceSet,
                                       if p in now.world.productApprovals then now.world.productApprovals[p].id else now.nextId)]
    case _ => []
  }

  /** A patch counts as a treatment if it changes the decision or the rationale. */
  function PatchAction(stored: Treatment, supplied: Treatment): Action {
    if (supplied.decision.Some? && supplied.decision != stored.decision)
       || (supplied.rationale.Some? && supplied.rationale != stored.rationale) then TreatmentSet else ItemAmended
  }

  /** No write without a trace: whatever a call changes, it appends exactly its own rows to the audit trail,
      and a call that is refused appends none. */
  lemma EveryWriteIsRecorded(seen: Db, now: Db, call: Call)
    requires Enabled(seen, now, call)
    ensures Commit(seen, now, call) == now || Commit(seen, now, call).audit == now.audit + Trace(now, call)
  {
    hide FullVector, Advanced, Reevaluated, CommitLateCall, CommitAssessmentCall, CommitOtherCall;
    if IsLateCall(call) {
      LateWriteIsRecorded(seen, now, call);
    } else if IsAssessmentCall(call) {
      AssessmentWriteIsRecorded(now, call);
    } else {
      OtherWriteIsRecorded(now, call);
    }
  }

  lemma LateWriteIsRecorded(seen: Db, now: Db, call: Call)
    requires IsLateCall(call)
    ensures CommitLateCall(seen, now, call) == now || CommitLateCall(seen, now, call).audit == now.audit + Trace(now, call)
  {
    hide FullVector, Advanced, StructurallyReady, FullyTreated, PatchPasses, BelowAuthorisationPass;
  }

  lemma AssessmentWriteIsRecorded(now: Db, call: Call)
    requires IsAssessmentCall(call)
    ensures CommitAssessmentCall(now, call) == now || CommitAssessmentCall(now, call).audit == now.audit + Trace(now, call)
  {
    hide Prefill, Inserted, Pristine, ClassificationReadiness, FeederExists, AuthoringLocked;
  }

  lemma OtherWriteIsRecorded(now: Db, call: Call)
    requires !IsLateCall(call) && !IsAssessmentCall(call)
    ensures CommitOtherCall(now, call) == now || CommitOtherCall(now, call).audit == now.audit + Trace(now, call)
  {
    hide FullVector, Advanced, Reevaluated, WithSnapshot, CurrentSnapshot, SignOffCurrent, StoredTier;
  }

  // --- Authorisation and re-evaluation -----------------------------------------------------------------

  /** The gates below the authorisation gate read neither ATOs nor the audit trail. */
  lemma LowerGatesIgnoreGrants(d: Db, u: Id, t: Ato, x: Audit)
    requires u in d.useCases
    ensures var e := d.(atos := d.atos + [t], audit := d.audit + [x], nextId := d.nextId + 1);
            forall k | 0 <= k < 5 :: FullVector(e, u)[k] == FullVector(d, u)[k]
  {
    var e := d.(atos := d.atos + [t], audit := d.audit + [x], nextId := d.nextId + 1);
    MiddleGatesRead(d, e, u);
  }

  /** The database with the ATO inserted, before the transition. */
  ghost function WithAto(d: Db, u: Id, actor: User): Db
    requires AiiaOf(d.assessments, u).Some?
  {
    var a := AiiaOf(d.assessments, u).value;
    d.(atos := d.atos + [Ato(u, a, d.assessments[a].submissionRound, actor)],
       audit := d.audit + [Audit(AuthorisationGranted, d.nextId)], nextId := d.nextId + 1)
  }

  /** A granted authorisation is an ATO and one hop into AUTHORISED. */
  lemma GrantShape(d: Db, u: Id, actor: User)
    requires AuthorisedBy(d, u, actor).error.None?
    ensures u in d.useCases && AiiaOf(d.assessments, u).Some? && AuthorisationRefusal(d, u, actor).None?
    ensures AuthorisedBy(d, u, actor).db == WithCursor(WithAto(d, u, actor), u, Hop(d.useCases[u].cursor, Event.Authorise, Authorised))
  {
  }

  /** With the ATO inserted every gate passes. */
  lemma GrantOpensTheGate(d: Db, u: Id, actor: User)
    requires AuthorisationRefusal(d, u, actor).None?
    ensures AllPass(FullVector(WithAto(d, u, actor), u))
  {
    hide VendorGate, ProductGate, ClassificationReadiness, TreatmentGate, StructuralReadiness;
    var a := AiiaOf(d.assessments, u).value;
    var t, x := Ato(u, a, d.assessments[a].submissionRound, actor), Audit(AuthorisationGranted, d.nextId);
    LowerGatesIgnoreGrants(d, u, t, x);
    assert FullVector(d, u)[3].Advances?;
    assert t in d.atos + [t] && Matches(t, u, d.assessments[a].submissionRound);
  }

  /** An authorisation that is granted holds: the whole vector passes from then on, and
      re-evaluating at once changes nothing. */
  lemma AuthorisedStaysAuthorised(d: Db, u: Id, actor: User)
    requires AuthorisedBy(d, u, actor).error.None?
    ensures var e := AuthorisedBy(d, u, actor).db;
            && u in e.useCases && e.useCases[u].cursor.state.Authorised?
            && AllPass(FullVector(e, u)) && ReEvaluated(e, u) == Done(e)
  {
    hide FullVector, AuthorisedBy, AuthorisationRefusal;
    GrantShape(d, u, actor);
    GrantOpensTheGate(d, u, actor);
    var c := Hop(d.useCases[u].cursor, Event.Authorise, Authorised);
    var e := WithCursor(WithAto(d, u, actor), u, c);
    GatesIgnoreCursors(WithAto(d, u, actor), u, c, u);
    SettledMeansUntouched(c, FullVector(e, u));
    SameCursor(e, u);
  }

  /** Re-evaluation keeps AUTHORISED exactly when every gate passes, the authorisation gate with
      them; otherwise it holds, and the hint remembers AUTHORISED. */
  lemma AuthorisedIsKeptIff(d: Db, u: Id)
    requires u in d.useCases && d.useCases[u].cursor.state.Authorised? && !FullVector(d, u)[2].Halts?
    ensures var r := ReEvaluated(d, u);
            && r.error.None?
            && (r.db.useCases[u].cursor.state.Authorised? <==> AllPass(FullVector(d, u)))
            && (AllPass(FullVector(d, u)) || (r.db.useCases[u].cursor.state.Held?
                                              && r.db.useCases[u].cursor.heldFrom == Some(LifecycleState.Authorised)))
  {
  }

  // --- Items ------------------------------------------------------------------------------------------------

  /** Disposition before authoring, on every run: a proposed item has no answer, score, plan,
      treatment or evidence, and a lock version counts exactly the recorded changes of its item. */
  lemma ProposalsStayBare(h: seq<Db>, steps: seq<Step>, k: nat, i: Id)
    requires IsRun(h, steps) && k < |h| && i in h[k].items
    ensures var row := h[k].items[i];
            && (row.provenance.AiSuggested? ==> row.content == BLANK && row.treatment == UNTREATED && row.lockVersion == 0)
            && (row.provenance.AiSuggested? ==> forall l | l in h[k].evidenceLinks :: h[k].evidenceLinks[l].item != i)
            && row.lockVersion ==
               Acts(h[k].audit, ItemAmended, i) + Acts(h[k].audit, TreatmentSet, i) + Acts(h[k].audit, ItemConfirmed, i)
  {
    RunIsSafe(h, steps, k, k);
    assert ItemOk(h[k].items[i], i, h[k].assessments.Keys, h[k].audit);
    forall l | l in h[k].evidenceLinks ensures EvidenceLinkOk(h[k].evidenceLinks[l], h[k].items) { }
  }

  /** An item never becomes a proposal again, and its version pins its row. */
  lemma DispositionIsFinal(h: seq<Db>, steps: seq<Step>, j: nat, k: nat, i: Id)
    requires IsRun(h, steps) && j <= k < |h| && i in h[j].items && i in h[k].items
    ensures h[k].items[i].provenance.AiSuggested? ==> h[j].items[i] == h[k].items[i]
    ensures h[j].items[i].lockVersion == h[k].items[i].lockVersion ==> h[j].items[i] == h[k].items[i]
  {
    RunIsSafe(h, steps, j, j);
    RunIsSafe(h, steps, j, k);
    assert ItemEvolves(h[j].items[i], h[k].items[i]);
    assert ItemOk(h[j].items[i], i, h[j].assessments.Keys, h[j].audit) && ItemOk(h[k].items[i], i, h[k].assessments.Keys, h[k].audit);
  }

  /** What one patch does: a change raises the lock version by exactly one and nothing else writes
      the row; treating an item leaves its provenance alone, authoring turns a curated item into an
      amended one, and a patch that changes nothing leaves no trace. */
  lemma OnePatch(d: Db, i: Id, content: Authoring, treatment: Treatment, expected: nat)
    requires i in d.items
    ensures var r, row := ItemAmendedBy(d, i, content, treatment, expected), d.items[i];
            && (r.db.items != d.items ==> r.error.None? && !ChangesNothing(row, content, treatment) && row.lockVersion == expected)
            && (r.error.None? && !ChangesNothing(row, content, treatment) ==>
                  && r.db.items.Keys == d.items.Keys && (forall j | j in d.items && j != i :: r.db.items[j] == d.items[j])
                  && r.db.items[i].lockVersion == row.lockVersion + 1
                  && r.db.items[i].provenance == if row.provenance.CatalogueCurated? && Merged(row.content, content) != row.content
                                                 then UserAmended else row.provenance)
            && (ChangesNothing(row, content, treatment) ==> r.db == d)
  {
  }
}
