/** When submitting, reviewing, reopening and authorising go through, and how one act leads to the next. */
module ReviewLaws {
  import opened Vocabulary
  import opened Lifecycle
  import opened Store
  import opened Gates
  import opened Invariants
  import opened LifecycleService
  import opened ReviewService
  import opened AuthorisationService
  import opened ReviewSafety
  import opened Readiness
  import opened GateLaws

  // --- Submission ------------------------------------------------------------------------------------

  /** A submission goes through exactly when the assessment and its use case exist, the use case is ready, the
      version is the row's, and the row is neither in review nor approved. Of a ready use case a wrong version
      is stale, whatever the status; everything else is a conflict. */
  lemma SubmissionGoesThroughIff(d: Db, a: Id, version: nat, actor: User)
    ensures var error := SubmittedForReview(d, a, version, actor).error;
            if a !in d.assessments || d.assessments[a].useCase !in d.useCases then error == Some(NotFound)
            else
              var row := d.assessments[a];
              && (error.None? <==> Ready(d, row.useCase) && row.lockVersion == version && row.status !in {InReview, Approved})
              && (error == Some(StaleIfMatch) <==> Ready(d, row.useCase) && row.lockVersion != version)
              && (error.Some? ==> error.value in {StaleIfMatch, Conflict})
  {
    hide StructuralReadiness, TreatmentGate;
  }

  /** It opens the next round under the submitter and touches nothing else but the audit trail. */
  lemma SubmissionOpensARound(d: Db, a: Id, version: nat, actor: User)
    requires SubmittedForReview(d, a, version, actor).error.None?
    ensures var e := SubmittedForReview(d, a, version, actor).db;
            && a in d.assessments && e.assessments.Keys == d.assessments.Keys
            && (forall b | b in d.assessments && b != a :: e.assessments[b] == d.assessments[b])
            && e.assessments[a] == d.assessments[a].(status := InReview, submittedBy := Some(actor), lockVersion := version + 1,
                                                     submissionRound := d.assessments[a].submissionRound + 1)
            && e == d.(assessments := e.assessments, audit := d.audit + [Audit(Submitted, a)])
  {
    hide StructuralReadiness, TreatmentGate;
  }

  // --- Review ------------------------------------------------------------------------------------------

  /** A review goes through exactly on an assessment in review, at its version, by somebody else than its
      submitter, and with a reason if changes are asked for. */
  lemma ReviewGoesThroughIff(d: Db, a: Id, decision: ReviewDecision, note: Option<string>, version: nat, actor: User)
    ensures var error := ReviewedBy(d, a, decision, note, version, actor).error;
            if a !in d.assessments || d.assessments[a].useCase !in d.useCases then error == Some(NotFound)
            else
              var row := d.assessments[a];
              var mine := row.status == InReview && row.submittedBy != Some(actor);
              var reasoned := decision == RequestChanges ==> NonBlank(note);
              && (error.None? <==> mine && reasoned && row.lockVersion == version)
              && (error == Some(Unprocessable) <==> mine && !reasoned)
              && (error == Some(StaleIfMatch) <==> mine && reasoned && row.lockVersion != version)
              && (error.Some? ==> error.value in {Unprocessable, StaleIfMatch, Conflict})
    ensures var r := ReviewedBy(d, a, decision, note, version, actor); r.error.Some? ==> r.db == d
  {
    hide FullVector, Advanced;
  }

  /** It files one review for the open round. Approval names the approver and lets the use case walk on;
      asking for changes returns the draft and leaves the use case where it is. */
  lemma ReviewClosesTheRound(d: Db, a: Id, decision: ReviewDecision, note: Option<string>, version: nat, actor: User)
    requires ReviewedBy(d, a, decision, note, version, actor).error.None?
    ensures var e, row := ReviewedBy(d, a, decision, note, version, actor).db, d.assessments[a];
            && e.assessments.Keys == d.assessments.Keys && row.useCase in e.useCases
            && e.assessments[a] == (match decision
                                    case Approve => row.(status := Approved, approvedBy := Some(actor), lockVersion := version + 1)
                                    case RequestChanges => row.(status := Draft, lockVersion := version + 1))
            && (forall b | b in d.assessments && b != a :: e.assessments[b] == d.assessments[b])
            && e.reviews == d.reviews + [Review(a, actor, decision, row.submissionRound)]
            && (decision == Approve ==> AutoAdvanced(e, row.useCase) == e)
            && e.useCases == d.useCases[row.useCase := d.useCases[row.useCase].(cursor := e.useCases[row.useCase].cursor)]
            && (decision == RequestChanges ==> e.useCases == d.useCases)
            && e == d.(assessments := e.assessments, reviews := e.reviews, useCases := e.useCases,
                       audit := d.audit + [Audit(ReviewRecorded, a)])
  {
    var row := d.assessments[a];
    if decision == Approve {
      var f := d.(assessments := d.assessments[a := Changed(row, ToApproved(actor))],
                  reviews := d.reviews + [Review(a, actor, decision, row.submissionRound)],
                  audit := d.audit + [Audit(ReviewRecorded, a)]);
      AdvancedRests(f, row.useCase);
    }
    hide FullVector, Advanced;
  }

  /** A reopening goes through exactly on an approved assessment at its version; then the assessment needs a
      refresh, and neither its use case nor anything else moves. */
  lemma ReopeningGoesThroughIff(d: Db, a: Id, version: nat)
    ensures var r := ReopenedBy(d, a, version);
            if a !in d.assessments then r.error == Some(NotFound)
            else
              var row := d.assessments[a];
              && (r.error.None? <==> row.lockVersion == version && row.status == Approved)
              && (r.error == Some(StaleIfMatch) <==> row.lockVersion != version)
              && (r.error.None? ==> r.db.assessments == d.assessments[a := row.(status := NeedsRefresh, lockVersion := version + 1)]
                                    && r.db == d.(assessments := r.db.assessments, audit := r.db.audit))
  {
  }

  // --- One act after another -----------------------------------------------------------------------------

  lemma SubmittableAgain(d: Db, e: Db, a: Id, version: nat, actor: User)
    requires Inv(d) && OneAiia(e.assessments) && a in d.assessments && Ready(d, d.assessments[a].useCase)
    requires exists aiia :: Undisturbed(d, e, d.assessments[a].useCase, aiia)
    requires e.useCases.Keys == d.useCases.Keys && a in e.assessments && e.assessments[a].useCase == d.assessments[a].useCase
    requires e.assessments[a].lockVersion == version && e.assessments[a].status in {Draft, NeedsRefresh}
    ensures SubmittedForReview(e, a, version, actor).error.None?
  {
    var aiia :| Undisturbed(d, e, d.assessments[a].useCase, aiia);
    hide Inv, Ready, Undisturbed, SubmittedForReview;
    ReadinessSurvives(d, e, d.assessments[a].useCase, aiia);
    SubmissionGoesThroughIff(e, a, version, actor);
  }

  lemma AiiaOfReady(d: Db, u: Id) returns (a: Id)
    requires Ready(d, u)
    ensures u in d.useCases && IsAiiaOf(d.assessments, u, a)
  {
    a := AiiaOf(d.assessments, u).value;
  }

  /** What was reopened can be submitted again while the use case is ready, at the new version and by
      anybody, and goes into the next round. */
  lemma ReopenedIsSubmittable(d: Db, a: Id, version: nat, actor: User)
    requires Inv(d) && ReopenedBy(d, a, version).error.None? && Ready(d, d.assessments[a].useCase)
    ensures var e := ReopenedBy(d, a, version).db;
            var f := SubmittedForReview(e, a, version + 1, actor);
            && f.error.None? && f.db.assessments[a].status == InReview
            && f.db.assessments[a].submissionRound == d.assessments[a].submissionRound + 1
  {
    var u := d.assessments[a].useCase;
    var aiia := AiiaOfReady(d, u);
    var e := ReopenedBy(d, a, version).db;
    ReopenKeeps(d, a, version);
    ReopeningGoesThroughIff(d, a, version);
    ReopenLeavesAlone(d, a, version, u, aiia);
    assert OneAiia(e.assessments);
    hide Inv, Ready, Undisturbed, SubmittedForReview, ReopenedBy;
    SubmittableAgain(d, e, a, version + 1, actor);
    SubmissionOpensARound(e, a, version + 1, actor);
  }

  /** What was sent back can be submitted again likewise. */
  lemma ReturnedIsSubmittable(d: Db, a: Id, note: Option<string>, version: nat, reviewer: User, actor: User)
    requires Inv(d) && ReviewedBy(d, a, RequestChanges, note, version, reviewer).error.None? && Ready(d, d.assessments[a].useCase)
    ensures var e := ReviewedBy(d, a, RequestChanges, note, version, reviewer).db;
            var f := SubmittedForReview(e, a, version + 1, actor);
            && f.error.None? && f.db.assessments[a].status == InReview
            && f.db.assessments[a].submissionRound == d.assessments[a].submissionRound + 1
  {
    var u := d.assessments[a].useCase;
    var aiia := AiiaOfReady(d, u);
    var e := ReviewedBy(d, a, RequestChanges, note, version, reviewer).db;
    ReviewClosesTheRound(d, a, RequestChanges, note, version, reviewer);
    ReviewGoesThroughIff(d, a, RequestChanges, note, version, reviewer);
    assert OneAiia(d.assessments);
    hide Inv, Ready, Undisturbed, SubmittedForReview, ReviewedBy;
    assert e.assessments == d.assessments[a := Changed(d.assessments[a], ToDraft)];
    StatusUpdatesKeepOneAiia(d.assessments, a, ToDraft);
    StatusLeavesAlone(d, e, u, aiia, a, ToDraft);
    SubmittableAgain(d, e, a, version + 1, actor);
    SubmissionOpensARound(e, a, version + 1, actor);
  }

  // --- Authorisation ---------------------------------------------------------------------------------------

  /** Everything that an authorisation asks for, but the ATO itself. */
  ghost predicate Authorisable(d: Db, u: Id, actor: User) {
    && u in d.useCases && d.useCases[u].cursor.state == PendingAuthorisation
    && FullVector(d, u)[0] == Advances && FullVector(d, u)[1] == Advances && FullVector(d, u)[2] == Advances && Ready(d, u)
    && exists a | a in d.assessments ::
         && IsAiiaOf(d.assessments, u, a) && d.assessments[a].status == Approved
         && d.assessments[a].submittedBy != Some(actor) && d.assessments[a].approvedBy != Some(actor)
  }

  /** An authorisation goes through exactly when the use case awaits it, its clearances and its classification
      stand, it is ready, its AIIA is approved, and the actor neither submitted nor approved it. No earlier
      ATO is asked for. */
  lemma AuthorisationGoesThroughIff(d: Db, u: Id, actor: User)
    requires Inv(d)
    ensures AuthorisedBy(d, u, actor).error.None? <==> Authorisable(d, u, actor)
    ensures AuthorisedBy(d, u, actor).error == Some(NotFound) <==> u !in d.useCases
    ensures AuthorisedBy(d, u, actor).error.Some? ==> AuthorisedBy(d, u, actor).error.value in {NotFound, Conflict}
  {
    if u in d.useCases {
      var aiia := AiiaOf(d.assessments, u);
      if aiia.Some? {
        forall a | IsAiiaOf(d.assessments, u, a) ensures a == aiia.value { AiiaIsUnique(d.assessments, u, a); }
        MiddleVerdicts(d, u, aiia.value);
      }
      hide Inv, FullVector, StructuralReadiness, TreatmentGate;
    }
  }

  lemma MiddleVerdicts(d: Db, u: Id, a: Id)
    requires u in d.useCases && AiiaOf(d.assessments, u) == Some(a)
    ensures FullVector(d, u)[3].Advances? && FullVector(d, u)[4].Advances? <==> Ready(d, u) && d.assessments[a].status == Approved
  {
    hide StructuralReadiness, TreatmentGate;
  }

  /** It writes one ATO for the AIIA's round and moves the use case one hop into AUTHORISED. */
  lemma AuthorisationWrites(d: Db, u: Id, actor: User)
    requires Inv(d) && AuthorisedBy(d, u, actor).error.None?
    ensures var e := AuthorisedBy(d, u, actor).db;
            && (exists a :: IsAiiaOf(d.assessments, u, a) && e.atos == d.atos + [Ato(u, a, d.assessments[a].submissionRound, actor)])
            && e.useCases.Keys == d.useCases.Keys && (forall w | w in d.useCases && w != u :: e.useCases[w] == d.useCases[w])
            && e.useCases[u].cursor.state == LifecycleState.Authorised
            && e.useCases[u].cursor.log ==
               d.useCases[u].cursor.log + [Edge(PendingAuthorisation, Event.Authorise, LifecycleState.Authorised)]
            && e.useCases[u] == d.useCases[u].(cursor := e.useCases[u].cursor)
            && e == d.(atos := e.atos, useCases := e.useCases, audit := e.audit, nextId := e.nextId)
  {
    hide FullVector, BelowAuthorisationPass;
    var a := AiiaOf(d.assessments, u).value;
    assert IsAiiaOf(d.assessments, u, a);
  }
}
