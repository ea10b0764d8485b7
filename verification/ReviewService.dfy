/** The assessment review cycle (app/services/assessment_review_service.py): submit, review and
    reopen, each one conditional update keyed on the lock version and the from-status. */
module ReviewService {
  import opened Vocabulary
  import opened Lifecycle
  import opened Store
  import opened Gates
  import opened LifecycleService

  /** The column values a status update writes. */
  datatype StatusChange =
    | ToReview(round: nat, submitter: User)
    | ToApproved(approver: User)
    | ToDraft
    | ToRefresh

  predicate AllowedFrom(status: AssessmentStatus, change: StatusChange) {
    match change
    case ToReview(_, _) => status.Draft? || status.NeedsRefresh?
    case ToApproved(_) => status.InReview?
    case ToDraft => status.InReview?
    case ToRefresh => status.Approved?
  }

  function Changed(row: Assessment, change: StatusChange): Assessment {
    var next := row.(lockVersion := row.lockVersion + 1);
    match change
    case ToReview(round, submitter) => next.(status := InReview, submissionRound := round, submittedBy := Some(submitter))
    case ToApproved(approver) => next.(status := Approved, approvedBy := Some(approver))
    case ToDraft => next.(status := Draft)
    case ToRefresh => next.(status := NeedsRefresh)
  }

  /** The actor performed none of the excluded acts; an act without an actor excludes nobody. */
  predicate DistinctActor(actor: User, excluded: set<Option<User>>) {
    Some(actor) !in excluded
  }

  // --- What the calls leave behind -------------------------------------------------------

  function Staged(d: Db, action: Action, entity: Id): Db {
    d.(audit := d.audit + [Audit(action, entity)])
  }

  /** One conditional update: a changed lock version is a stale If-Match, an unchanged one with a
      status outside the allowed set is a bad from-state. */
  function ConditionallyUpdated(d: Db, a: Id, expected: nat, change: StatusChange): Reply {
    if a !in d.assessments then Refuse(d, NotFound)
    else if d.assessments[a].lockVersion != expected then Refuse(d, StaleIfMatch)
    else if !AllowedFrom(d.assessments[a].status, change) then Refuse(d, Conflict)
    else Done(d.(assessments := d.assessments[a := Changed(d.assessments[a], change)]))
  }

  ghost function SubmittedForReview(d: Db, a: Id, expected: nat, actor: User): Reply {
    if a !in d.assessments || d.assessments[a].useCase !in d.useCases then Refuse(d, NotFound)
    else
      var u := d.assessments[a].useCase;
      if !StructurallyReady(d, u) || !FullyTreated(d, u) then Refuse(d, Conflict)
      else
        var r := ConditionallyUpdated(d, a, expected, ToReview(d.assessments[a].submissionRound + 1, actor));
        if r.error.Some? then r else Done(Staged(r.db, Submitted, a))
  }

  function Decision(decision: ReviewDecision, actor: User): StatusChange {
    if decision.Approve? then ToApproved(actor) else ToDraft
  }

  ghost function ReviewedBy(d: Db, a: Id, decision: ReviewDecision, note: Option<string>, expected: nat, actor: User): Reply {
    if a !in d.assessments || d.assessments[a].useCase !in d.useCases then Refuse(d, NotFound)
    else
      var row := d.assessments[a];
      if !DistinctActor(actor, {row.submittedBy}) then Refuse(d, Conflict)
      else if !row.status.InReview? then Refuse(d, Conflict)
      else if decision.RequestChanges? && !NonBlank(note) then Refuse(d, Unprocessable)
      else
        var r := ConditionallyUpdated(d, a, expected, Decision(decision, actor));
        if r.error.Some? then r
        else
          var e := Staged(r.db.(reviews := d.reviews + [Review(a, actor, decision, row.submissionRound)]), ReviewRecorded, a);
          Done(if decision.Approve? then AutoAdvanced(e, row.useCase) else e)
  }

  function ReopenedBy(d: Db, a: Id, expected: nat): Reply {
    var r := ConditionallyUpdated(d, a, expected, ToRefresh);
    if r.error.Some? then r else Done(Staged(Staged(r.db, Reopened, a), RefreshNeeded, a))
  }

  // --- The calls -------------------------------------------------------------------------

  method ConditionalStatusUpdate(s: Session, a: Id, expected: nat, change: StatusChange) returns (error: Option<Error>)
    modifies s
    ensures s.Tables() == ConditionallyUpdated(old(s.Tables()), a, expected, change).db
    ensures error == ConditionallyUpdated(old(s.Tables()), a, expected, change).error
  {
    if a !in s.assessments {
      return Some(NotFound);
    }
    var row := s.assessments[a];
    if row.lockVersion == expected && AllowedFrom(row.status, change) {
      s.assessments := s.assessments[a := Changed(row, change)];
      return None;
    }
    return if row.lockVersion != expected then Some(StaleIfMatch) else Some(Conflict);
  }

  method SubmitForReview(s: Session, a: Id, expected: nat, actor: User) returns (error: Option<Error>)
    requires OneAiia(s.assessments)
    modifies s
    ensures s.Tables() == SubmittedForReview(old(s.Tables()), a, expected, actor).db
    ensures error == SubmittedForReview(old(s.Tables()), a, expected, actor).error
  {
    if a !in s.assessments || s.assessments[a].useCase !in s.useCases {
      return Some(NotFound);
    }
    var row := s.assessments[a];
    var aiia := FindAiia(s, row.useCase);
    var structural := StructuralReadiness(s.Tables(), row.useCase, aiia);
    if !structural.verdict.Advances? {
      return Some(Conflict);
    }
    var treatment := TreatmentGate(s.Tables(), row.useCase);
    if !treatment.verdict.Advances? {
      return Some(Conflict);
    }
    error := ConditionalStatusUpdate(s, a, expected, ToReview(row.submissionRound + 1, actor));
    if error.None? {
      s.audit := s.audit + [Audit(Submitted, a)];
    }
  }

  method RecordReview(s: Session, a: Id, decision: ReviewDecision, note: Option<string>, expected: nat, actor: User)
    returns (error: Option<Error>)
    requires OneAiia(s.assessments)
    modifies s
    ensures s.Tables() == ReviewedBy(old(s.Tables()), a, decision, note, expected, actor).db
    ensures error == ReviewedBy(old(s.Tables()), a, decision, note, expected, actor).error
  {
    if a !in s.assessments || s.assessments[a].useCase !in s.useCases {
      return Some(NotFound);
    }
    var row := s.assessments[a];
    if !DistinctActor(actor, {row.submittedBy}) {
      return Some(Conflict);
    }
    if !row.status.InReview? {
      return Some(Conflict);
    }
    if decision.RequestChanges? && !NonBlank(note) {
      return Some(Unprocessable);
    }
    if decision.Approve? {
      error := ConditionalStatusUpdate(s, a, expected, ToApproved(actor));
    } else {
      error := ConditionalStatusUpdate(s, a, expected, ToDraft);
    }
    if error.Some? {
      return;
    }
    s.reviews := s.reviews + [Review(a, actor, decision, row.submissionRound)];
    s.audit := s.audit + [Audit(ReviewRecorded, a)];
    if decision.Approve? {
      StatusUpdatesKeepOneAiia(old(s.assessments), a, ToApproved(actor));
      AdvanceUseCase(s, row.useCase);
    }
  }

  method Reopen(s: Session, a: Id, expected: nat) returns (error: Option<Error>)
    modifies s
    ensures s.Tables() == ReopenedBy(old(s.Tables()), a, expected).db
    ensures error == ReopenedBy(old(s.Tables()), a, expected).error
  {
    error := ConditionalStatusUpdate(s, a, expected, ToRefresh);
    if error.None? {
      s.audit := s.audit + [Audit(Reopened, a)];
      s.audit := s.audit + [Audit(RefreshNeeded, a)];
    }
  }

  lemma StatusUpdatesKeepOneAiia(assessments: map<Id, Assessment>, a: Id, change: StatusChange)
    requires a in assessments && OneAiia(assessments)
    ensures OneAiia(assessments[a := Changed(assessments[a], change)])
  {
    var after := assessments[a := Changed(assessments[a], change)];
    assert forall u, b :: IsAiiaOf(after, u, b) <==> IsAiiaOf(assessments, u, b);
  }
}
