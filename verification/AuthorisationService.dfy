/** The deployment authorisation act (app/services/authorisation_service.py). */
module AuthorisationService {
  import opened Vocabulary
  import opened Lifecycle
  import opened Store
  import opened Gates
  import opened LifecycleService
  import opened ReviewService

  /** Every gate below the authorisation gate advances. */
  predicate BelowAuthorisationPass(v: Vector) {
    forall k | 0 <= k < 5 :: v[k].Advances?
  }

  /** The checks before the grant: None when they pass. */
  ghost function AuthorisationRefusal(d: Db, u: Id, actor: User): Option<Error> {
    if u !in d.useCases then Some(NotFound)
    else
      var aiia := AiiaOf(d.assessments, u);
      if aiia.None? then Some(Conflict)
      else if !d.useCases[u].cursor.state.PendingAuthorisation? || !BelowAuthorisationPass(FullVector(d, u)) then Some(Conflict)
      else
        var row := d.assessments[aiia.value];
        if !DistinctActor(actor, {row.approvedBy, row.submittedBy}) then Some(Conflict) else None
  }

  /** The grant itself: an ATO stamped with the AIIA's round, and the transition into AUTHORISED. */
  function Granted(d: Db, u: Id, aiia: Id, round: nat, actor: User): Reply
    requires u in d.useCases
  {
    var e := d.(atos := d.atos + [Ato(u, aiia, round, actor)], nextId := d.nextId + 1,
                audit := d.audit + [Audit(AuthorisationGranted, d.nextId)]);
    var r := Transitioned(e, u, PendingAuthorisation, Authorise, Authorised);
    if r.error.Some? then Refuse(d, r.error.value) else r
  }

  ghost function AuthorisedBy(d: Db, u: Id, actor: User): Reply {
    var refusal := AuthorisationRefusal(d, u, actor);
    if refusal.Some? then Refuse(d, refusal.value)
    else
      var aiia := AiiaOf(d.assessments, u).value;
      Granted(d, u, aiia, d.assessments[aiia].submissionRound, actor)
  }

  method AuthoriseUseCase(s: Session, u: Id, actor: User) returns (error: Option<Error>)
    requires OneAiia(s.assessments)
    modifies s
    ensures s.Tables() == AuthorisedBy(old(s.Tables()), u, actor).db
    ensures error == AuthorisedBy(old(s.Tables()), u, actor).error
  {
    if u !in s.useCases {
      return Some(NotFound);
    }
    var aiia := FindAiia(s, u);
    if aiia.None? {
      return Some(Conflict);
    }
    var vector := GateResults(s.Tables(), u, aiia);
    if !s.useCases[u].cursor.state.PendingAuthorisation? || exists k | 0 <= k < 5 :: !vector[k].verdict.Advances? {
      assert forall k | 0 <= k < 5 :: vector[k].verdict == FullVector(s.Tables(), u)[k];
      return Some(Conflict);
    }
    var row := s.assessments[aiia.value];
    if !DistinctActor(actor, {row.approvedBy, row.submittedBy}) {
      return Some(Conflict);
    }
    s.atos := s.atos + [Ato(u, aiia.value, row.submissionRound, actor)];
    s.audit := s.audit + [Audit(AuthorisationGranted, s.nextId)];
    s.nextId := s.nextId + 1;
    error := ApplyTransition(s, u, PendingAuthorisation, Authorise, Authorised);
    assert error.None?;
  }
}
