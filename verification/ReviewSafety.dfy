/** The review cycle and the authorisation act keep the invariant, and move the database on. */
module ReviewSafety {
  import opened Vocabulary
  import opened Lifecycle
  import opened Store
  import opened Gates
  import opened Counting
  import opened Invariants
  import opened ReviewService
  import opened AuthorisationService
  import opened EngineSafety
  import opened AssessmentSafety

  // --- The review cycle ---------------------------------------------------------------------------------

  lemma {:induction false} CountGrows(reviews: seq<Review>, k: nat, a: Id)
    requires k <= |reviews|
    ensures ReviewsOf(reviews[..k], a) <= ReviewsOf(reviews, a)
  {
    if k == |reviews| {
      assert reviews[..k] == reviews;
    } else {
      CountGrows(reviews[..|reviews| - 1], k, a);
      assert reviews[..|reviews| - 1][..k] == reviews[..k];
    }
  }

  /** The reviews of an assessment belong to rounds up to their number. */
  lemma RoundsAreBounded(reviews: seq<Review>, r: Review)
    requires ReviewsNumbered(reviews) && r in reviews
    ensures 1 <= r.round <= ReviewsOf(reviews, r.assessment)
  {
    var k :| 0 <= k < |reviews| && reviews[k] == r;
    assert ReviewNumbered(reviews, k);
    CountGrows(reviews, k + 1, r.assessment);
  }

  lemma NumberedSnoc(reviews: seq<Review>, x: Review)
    requires ReviewsNumbered(reviews) && x.round == ReviewsOf(reviews, x.assessment) + 1
    ensures ReviewsNumbered(reviews + [x])
  {
    var q := reviews + [x];
    ReviewsSnoc(reviews, x);
    forall k | 0 <= k < |q| ensures ReviewNumbered(q, k) {
      if k < |reviews| {
        assert ReviewNumbered(reviews, k) && q[..k + 1] == reviews[..k + 1];
      } else {
        assert q[..k + 1] == q;
      }
    }
  }

  /** What a row needs beside its ATOs. */
  predicate AtoFits(row: Assessment, t: Ato) {
    t.round <= row.submissionRound && (t.round == row.submissionRound ==> HasBeenApproved(row) && ThreePersons(row, t))
  }

  lemma AssessmentChangeOk(assessments: map<Id, Assessment>, useCases: set<Id>, atos: seq<Ato>, a: Id, row: Assessment)
    requires AssessmentsOk(assessments, useCases) && OneAiia(assessments) && OneFeeder(assessments)
    requires AtosOk(assessments, atos) && a in assessments
    requires AssessmentEvolves(assessments[a], row) && row.isCurrent
    requires forall t {:trigger AtoFits(row, t)} | t in atos && t.assessment == a :: AtoFits(row, t)
    ensures var q := assessments[a := row]; AssessmentsOk(q, useCases) && OneAiia(q) && OneFeeder(q) && AtosOk(q, atos)
  {
    var q := assessments[a := row];
    forall b | b in q ensures RowOk(q, useCases, q[b]) { assert RowOk(assessments, useCases, assessments[b]); }
    forall t | t in atos ensures AtoOk(q, t) {
      assert AtoOk(assessments, t);
      if t.assessment == a { assert AtoFits(row, t); }
    }
    forall u, b, c | IsAiiaOf(q, u, b) && IsAiiaOf(q, u, c) ensures b == c {
      assert IsAiiaOf(assessments, u, b) && IsAiiaOf(assessments, u, c);
    }
    forall p, kind, f, g | IsFeederOf(q, p, kind, f) && IsFeederOf(q, p, kind, g) ensures f == g {
      assert IsFeederOf(assessments, p, kind, f) && IsFeederOf(assessments, p, kind, g);
    }
  }

  lemma CycleChangeOk(assessments: map<Id, Assessment>, a: Id, row: Assessment,
                      reviews: seq<Review>, reviews': seq<Review>, audit: seq<Audit>, action: Action)
    requires CyclesOk(assessments, reviews, audit) && a in assessments && CountedOnAssessments(action)
    requires forall b | b != a :: ReviewsOf(reviews', b) == ReviewsOf(reviews, b)
    requires CycleOk(row, a, reviews', audit + [Audit(action, a)])
    requires forall r | r in reviews' :: if r.assessment == a then ReviewDecides(row, r) else r in reviews
    ensures CyclesOk(assessments[a := row], reviews', audit + [Audit(action, a)])
  {
    var q, audit' := assessments[a := row], audit + [Audit(action, a)];
    ActsSnoc(audit, Audit(action, a));
    forall b | b in q ensures CycleOk(q[b], b, reviews', audit') {
      if b != a { assert CycleOk(assessments[b], b, reviews, audit); }
    }
    forall r | r in reviews' ensures ReviewOk(q, r) {
      if r.assessment != a { assert ReviewOk(assessments, r); }
    }
  }

  /** A row changes by one counted act on it; what the new row itself must satisfy is required. */
  lemma AssessmentChangeKeeps(d: Db, a: Id, row: Assessment, reviews: seq<Review>, action: Action)
    requires Inv(d) && a in d.assessments && AssessmentEvolves(d.assessments[a], row) && row.isCurrent
    requires CountedOnAssessments(action) && d.reviews <= reviews && ReviewsNumbered(reviews)
    requires forall b | b != a :: ReviewsOf(reviews, b) == ReviewsOf(d.reviews, b)
    requires CycleOk(row, a, reviews, d.audit + [Audit(action, a)])
    requires forall r | r in reviews :: if r.assessment == a then ReviewDecides(row, r) else r in d.reviews
    requires forall t {:trigger AtoFits(row, t)} | t in d.atos && t.assessment == a :: AtoFits(row, t)
    ensures var e := Staged(d.(assessments := d.assessments[a := row], reviews := reviews), action, a); Inv(e) && Evolves(d, e)
  {
    var e := Staged(d.(assessments := d.assessments[a := row], reviews := reviews), action, a);
    AssessmentChangeOk(d.assessments, d.useCases.Keys, d.atos, a, row);
    CycleChangeOk(d.assessments, a, row, d.reviews, reviews, d.audit, action);
    ItemsKeepCount(d.items, d.assessments.Keys, d.audit, Audit(action, a));
    assert e.assessments.Keys == d.assessments.Keys;
    EvolvesIsReflexive(d);
    forall b | b in d.assessments ensures AssessmentEvolves(d.assessments[b], e.assessments[b]) { }
  }

  lemma SubmitKeeps(d: Db, a: Id, actor: User)
    requires Inv(d) && a in d.assessments && AllowedFrom(d.assessments[a].status, ToReview(0, actor))
    ensures var row := Changed(d.assessments[a], ToReview(d.assessments[a].submissionRound + 1, actor));
            var e := Staged(d.(assessments := d.assessments[a := row]), Submitted, a);
            Inv(e) && Evolves(d, e)
  {
    var row := Changed(d.assessments[a], ToReview(d.assessments[a].submissionRound + 1, actor));
    assert CycleOk(d.assessments[a], a, d.reviews, d.audit) && RowOk(d.assessments, d.useCases.Keys, d.assessments[a]);
    ActsSnoc(d.audit, Audit(Submitted, a));
    forall r | r in d.reviews && r.assessment == a ensures ReviewDecides(row, r) { RoundsAreBounded(d.reviews, r); }
    forall t | t in d.atos && t.assessment == a ensures AtoFits(row, t) { assert AtoOk(d.assessments, t); }
    AssessmentChangeKeeps(d, a, row, d.reviews, Submitted);
  }

  lemma ReviewKeeps(d: Db, a: Id, decision: ReviewDecision, actor: User)
    requires Inv(d) && a in d.assessments && d.assessments[a].status.InReview? && d.assessments[a].submittedBy != Some(actor)
    ensures var row := Changed(d.assessments[a], Decision(decision, actor));
            var e := Staged(d.(assessments := d.assessments[a := row],
                               reviews := d.reviews + [Review(a, actor, decision, row.submissionRound)]), ReviewRecorded, a);
            Inv(e) && Evolves(d, e)
  {
    var row, x := Changed(d.assessments[a], Decision(decision, actor)), Review(a, actor, decision, d.assessments[a].submissionRound);
    assert CycleOk(d.assessments[a], a, d.reviews, d.audit) && RowOk(d.assessments, d.useCases.Keys, d.assessments[a]);
    ActsSnoc(d.audit, Audit(ReviewRecorded, a));
    ReviewsSnoc(d.reviews, x);
    NumberedSnoc(d.reviews, x);
    forall r | r in d.reviews && r.assessment == a ensures r.round < row.submissionRound { RoundsAreBounded(d.reviews, r); }
    forall t | t in d.atos && t.assessment == a ensures AtoFits(row, t) { assert AtoOk(d.assessments, t); }
    hide Consistent, Evolves;
    AssessmentChangeKeeps(d, a, row, d.reviews + [x], ReviewRecorded);
  }

  /** Reopening keeps the counts of the cycle, and what the reviews and ATOs of the assessment say. */
  lemma RefreshFits(d: Db, a: Id)
    requires Inv(d) && a in d.assessments && d.assessments[a].status.Approved?
    ensures var row := Changed(d.assessments[a], ToRefresh);
            && row.isCurrent && ReviewsNumbered(d.reviews) && CycleOk(row, a, d.reviews, d.audit + [Audit(Reopened, a)])
            && (forall r | r in d.reviews :: if r.assessment == a then ReviewDecides(row, r) else r in d.reviews)
            && forall t {:trigger AtoFits(row, t)} | t in d.atos && t.assessment == a :: AtoFits(row, t)
  {
    var row := Changed(d.assessments[a], ToRefresh);
    assert CycleOk(d.assessments[a], a, d.reviews, d.audit) && RowOk(d.assessments, d.useCases.Keys, d.assessments[a]);
    ActsSnoc(d.audit, Audit(Reopened, a));
    forall r | r in d.reviews && r.assessment == a ensures ReviewDecides(row, r) { assert ReviewOk(d.assessments, r); }
    forall t | t in d.atos && t.assessment == a ensures AtoFits(row, t) { assert AtoOk(d.assessments, t); }
  }

  lemma ReopenKeeps(d: Db, a: Id, expected: nat)
    requires Inv(d)
    ensures Inv(ReopenedBy(d, a, expected).db) && Evolves(d, ReopenedBy(d, a, expected).db)
  {
    EvolvesIsReflexive(d);
    var r := ReopenedBy(d, a, expected);
    if r.error.None? {
      var row := Changed(d.assessments[a], ToRefresh);
      RefreshFits(d, a);
      hide Inv, Evolves, CycleOk, ReviewDecides, AtoFits;
      AssessmentChangeKeeps(d, a, row, d.reviews, Reopened);
      var e := Staged(d.(assessments := d.assessments[a := row]), Reopened, a);
      StagingKeeps(e, RefreshNeeded, a);
      Chain(d, e, r.db);
    }
  }

  // --- Authorisation --------------------------------------------------------------------------------------

  lemma AtoKeeps(d: Db, u: Id, t: Ato, c: Cursor)
    requires Inv(d) && u in d.useCases && AtoOk(d.assessments, t) && t.useCase == u
    requires CursorOk(c, AtosOf(d.atos, u) + 1) && d.useCases[u].cursor.log <= c.log
    requires d.useCases[u].cursor.state.PendingAuthorisation?
    ensures var e := WithCursor(d.(atos := d.atos + [t]), u, c); Inv(e) && Evolves(d, e)
  {
    var e := WithCursor(d.(atos := d.atos + [t]), u, c);
    AtosSnoc(d.atos, t);
    forall w | w in d.useCases
      ensures CursorOk(e.useCases[w].cursor, AtosOf(e.atos, w)) && SnapshotsOk(e.useCases[w].classifications)
      ensures HaltOk(e.useCases[w]) && UseCaseEvolves(d.useCases[w], e.useCases[w])
    {
      assert CursorOk(d.useCases[w].cursor, AtosOf(d.atos, w)) && SnapshotsOk(d.useCases[w].classifications) && HaltOk(d.useCases[w]);
    }
    assert e.useCases.Keys == d.useCases.Keys;
    EvolvesIsReflexive(d);
  }

  lemma IdentifierKeeps(d: Db)
    requires Inv(d)
    ensures Inv(d.(nextId := d.nextId + 1)) && Evolves(d, d.(nextId := d.nextId + 1))
  {
  }

  lemma GrantedCursorOk(d: Db, u: Id)
    requires Inv(d) && u in d.useCases && d.useCases[u].cursor.state.PendingAuthorisation?
    ensures var c := d.useCases[u].cursor; var q := Hop(c, Authorise, Authorised);
            CursorOk(q, AtosOf(d.atos, u) + 1) && c.log <= q.log
  {
    assert CursorOk(d.useCases[u].cursor, AtosOf(d.atos, u));
    HopReplays(d.useCases[u].cursor, Authorise, Authorised);
  }

  /** The grant in three writes: an identifier, an audit row, and the ATO with its transition. */
  lemma GrantedInSteps(d: Db, u: Id, a: Id, round: nat, actor: User)
    requires u in d.useCases
    ensures var f := Staged(d.(nextId := d.nextId + 1), AuthorisationGranted, d.nextId);
            Granted(d, u, a, round, actor).db ==
            if d.useCases[u].cursor.state.PendingAuthorisation?
            then WithCursor(f.(atos := f.atos + [Ato(u, a, round, actor)]), u, Hop(d.useCases[u].cursor, Authorise, Authorised)) else d
  {
    hide Hop;
  }

  lemma GrantKeeps(d: Db, u: Id, a: Id, round: nat, actor: User)
    requires Inv(d) && u in d.useCases && AtoOk(d.assessments, Ato(u, a, round, actor))
    ensures Inv(Granted(d, u, a, round, actor).db) && Evolves(d, Granted(d, u, a, round, actor).db)
  {
    GrantedInSteps(d, u, a, round, actor);
    EvolvesIsReflexive(d);
    hide Inv, Evolves, CursorOk, Granted, AtoOk, WithCursor, Hop;
    if d.useCases[u].cursor.state.PendingAuthorisation? {
      var e := d.(nextId := d.nextId + 1);
      var f := Staged(e, AuthorisationGranted, d.nextId);
      GrantedCursorOk(d, u);
      IdentifierKeeps(d);
      StagingKeeps(e, AuthorisationGranted, d.nextId);
      Chain(d, e, f);
      AtoKeeps(f, u, Ato(u, a, round, actor), Hop(d.useCases[u].cursor, Authorise, Authorised));
      Chain(d, f, Granted(d, u, a, round, actor).db);
    }
  }
}
