/** The assessment service keeps the invariant, and moves the database on. */
module AssessmentSafety {
  import opened Vocabulary
  import opened Store
  import opened Gates
  import opened Counting
  import opened Invariants
  import opened ReviewService
  import opened AssessmentService
  import opened EngineSafety

  // --- The audit trail ------------------------------------------------------------------------

  /** Acts that some lock version counts. */
  predicate CountedOnItems(action: Action) {
    action.ItemAmended? || action.TreatmentSet? || action.ItemConfirmed?
  }

  predicate CountedOnAssessments(action: Action) {
    action.Submitted? || action.ReviewRecorded? || action.Reopened?
  }

  lemma ItemsKeepCount(items: map<Id, Item>, assessments: set<Id>, audit: seq<Audit>, x: Audit)
    requires ItemsOk(items, assessments, audit) && !CountedOnItems(x.action)
    ensures ItemsOk(items, assessments, audit + [x])
  {
    ActsSnoc(audit, x);
    forall i | i in items ensures ItemOk(items[i], i, assessments, audit + [x]) {
      assert ItemOk(items[i], i, assessments, audit);
    }
  }

  lemma CyclesKeepCount(assessments: map<Id, Assessment>, reviews: seq<Review>, audit: seq<Audit>, x: Audit)
    requires CyclesOk(assessments, reviews, audit) && !CountedOnAssessments(x.action)
    ensures CyclesOk(assessments, reviews, audit + [x])
  {
    ActsSnoc(audit, x);
    forall a | a in assessments ensures CycleOk(assessments[a], a, reviews, audit + [x]) {
      assert CycleOk(assessments[a], a, reviews, audit);
    }
  }

  lemma StagingKeeps(d: Db, action: Action, entity: Id)
    requires Inv(d) && entity < d.nextId && !CountedOnItems(action) && !CountedOnAssessments(action)
    ensures Inv(Staged(d, action, entity)) && Evolves(d, Staged(d, action, entity))
  {
    ItemsKeepCount(d.items, d.assessments.Keys, d.audit, Audit(action, entity));
    CyclesKeepCount(d.assessments, d.reviews, d.audit, Audit(action, entity));
    EvolvesIsReflexive(d);
  }

  // --- Items and links alone ---------------------------------------------------------------------

  /** Only items, links and fresh identifiers changed. */
  lemma ItemTablesKeep(d: Db, e: Db)
    requires Inv(d) && d.nextId <= e.nextId
    requires e == d.(items := e.items, controlLinks := e.controlLinks, evidenceLinks := e.evidenceLinks, nextId := e.nextId)
    requires Below(e.items, e.nextId) && Below(e.controlLinks, e.nextId) && Below(e.evidenceLinks, e.nextId)
    requires ItemsOk(e.items, d.assessments.Keys, d.audit) && ItemsEvolve(d.items, e.items, d.nextId)
    requires ControlLinksOk(e.controlLinks, e.items.Keys) && EvidenceLinksOk(e.evidenceLinks, e.items)
    ensures Inv(e) && Evolves(d, e)
  {
  }

  /** Links stay sound when rows are only added or dispositioned. */
  lemma LinksSurvive(controls: map<Id, ControlLink>, evidence: map<Id, EvidenceLink>, p: map<Id, Item>, q: map<Id, Item>)
    requires ControlLinksOk(controls, p.Keys) && EvidenceLinksOk(evidence, p)
    requires p.Keys <= q.Keys && forall i {:trigger q[i]} | i in p :: !p[i].provenance.AiSuggested? ==> !q[i].provenance.AiSuggested?
    ensures ControlLinksOk(controls, q.Keys) && EvidenceLinksOk(evidence, q)
  {
    forall l | l in evidence ensures EvidenceLinkOk(evidence[l], q) { assert EvidenceLinkOk(evidence[l], p); }
  }

  /** A row as creation makes it. */
  predicate NewItemOk(row: Item, assessments: set<Id>) {
    row.assessment in assessments && ProposalIsBare(row) && row.lockVersion == 0
  }

  predicate NewItemsOk(rows: seq<Item>, assessments: set<Id>) {
    forall k {:trigger NewItemOk(rows[k], assessments)} | 0 <= k < |rows| :: NewItemOk(rows[k], assessments)
  }

  lemma InsertedOk(items: map<Id, Item>, n: nat, rows: seq<Item>, assessments: set<Id>, audit: seq<Audit>)
    requires ItemsOk(items, assessments, audit) && Below(items, n) && NewItemsOk(rows, assessments)
    requires forall x | x in audit :: x.entity < n
    ensures var q := Inserted(items, n, rows);
            && ItemsOk(q, assessments, audit) && Below(q, n + |rows|) && ItemsEvolve(items, q, n)
            && items.Keys <= q.Keys && forall i | i in items :: q[i] == items[i]
  {
    var q := Inserted(items, n, rows);
    InsertedRows(items, n, rows);
    forall i | i in q ensures ItemOk(q[i], i, assessments, audit) {
      if i < n {
        assert ItemOk(items[i], i, assessments, audit);
      } else {
        assert NewItemOk(rows[i - n], assessments);
        NoActs(audit, ItemAmended, i);
        NoActs(audit, TreatmentSet, i);
        NoActs(audit, ItemConfirmed, i);
      }
    }
  }

  lemma NewItemsKeep(d: Db, rows: seq<Item>)
    requires Inv(d) && NewItemsOk(rows, d.assessments.Keys)
    ensures var e := d.(items := Inserted(d.items, d.nextId, rows), nextId := d.nextId + |rows|); Inv(e) && Evolves(d, e)
  {
    var e := d.(items := Inserted(d.items, d.nextId, rows), nextId := d.nextId + |rows|);
    InsertedOk(d.items, d.nextId, rows, d.assessments.Keys, d.audit);
    LinksSurvive(d.controlLinks, d.evidenceLinks, d.items, e.items);
    ItemTablesKeep(d, e);
  }

  // --- New assessments -----------------------------------------------------------------------------

  /** No AIIA of that use case yet, or no feeder of that kind under that AIIA. */
  ghost predicate IsFirst(assessments: map<Id, Assessment>, row: Assessment) {
    && (row.kind.Aiia? ==> forall a :: !IsAiiaOf(assessments, row.useCase, a))
    && (row.parent.Some? ==> forall f :: !IsFeederOf(assessments, row.parent.value, row.kind, f))
  }

  lemma NewRowOk(assessments: map<Id, Assessment>, useCases: set<Id>, n: nat, row: Assessment)
    requires AssessmentsOk(assessments, useCases) && OneAiia(assessments) && OneFeeder(assessments) && Below(assessments, n)
    requires RowOk(assessments, useCases, row) && IsFirst(assessments, row)
    ensures AssessmentsOk(assessments[n := row], useCases) && OneAiia(assessments[n := row]) && OneFeeder(assessments[n := row])
  {
    var q := assessments[n := row];
    forall a | a in q ensures RowOk(q, useCases, q[a]) {
      if a != n { assert RowOk(assessments, useCases, assessments[a]); }
    }
    forall v, a, b | IsAiiaOf(q, v, a) && IsAiiaOf(q, v, b) ensures a == b {
      if a != n { assert IsAiiaOf(assessments, v, a); }
      if b != n { assert IsAiiaOf(assessments, v, b); }
    }
    forall p, kind, f, g | IsFeederOf(q, p, kind, f) && IsFeederOf(q, p, kind, g) ensures f == g {
      if f != n { assert IsFeederOf(assessments, p, kind, f); }
      if g != n { assert IsFeederOf(assessments, p, kind, g); }
    }
  }

  lemma NewCycleOk(assessments: map<Id, Assessment>, reviews: seq<Review>, audit: seq<Audit>, atos: seq<Ato>, n: nat,
                   u: Id, kind: AssessmentType, parent: Option<Id>, tier: Tier)
    requires CyclesOk(assessments, reviews, audit) && AtosOk(assessments, atos) && Below(assessments, n)
    requires forall x | x in audit :: x.entity < n
    ensures var q := assessments[n := NewAssessment(u, kind, parent, tier)]; CyclesOk(q, reviews, audit) && AtosOk(q, atos)
  {
    var q := assessments[n := NewAssessment(u, kind, parent, tier)];
    forall r | r in reviews ensures ReviewOk(q, r) && r.assessment != n { assert ReviewOk(assessments, r); }
    ReviewsExist(reviews, n);
    NoActs(audit, Submitted, n);
    NoActs(audit, ReviewRecorded, n);
    NoActs(audit, Reopened, n);
    forall a | a in q ensures CycleOk(q[a], a, reviews, audit) {
      if a != n { assert CycleOk(assessments[a], a, reviews, audit); }
    }
    forall t | t in atos ensures AtoOk(q, t) { assert AtoOk(assessments, t); }
  }

  lemma ItemsSeeMoreAssessments(items: map<Id, Item>, p: set<Id>, q: set<Id>, audit: seq<Audit>)
    requires ItemsOk(items, p, audit) && forall i | i in items :: items[i].assessment in p ==> items[i].assessment in q
    ensures ItemsOk(items, q, audit)
  {
    forall i | i in items ensures ItemOk(items[i], i, q, audit) { assert ItemOk(items[i], i, p, audit); }
  }

  lemma NewRowKeeps(d: Db, u: Id, kind: AssessmentType, parent: Option<Id>, tier: Tier)
    requires Inv(d)
    requires RowOk(d.assessments, d.useCases.Keys, NewAssessment(u, kind, parent, tier))
    requires IsFirst(d.assessments, NewAssessment(u, kind, parent, tier))
    ensures var e := d.(assessments := d.assessments[d.nextId := NewAssessment(u, kind, parent, tier)], nextId := d.nextId + 1);
            Inv(e) && Evolves(d, e)
  {
    var e := d.(assessments := d.assessments[d.nextId := NewAssessment(u, kind, parent, tier)], nextId := d.nextId + 1);
    NewRowOk(d.assessments, d.useCases.Keys, d.nextId, NewAssessment(u, kind, parent, tier));
    NewCycleOk(d.assessments, d.reviews, d.audit, d.atos, d.nextId, u, kind, parent, tier);
    ItemsSeeMoreAssessments(d.items, d.assessments.Keys, e.assessments.Keys, d.audit);
    EvolvesIsReflexive(d);
    assert AssessmentsEvolve(d.assessments, e.assessments, d.nextId);
  }

  lemma PrefillOk(a: Id, kind: AssessmentType, sections: nat, facts: seq<string>, risks: seq<Id>, assessments: set<Id>)
    requires a in assessments
    ensures NewItemsOk(Prefill(a, kind, sections, facts, risks), assessments)
  {
  }

  lemma NewAssessmentKeeps(d: Db, u: Id, kind: AssessmentType, parent: Option<Id>, tier: Tier,
                           sections: nat, facts: seq<string>, risks: seq<Id>, action: Action)
    requires Inv(d) && !CountedOnItems(action) && !CountedOnAssessments(action)
    requires RowOk(d.assessments, d.useCases.Keys, NewAssessment(u, kind, parent, tier))
    requires IsFirst(d.assessments, NewAssessment(u, kind, parent, tier))
    ensures var e := WithAssessment(d, NewAssessment(u, kind, parent, tier), sections, facts, risks, action);
            Inv(e) && Evolves(d, e)
  {
    hide Consistent, Evolves, Prefill, Inserted;
    var a, rows := d.nextId, Prefill(d.nextId, kind, sections, facts, risks);
    NewRowKeeps(d, u, kind, parent, tier);
    var d1 := d.(assessments := d.assessments[a := NewAssessment(u, kind, parent, tier)], nextId := a + 1);
    PrefillOk(a, kind, sections, facts, risks, d1.assessments.Keys);
    NewItemsKeep(d1, rows);
    var d2 := d1.(items := Inserted(d1.items, d1.nextId, rows), nextId := d1.nextId + |rows|);
    StagingKeeps(d2, action, a);
    Chain(d, d1, d2);
    Chain(d, d2, Staged(d2, action, a));
  }

  lemma Chain(d: Db, e: Db, f: Db)
    requires Inv(d) && Evolves(d, e) && Evolves(e, f)
    ensures Evolves(d, f)
  {
    EvolvesIsTransitive(d, e, f);
  }

  lemma CreateAiiaKeeps(d: Db, u: Id, sections: nat, facts: seq<string>, risks: seq<Id>)
    requires Inv(d)
    ensures var e := AiiaCreated(d, u, sections, facts, risks).db; Inv(e) && Evolves(d, e)
  {
    EvolvesIsReflexive(d);
    if AiiaCreated(d, u, sections, facts, risks).error.None? {
      forall a ensures !IsAiiaOf(d.assessments, u, a) {
        if a in d.assessments { assert RowOk(d.assessments, d.useCases.Keys, d.assessments[a]); }
      }
      hide Consistent, Evolves, WithAssessment;
      NewAssessmentKeeps(d, u, Aiia, None, d.useCases[u].euTier, sections, facts, risks, AssessmentCreated);
    }
  }

  lemma CreateFeederKeeps(d: Db, p: Id, kind: AssessmentType, sections: nat, facts: seq<string>, risks: seq<Id>)
    requires Inv(d)
    ensures var e := FeederAdded(d, p, kind, sections, facts, risks).db; Inv(e) && Evolves(d, e)
  {
    EvolvesIsReflexive(d);
    if FeederAdded(d, p, kind, sections, facts, risks).error.None? {
      var parent := d.assessments[p];
      assert RowOk(d.assessments, d.useCases.Keys, parent);
      assert forall f :: IsFeederOf(d.assessments, p, kind, f) ==> FeederExists(d, p, kind);
      hide Consistent, Evolves, WithAssessment;
      NewAssessmentKeeps(d, parent.useCase, kind, Some(p), parent.tierSnapshot, sections, facts, risks, Action.FeederCreated);
    }
  }

  lemma CreateItemKeeps(d: Db, a: Id, known: bool, response: Option<string>)
    requires Inv(d)
    ensures var e := ItemFromSection(d, a, known, response).db; Inv(e) && Evolves(d, e)
  {
    EvolvesIsReflexive(d);
    if ItemFromSection(d, a, known, response).error.None? {
      hide Consistent, Evolves;
      var row := Item(a, None, None, if response.Some? then UserAmended else CatalogueCurated,
                      BLANK.(response := response), UNTREATED, 0);
      assert NewItemsOk([row], d.assessments.Keys);
      NewItemsKeep(d, [row]);
      assert Inserted(d.items, d.nextId, [row]) == d.items[d.nextId := row];
      var e := d.(items := d.items[d.nextId := row], nextId := d.nextId + 1);
      StagingKeeps(e, ItemCreated, d.nextId);
      Chain(d, e, Staged(e, ItemCreated, d.nextId));
    }
  }

  // --- Changed items -----------------------------------------------------------------------------

  lemma ItemChangeOk(items: map<Id, Item>, assessments: set<Id>, audit: seq<Audit>, i: Id, row: Item, action: Action, n: nat)
    requires ItemsOk(items, assessments, audit) && i in items && ItemEvolves(items[i], row) && CountedOnItems(action)
    requires row.lockVersion == items[i].lockVersion + 1 && !row.provenance.AiSuggested?
    ensures ItemsOk(items[i := row], assessments, audit + [Audit(action, i)]) && ItemsEvolve(items, items[i := row], n)
  {
    var q, x := items[i := row], Audit(action, i);
    ActsSnoc(audit, x);
    forall j | j in q ensures ItemOk(q[j], j, assessments, audit + [x]) { assert ItemOk(items[j], j, assessments, audit); }
  }

  /** One recorded change of an item, by an act that its lock version counts. */
  lemma ItemChangeKeeps(d: Db, i: Id, row: Item, action: Action)
    requires Inv(d) && i in d.items && ItemEvolves(d.items[i], row) && CountedOnItems(action)
    requires row.lockVersion == d.items[i].lockVersion + 1 && !row.provenance.AiSuggested?
    ensures var e := Staged(d.(items := d.items[i := row]), action, i); Inv(e) && Evolves(d, e)
  {
    var e := Staged(d.(items := d.items[i := row]), action, i);
    ItemChangeOk(d.items, d.assessments.Keys, d.audit, i, row, action, d.nextId);
    CyclesKeepCount(d.assessments, d.reviews, d.audit, Audit(action, i));
    LinksSurvive(d.controlLinks, d.evidenceLinks, d.items, e.items);
    EvolvesIsReflexive(d);
  }

  lemma PatchKeeps(d: Db, i: Id, content: Authoring, treatment: Treatment, u: Id)
    requires Inv(d) && i in d.items && u in d.useCases
    requires !ChangesNothing(d.items[i], content, treatment) && !d.items[i].provenance.AiSuggested?
    ensures var e := PatchWritten(d, i, content, treatment, u); Inv(e) && Evolves(d, e)
  {
    var treated := MergedTreatment(d.items[i].treatment, treatment) != d.items[i].treatment;
    var row, action := Amended(d.items[i], content, treatment), if treated then TreatmentSet else ItemAmended;
    var e := Staged(d.(items := d.items[i := row]), action, i);
    ItemChangeKeeps(d, i, row, action);
    hide Evolves;
    if treated {
      AutoAdvanceKeeps(e, u);
      Chain(d, e, PatchWritten(d, i, content, treatment, u));
    }
  }

  lemma ConfirmKeeps(d: Db, i: Id, u: Id)
    requires Inv(d) && i in d.items && u in d.useCases && d.items[i].provenance.AiSuggested?
    ensures Inv(ConfirmWritten(d, i, u)) && Evolves(d, ConfirmWritten(d, i, u))
  {
    var e := Staged(d.(items := d.items[i := Confirmed(d.items[i])]), ItemConfirmed, i);
    ItemChangeKeeps(d, i, Confirmed(d.items[i]), ItemConfirmed);
    hide Evolves;
    AutoAdvanceKeeps(e, u);
    Chain(d, e, ConfirmWritten(d, i, u));
  }

  // --- Deletions -----------------------------------------------------------------------------------

  /** Items go, with their links. */
  lemma RemovalOk(d: Db, gone: set<Id>)
    requires Inv(d)
    ensures var e := d.(items := d.items - gone, controlLinks := ControlLinksBut(d.controlLinks, gone),
                        evidenceLinks := EvidenceLinksBut(d.evidenceLinks, gone));
            Inv(e) && Evolves(d, e)
  {
    var e := d.(items := d.items - gone, controlLinks := ControlLinksBut(d.controlLinks, gone),
                evidenceLinks := EvidenceLinksBut(d.evidenceLinks, gone));
    forall i | i in e.items ensures ItemOk(e.items[i], i, d.assessments.Keys, d.audit) {
      assert ItemOk(d.items[i], i, d.assessments.Keys, d.audit);
    }
    forall k, l | k in e.controlLinks && l in e.controlLinks ensures SameControl(e.controlLinks, k, l) ==> k == l {
      assert SameControl(e.controlLinks, k, l) ==> SameControl(d.controlLinks, k, l);
    }
    forall l | l in e.evidenceLinks ensures EvidenceLinkOk(e.evidenceLinks[l], e.items) {
      assert EvidenceLinkOk(d.evidenceLinks[l], d.items);
    }
    forall k, l | k in e.evidenceLinks && l in e.evidenceLinks ensures SameEvidence(e.evidenceLinks, k, l) ==> k == l {
      assert SameEvidence(e.evidenceLinks, k, l) ==> SameEvidence(d.evidenceLinks, k, l);
    }
    ItemTablesKeep(d, e);
  }

  lemma DeleteItemKeeps(d: Db, i: Id)
    requires Inv(d)
    ensures var e := ItemDeletedFrom(d, i).db; Inv(e) && Evolves(d, e)
  {
    EvolvesIsReflexive(d);
    if i in d.items {
      RemovalOk(d, {i});
      hide Evolves;
      var e := d.(items := d.items - {i}, controlLinks := ControlLinksBut(d.controlLinks, {i}),
                  evidenceLinks := EvidenceLinksBut(d.evidenceLinks, {i}));
      StagingKeeps(e, ItemDeleted, i);
      Chain(d, e, Staged(e, ItemDeleted, i));
    }
  }

  /** An assessment that was ever submitted is not pristine. */
  lemma SubmittedIsNotPristine(d: Db, a: Id)
    requires CyclesOk(d.assessments, d.reviews, d.audit) && EverSubmitted(d.assessments, a)
    ensures !Pristine(d, a)
  {
    ReviewsExist(d.reviews, a);
    assert CycleOk(d.assessments[a], a, d.reviews, d.audit);
  }

  /** With its items gone, an assessment without history, feeders or authorisations can go too. */
  lemma RowRemovalKeeps(d: Db, a: Id)
    requires Inv(d) && a in d.assessments && d.assessments[a].submissionRound == 0 && ItemsOf(d.items, a) == {}
    requires forall f | f in d.assessments :: d.assessments[f].parent != Some(a)
    requires (forall r | r in d.reviews :: r.assessment != a) && forall t | t in d.atos :: t.assessment != a
    ensures var e := d.(assessments := d.assessments - {a}); Inv(e) && Evolves(d, e)
  {
    var e := d.(assessments := d.assessments - {a});
    forall b | b in e.assessments
      ensures RowOk(e.assessments, d.useCases.Keys, e.assessments[b]) && CycleOk(e.assessments[b], b, d.reviews, d.audit)
    {
      assert RowOk(d.assessments, d.useCases.Keys, d.assessments[b]) && CycleOk(d.assessments[b], b, d.reviews, d.audit);
    }
    forall r | r in d.reviews ensures ReviewOk(e.assessments, r) { assert ReviewOk(d.assessments, r); }
    forall t | t in d.atos ensures AtoOk(e.assessments, t) { assert AtoOk(d.assessments, t); }
    forall u, b, c | IsAiiaOf(e.assessments, u, b) && IsAiiaOf(e.assessments, u, c) ensures b == c {
      assert IsAiiaOf(d.assessments, u, b) && IsAiiaOf(d.assessments, u, c);
    }
    forall p, kind, f, g | IsFeederOf(e.assessments, p, kind, f) && IsFeederOf(e.assessments, p, kind, g) ensures f == g {
      assert IsFeederOf(d.assessments, p, kind, f) && IsFeederOf(d.assessments, p, kind, g);
    }
    forall i | i in d.items ensures d.items[i].assessment != a { assert i !in ItemsOf(d.items, a); }
    ItemsSeeMoreAssessments(d.items, d.assessments.Keys, e.assessments.Keys, d.audit);
    EvolvesIsReflexive(d);
  }

  lemma DeleteAssessmentKeeps(d: Db, a: Id)
    requires Inv(d)
    ensures var e := AssessmentDeletedFrom(d, a).db; Inv(e) && Evolves(d, e)
  {
    EvolvesIsReflexive(d);
    if AssessmentDeletedFrom(d, a).error.None? {
      var gone := ItemsOf(d.items, a);
      if EverSubmitted(d.assessments, a) { SubmittedIsNotPristine(d, a); }
      RemovalOk(d, gone);
      assert ControlLinksBut(d.controlLinks, gone) == d.controlLinks && EvidenceLinksBut(d.evidenceLinks, gone) == d.evidenceLinks;
      hide Evolves;
      var d1 := d.(items := d.items - gone);
      RowRemovalKeeps(d1, a);
      var d2 := d1.(assessments := d1.assessments - {a});
      StagingKeeps(d2, AssessmentDeleted, a);
      Chain(d, d1, d2);
      Chain(d, d2, Staged(d2, AssessmentDeleted, a));
    }
  }

  // --- Links -----------------------------------------------------------------------------------------

  lemma LinkControlKeeps(d: Db, i: Id, c: Id, coverage: CoverageStatus)
    requires Inv(d)
    ensures var e := ControlLinkedTo(d, i, c, coverage).db; Inv(e) && Evolves(d, e)
  {
    EvolvesIsReflexive(d);
    if ControlLinkedTo(d, i, c, coverage).error.None? {
      var e := d.(controlLinks := d.controlLinks[d.nextId := ControlLink(i, c, coverage)], nextId := d.nextId + 1);
      forall k, l | k in e.controlLinks && l in e.controlLinks ensures SameControl(e.controlLinks, k, l) ==> k == l {
        if k in d.controlLinks && l in d.controlLinks {
          assert SameControl(e.controlLinks, k, l) ==> SameControl(d.controlLinks, k, l);
        }
      }
      ItemTablesKeep(d, e);
      hide Evolves;
      StagingKeeps(e, ControlLinked, d.nextId);
      Chain(d, e, Staged(e, ControlLinked, d.nextId));
    }
  }

  lemma UnlinkControlKeeps(d: Db, l: Id)
    requires Inv(d)
    ensures var e := ControlUnlinkedFrom(d, l).db; Inv(e) && Evolves(d, e)
  {
    EvolvesIsReflexive(d);
    if l in d.controlLinks {
      var e := d.(controlLinks := d.controlLinks - {l});
      forall j, k | j in e.controlLinks && k in e.controlLinks ensures SameControl(e.controlLinks, j, k) ==> j == k {
        assert SameControl(e.controlLinks, j, k) ==> SameControl(d.controlLinks, j, k);
      }
      ItemTablesKeep(d, e);
      hide Evolves;
      StagingKeeps(e, ControlUnlinked, l);
      Chain(d, e, Staged(e, ControlUnlinked, l));
    }
  }

  lemma LinkEvidenceKeeps(d: Db, i: Id, x: Id)
    requires Inv(d)
    ensures var e := EvidenceLinkedTo(d, i, x).db; Inv(e) && Evolves(d, e)
  {
    EvolvesIsReflexive(d);
    if EvidenceLinkedTo(d, i, x).error.None? {
      var e := d.(evidenceLinks := d.evidenceLinks[d.nextId := EvidenceLink(i, x)], nextId := d.nextId + 1);
      forall l | l in e.evidenceLinks ensures EvidenceLinkOk(e.evidenceLinks[l], d.items) {
        if l in d.evidenceLinks { assert EvidenceLinkOk(d.evidenceLinks[l], d.items); }
      }
      forall k, l | k in e.evidenceLinks && l in e.evidenceLinks ensures SameEvidence(e.evidenceLinks, k, l) ==> k == l {
        if k in d.evidenceLinks && l in d.evidenceLinks {
          assert SameEvidence(e.evidenceLinks, k, l) ==> SameEvidence(d.evidenceLinks, k, l);
        }
      }
      ItemTablesKeep(d, e);
      hide Evolves;
      StagingKeeps(e, EvidenceLinked, d.nextId);
      Chain(d, e, Staged(e, EvidenceLinked, d.nextId));
    }
  }

  lemma UnlinkEvidenceKeeps(d: Db, l: Id)
    requires Inv(d)
    ensures Inv(EvidenceUnlinkedFrom(d, l)) && Evolves(d, EvidenceUnlinkedFrom(d, l))
  {
    EvolvesIsReflexive(d);
    if l in d.evidenceLinks {
      var e := d.(evidenceLinks := d.evidenceLinks - {l});
      forall k | k in e.evidenceLinks ensures EvidenceLinkOk(e.evidenceLinks[k], d.items) {
        assert EvidenceLinkOk(d.evidenceLinks[k], d.items);
      }
      forall j, k | j in e.evidenceLinks && k in e.evidenceLinks ensures SameEvidence(e.evidenceLinks, j, k) ==> j == k {
        assert SameEvidence(e.evidenceLinks, j, k) ==> SameEvidence(d.evidenceLinks, j, k);
      }
      ItemTablesKeep(d, e);
      hide Evolves;
      StagingKeeps(e, EvidenceUnlinked, l);
      Chain(d, e, Staged(e, EvidenceUnlinked, l));
    }
  }
}
