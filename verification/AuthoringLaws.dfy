/** What the authoring calls mean together: which of them undo one another, when an assessment can still be
    deleted, and what an item or a link contributes to the gates. */
module AuthoringLaws {
  import opened Vocabulary
  import opened Lifecycle
  import opened Store
  import opened Gates
  import opened Counting
  import opened Invariants
  import opened LifecycleService
  import opened ReviewService
  import opened AssessmentService
  import opened GateLaws

  /** Nothing differs but the audit trail and the identifiers handed out. */
  predicate SameTables(d: Db, e: Db) {
    e == d.(audit := e.audit, nextId := e.nextId)
  }

  lemma Unused(d: Db)
    requires Inv(d)
    ensures d.nextId !in d.assessments && d.nextId !in d.items && d.nextId !in d.controlLinks && d.nextId !in d.evidenceLinks
    ensures forall i | i in d.items :: d.items[i].assessment in d.assessments && i < d.nextId
    ensures forall l | l in d.controlLinks :: d.controlLinks[l].item in d.items
    ensures forall l | l in d.evidenceLinks :: d.evidenceLinks[l].item in d.items
  {
    forall i | i in d.items ensures d.items[i].assessment in d.assessments && i < d.nextId {
      assert ItemOk(d.items[i], i, d.assessments.Keys, d.audit);
    }
    forall l | l in d.evidenceLinks ensures d.evidenceLinks[l].item in d.items {
      assert EvidenceLinkOk(d.evidenceLinks[l], d.items);
    }
  }

  // --- Assessments ---------------------------------------------------------------------------------

  lemma NoneUnsubmitted(d: Db, a: Id)
    requires Inv(d) && a in d.assessments
    ensures d.assessments[a].submissionRound == 0 <==>
            && d.assessments[a].status.Draft?
            && (forall r | r in d.reviews :: r.assessment != a) && forall t | t in d.atos :: t.assessment != a
  {
    assert CycleOk(d.assessments[a], a, d.reviews, d.audit);
    SomeReview(d.reviews, a);
    if t :| t in d.atos && t.assessment == a { assert AtoOk(d.assessments, t); }
  }

  lemma {:induction false} SomeReview(reviews: seq<Review>, a: Id)
    ensures ReviewsOf(reviews, a) == 0 <==> forall r | r in reviews :: r.assessment != a
  {
    if |reviews| > 0 {
      assert reviews == reviews[..|reviews| - 1] + [reviews[|reviews| - 1]];
      SomeReview(reviews[..|reviews| - 1], a);
    }
  }

  /** An assessment can be deleted exactly as long as it was never submitted, nobody has worked on an item
      of it, none of its items is linked to anything, and it has no feeder. */
  lemma DeletableIff(d: Db, a: Id)
    requires Inv(d)
    ensures AssessmentDeletedFrom(d, a).error.None? <==>
            && a in d.assessments && d.assessments[a].submissionRound == 0
            && (forall i | i in d.items && d.items[i].assessment == a ::
                  && !Worked(d.items[i]) && !HasControlLink(d, i) && forall l | l in d.evidenceLinks :: d.evidenceLinks[l].item != i)
            && forall kind :: !FeederExists(d, a, kind)
  {
    Unused(d);
    if a in d.assessments { NoneUnsubmitted(d, a); }
    hide Inv;
    if f :| f in d.assessments && d.assessments[f].parent == Some(a) { assert FeederExists(d, a, d.assessments[f].kind); }
  }

  /** Reviews, ATOs and feeders name assessments that exist. */
  lemma UnknownToOthers(d: Db)
    requires Inv(d)
    ensures forall r | r in d.reviews :: r.assessment != d.nextId
    ensures forall t | t in d.atos :: t.assessment != d.nextId
    ensures forall f | f in d.assessments :: d.assessments[f].parent != Some(d.nextId)
  {
    Unused(d);
    forall r | r in d.reviews ensures r.assessment != d.nextId { assert ReviewOk(d.assessments, r); }
    forall t | t in d.atos ensures t.assessment != d.nextId { assert AtoOk(d.assessments, t); }
    forall f | f in d.assessments ensures d.assessments[f].parent != Some(d.nextId) {
      assert RowOk(d.assessments, d.useCases.Keys, d.assessments[f]);
    }
  }

  /** The tables after a creation. */
  lemma CreatedTables(d: Db, row: Assessment, sections: nat, facts: seq<string>, risks: seq<Id>, action: Action)
    requires Inv(d)
    ensures var a, e := d.nextId, WithAssessment(d, row, sections, facts, risks, action);
            && a !in d.assessments && e.assessments == d.assessments[a := row]
            && e == d.(assessments := e.assessments, items := e.items, audit := e.audit, nextId := e.nextId)
            && (forall i | i in d.items :: i in e.items && e.items[i] == d.items[i] && d.items[i].assessment != a)
            && (forall i | i in e.items && i !in d.items :: e.items[i].assessment == a && !Worked(e.items[i]))
            && ItemsOf(e.items, a) == e.items.Keys - d.items.Keys
  {
    var a := d.nextId;
    var rows := Prefill(a, row.kind, sections, facts, risks);
    Unused(d);
    InsertedRows(d.items, a + 1, rows);
    assert forall k | 0 <= k < |rows| :: rows[k].assessment == a && !Worked(rows[k]);
    hide Inv, Prefill, Inserted, Worked;
  }

  /** Deleting an assessment that was just created undoes the creation, whatever it was prefilled with. */
  lemma CreationIsUndone(d: Db, row: Assessment, sections: nat, facts: seq<string>, risks: seq<Id>, action: Action)
    requires Inv(d) && row.status.Draft? && row.parent != Some(d.nextId)
    ensures var e := WithAssessment(d, row, sections, facts, risks, action);
            var f := AssessmentDeletedFrom(e, d.nextId);
            f.error.None? && SameTables(d, f.db)
  {
    var a, e := d.nextId, WithAssessment(d, row, sections, facts, risks, action);
    CreatedTables(d, row, sections, facts, risks, action);
    Unused(d);
    UnknownToOthers(d);
    hide Inv, WithAssessment, ItemsOf, Worked;
    assert Pristine(e, a);
    assert e.items - ItemsOf(e.items, a) == d.items;
    assert e.assessments - {a} == d.assessments;
  }

  /** So a new AIIA or feeder can be deleted at once, and everything is as before. */
  lemma NewAiiaIsUndone(d: Db, u: Id, sections: nat, facts: seq<string>, risks: seq<Id>)
    requires Inv(d) && AiiaCreated(d, u, sections, facts, risks).error.None?
    ensures var f := AssessmentDeletedFrom(AiiaCreated(d, u, sections, facts, risks).db, d.nextId);
            f.error.None? && SameTables(d, f.db)
  {
    CreationIsUndone(d, NewAssessment(u, Aiia, None, d.useCases[u].euTier), sections, facts, risks, AssessmentCreated);
    hide Inv, WithAssessment, AssessmentDeletedFrom;
  }

  lemma NewFeederIsUndone(d: Db, p: Id, kind: AssessmentType, sections: nat, facts: seq<string>, risks: seq<Id>)
    requires Inv(d) && FeederAdded(d, p, kind, sections, facts, risks).error.None?
    ensures var f := AssessmentDeletedFrom(FeederAdded(d, p, kind, sections, facts, risks).db, d.nextId);
            f.error.None? && SameTables(d, f.db)
  {
    Unused(d);
    var parent := d.assessments[p];
    CreationIsUndone(d, NewAssessment(parent.useCase, kind, Some(p), parent.tierSnapshot), sections, facts, risks,
                     Action.FeederCreated);
    hide Inv, WithAssessment, AssessmentDeletedFrom;
  }

  // --- Items -----------------------------------------------------------------------------------------

  /** Deleting an item that was just created from a section undoes the creation. */
  lemma SectionItemIsUndone(d: Db, a: Id, known: bool, response: Option<string>)
    requires Inv(d) && ItemFromSection(d, a, known, response).error.None?
    ensures SameTables(d, ItemDeletedFrom(ItemFromSection(d, a, known, response).db, d.nextId).db)
  {
    Unused(d);
    var e, i := ItemFromSection(d, a, known, response).db, d.nextId;
    hide Inv;
    assert e.items - {i} == d.items;
    assert ControlLinksBut(d.controlLinks, {i}) == d.controlLinks && EvidenceLinksBut(d.evidenceLinks, {i}) == d.evidenceLinks;
  }

  /** Until then the assessment can be deleted exactly if it could before and the section was left
      unanswered; every other assessment as before. */
  lemma AnsweringBlocksDeletion(d: Db, a: Id, known: bool, response: Option<string>, b: Id)
    requires Inv(d) && ItemFromSection(d, a, known, response).error.None? && b in d.assessments
    ensures var e := ItemFromSection(d, a, known, response).db;
            Pristine(e, b) <==> Pristine(d, b) && (b == a ==> response.None?)
  {
    hide Inv;
    Unused(d);
    var e, i := ItemFromSection(d, a, known, response).db, d.nextId;
    hide AuthoringLocked;
    assert ItemsOf(e.items, b) == if b == a then ItemsOf(d.items, b) + {i} else ItemsOf(d.items, b);
    assert e.items[i].assessment == a && (Worked(e.items[i]) <==> response.Some?);
    assert forall j | j in d.items :: e.items[j] == d.items[j];
    hide ItemFromSection, Worked;
  }

  /** A deleted item takes all its links along and no others, and the treatment gate of a use case looks at
      the remaining risks alone: deleting can clear it and never close it. */
  lemma DeletedItemIsForgotten(d: Db, i: Id, u: Id)
    requires Inv(d) && i in d.items
    ensures var e := ItemDeletedFrom(d, i).db;
            && e.items.Keys == d.items.Keys - {i}
            && (forall l :: l in e.controlLinks <==> l in d.controlLinks && d.controlLinks[l].item != i)
            && (forall l :: l in e.evidenceLinks <==> l in d.evidenceLinks && d.evidenceLinks[l].item != i)
            && (FullyTreated(e, u) <==> forall j | j in d.items && j != i :: RiskItemOf(d, u, j) ==> Treated(d, j))
  {
    var e := ItemDeletedFrom(d, i).db;
    hide Inv;
    forall j | j in e.items ensures HasControlLink(e, j) == HasControlLink(d, j) && RiskItemOf(e, u, j) == RiskItemOf(d, u, j) {
      if l :| l in d.controlLinks && d.controlLinks[l].item == j { assert e.controlLinks[l].item == j; }
    }
    assert forall j | j in e.items :: e.items[j] == d.items[j];
  }

  // --- Links -----------------------------------------------------------------------------------------

  /** Removing a control link that was just made undoes it. Until then a second one to the same control is
      refused, the assessment cannot be deleted, and of all items the linked one alone may have become
      treated: if it is to be mitigated, it has. */
  lemma ControlLinkIsUndone(d: Db, i: Id, c: Id, coverage: CoverageStatus)
    requires Inv(d) && ControlLinkedTo(d, i, c, coverage).error.None?
    ensures var e := ControlLinkedTo(d, i, c, coverage).db;
            && SameTables(d, ControlUnlinkedFrom(e, d.nextId).db)
            && (forall again :: ControlLinkedTo(e, i, c, again) == Refuse(e, Conflict))
            && AssessmentDeletedFrom(e, d.items[i].assessment).error == Some(Conflict)
            && forall j | j in d.items ::
                 Treated(e, j) <==> Treated(d, j) || (j == i && d.items[i].treatment.decision == Some(Mitigate))
  {
    Unused(d);
    var e := ControlLinkedTo(d, i, c, coverage).db;
    hide Inv;
    assert e.controlLinks[d.nextId] == ControlLink(i, c, coverage);
    assert e.controlLinks - {d.nextId} == d.controlLinks;
    assert i in ItemsOf(d.items, d.items[i].assessment);
    forall j | j in d.items ensures HasControlLink(e, j) <==> HasControlLink(d, j) || j == i {
      if l :| l in d.controlLinks && d.controlLinks[l].item == j { assert e.controlLinks[l].item == j; }
    }
  }

  /** Removing an evidence link that was just made undoes it. Until then a second one is refused and the
      assessment cannot be deleted; and evidence moves no gate. */
  lemma EvidenceLinkIsUndone(d: Db, i: Id, x: Id, u: Id)
    requires Inv(d) && EvidenceLinkedTo(d, i, x).error.None? && u in d.useCases
    ensures var e := EvidenceLinkedTo(d, i, x).db;
            && SameTables(d, EvidenceUnlinkedFrom(e, d.nextId))
            && EvidenceLinkedTo(e, i, x) == Refuse(e, Conflict)
            && AssessmentDeletedFrom(e, d.items[i].assessment).error == Some(Conflict)
            && FullVector(e, u) == FullVector(d, u)
  {
    Unused(d);
    var e := EvidenceLinkedTo(d, i, x).db;
    hide Inv;
    assert e.evidenceLinks[d.nextId] == EvidenceLink(i, x);
    assert e.evidenceLinks - {d.nextId} == d.evidenceLinks;
    assert i in ItemsOf(d.items, d.items[i].assessment);
    MiddleGatesRead(d, e, u);
  }

  // --- When the calls go through ---------------------------------------------------------------------

  /** The AIIA of the use case is under review or approved. */
  predicate Closed(d: Db, u: Id) {
    exists a | a in d.assessments ::
      d.assessments[a].useCase == u && d.assessments[a].kind == Aiia && d.assessments[a].status in {InReview, Approved}
  }

  /** Authoring is locked in all assessments of a use case alike: exactly while its AIIA is under review or
      approved. A feeder's own status does not matter. */
  lemma LockIff(d: Db, a: Id)
    requires Inv(d) && a in d.assessments
    ensures AuthoringLocked(d.assessments, a) <==> Closed(d, d.assessments[a].useCase)
  {
    var row := d.assessments[a];
    assert RowOk(d.assessments, d.useCases.Keys, row);
    var aiia := if row.parent.Some? then row.parent.value else a;
    assert RowOk(d.assessments, d.useCases.Keys, d.assessments[aiia]);
    assert IsAiiaOf(d.assessments, row.useCase, aiia);
    forall b | b in d.assessments && d.assessments[b].useCase == row.useCase && d.assessments[b].kind == Aiia ensures b == aiia {
      assert RowOk(d.assessments, d.useCases.Keys, d.assessments[b]);
      assert IsAiiaOf(d.assessments, row.useCase, b);
    }
  }

  /** An AIIA is created exactly for a use case whose newest snapshot prohibits nothing, whose tier is ratified,
      that has none yet, and for whose tier there is a template. */
  lemma AiiaIsCreatedIff(d: Db, u: Id, sections: nat, facts: seq<string>, risks: seq<Id>)
    requires Inv(d)
    ensures var error := AiiaCreated(d, u, sections, facts, risks).error;
            if u !in d.useCases then error == Some(NotFound)
            else
              var cs, tier := d.useCases[u].classifications, d.useCases[u].euTier;
              var due := && cs != [] && cs[|cs| - 1].tier != Prohibited && Storable(tier)
                         && forall a | a in d.assessments :: d.assessments[a].useCase != u || d.assessments[a].kind != Aiia;
              && (error.None? <==> due && (Aiia, tier) in d.world.templates)
              && (error == Some(Internal) <==> due && (Aiia, tier) !in d.world.templates)
              && (error.Some? ==> error.value in {Internal, Conflict})
  {
    if u in d.useCases {
      assert SnapshotsOk(d.useCases[u].classifications);
      CurrentIsNewest(d.useCases[u].classifications);
      forall a | a in d.assessments ensures d.assessments[a].isCurrent {
        assert RowOk(d.assessments, d.useCases.Keys, d.assessments[a]);
      }
      hide Inv, WithAssessment;
    }
  }

  /** A feeder is created exactly for an AIIA, of another kind than AIIA, once per kind, where there is a
      template for the AIIA's tier. */
  lemma FeederIsCreatedIff(d: Db, p: Id, kind: AssessmentType, sections: nat, facts: seq<string>, risks: seq<Id>)
    ensures var error := FeederAdded(d, p, kind, sections, facts, risks).error;
            if kind == Aiia then error == Some(Unprocessable)
            else if p !in d.assessments then error == Some(NotFound)
            else if d.assessments[p].kind != Aiia then error == Some(Unprocessable)
            else if exists f | f in d.assessments :: d.assessments[f].parent == Some(p) && d.assessments[f].kind == kind
            then error == Some(Conflict)
            else error == if (kind, d.assessments[p].tierSnapshot) in d.world.templates then None else Some(Internal)
  {
  }

  /** The new items, under the identifiers after the assessment's: one unanswered per section, one answered per
      fact, one proposal per risk unless the kind takes none, in that order. */
  lemma CreatedItems(d: Db, row: Assessment, sections: nat, facts: seq<string>, risks: seq<Id>, action: Action, k: nat)
    requires k < sections + |facts| + (if row.kind in {Aiia, ModelRisk} then |risks| else 0)
    ensures var e, a, i := WithAssessment(d, row, sections, facts, risks, action).items, d.nextId, d.nextId + 1 + k;
            && i in e
            && e[i] == if k < sections then Item(a, None, None, CatalogueCurated, BLANK, UNTREATED, 0)
                       else if k < sections + |facts| then
                         Item(a, None, Some(facts[k - sections]), UserConfirmed,
                              BLANK.(response := Some(facts[k - sections])), UNTREATED, 0)
                       else Item(a, Some(risks[k - sections - |facts|]), None, AiSuggested, BLANK, UNTREATED, 0)
  {
    InsertedRows(d.items, d.nextId + 1, Prefill(d.nextId, row.kind, sections, facts, risks));
    PrefilledInOrder(d.nextId, row.kind, sections, facts, risks);
    hide Inserted, Prefill;
  }

  lemma PrefilledInOrder(a: Id, kind: AssessmentType, sections: nat, facts: seq<string>, risks: seq<Id>)
    ensures var rows, n, m := Prefill(a, kind, sections, facts, risks), sections, sections + |facts|;
            && |rows| == m + (if kind in {Aiia, ModelRisk} then |risks| else 0)
            && forall k | 0 <= k < |rows| ::
                 rows[k] == if k < n then Item(a, None, None, CatalogueCurated, BLANK, UNTREATED, 0)
                            else if k < m then Item(a, None, Some(facts[k - n]), UserConfirmed,
                                                    BLANK.(response := Some(facts[k - n])), UNTREATED, 0)
                            else Item(a, Some(risks[k - m]), None, AiSuggested, BLANK, UNTREATED, 0)
  {
  }

  /** Where a new AIIA and a new feeder get their use case and tier from. */
  lemma CreatedAssessment(d: Db, u: Id, p: Id, kind: AssessmentType, sections: nat, facts: seq<string>, risks: seq<Id>)
    ensures AiiaCreated(d, u, sections, facts, risks).error.None? ==>
              AiiaCreated(d, u, sections, facts, risks).db ==
              WithAssessment(d, Assessment(u, Aiia, None, d.useCases[u].euTier, true, Draft, 0, 0, None, None),
                             sections, facts, risks, AssessmentCreated)
    ensures FeederAdded(d, p, kind, sections, facts, risks).error.None? ==>
              FeederAdded(d, p, kind, sections, facts, risks).db ==
              WithAssessment(d, Assessment(d.assessments[p].useCase, kind, Some(p), d.assessments[p].tierSnapshot, true, Draft, 0, 0,
                                           None, None), sections, facts, risks, Action.FeederCreated)
  {
    hide WithAssessment;
  }

  // --- Patches -----------------------------------------------------------------------------------------

  /** A supplied value that is not the stored one. */
  predicate Differs<T(==)>(supplied: Option<T>, stored: Option<T>) {
    supplied.Some? && supplied != stored
  }

  predicate Treats(row: Item, t: Treatment) {
    Differs(t.decision, row.treatment.decision) || Differs(t.rationale, row.treatment.rationale)
  }

  predicate Authors(row: Item, c: Authoring) {
    || Differs(c.response, row.content.response) || Differs(c.likelihood, row.content.likelihood)
    || Differs(c.severity, row.content.severity) || Differs(c.residualLikelihood, row.content.residualLikelihood)
    || Differs(c.residualSeverity, row.content.residualSeverity) || Differs(c.mitigationPlan, row.content.mitigationPlan)
  }

  /** A patch that changes something is written exactly to a disposed item of an open use case at its version;
      one that changes nothing is accepted without a trace, whatever the version. */
  lemma PatchGoesThroughIff(d: Db, i: Id, content: Authoring, treatment: Treatment, version: nat)
    requires Inv(d)
    ensures var r := ItemAmendedBy(d, i, content, treatment, version);
            if i !in d.items || d.items[i].assessment !in d.assessments then r == Refuse(d, NotFound)
            else
              var row, u := d.items[i], d.assessments[d.items[i].assessment].useCase;
              if Closed(d, u) then r == Refuse(d, Conflict)
              else if !Authors(row, content) && !Treats(row, treatment) then r == Done(d)
              else
                && (r.error.None? <==> row.provenance != AiSuggested && row.lockVersion == version)
                && (r.error == Some(StaleIfMatch) <==> row.provenance != AiSuggested && row.lockVersion != version)
                && (r.error.Some? ==> r.error.value in {StaleIfMatch, Conflict})
  {
    if i in d.items && d.items[i].assessment in d.assessments {
      assert RowOk(d.assessments, d.useCases.Keys, d.assessments[d.items[i].assessment]);
      LockIff(d, d.items[i].assessment);
      hide Inv, Closed, AuthoringLocked, PatchWritten;
    }
  }

  predicate Takes<T(==)>(now: Option<T>, supplied: Option<T>, before: Option<T>) {
    if supplied.Some? then now == supplied else now == before
  }

  /** Every column takes the value supplied for it and keeps its own where none is; the version rises by one,
      and authoring turns a curated item into an amended one. */
  lemma PatchedColumns(row: Item, c: Authoring, t: Treatment)
    ensures var next := Amended(row, c, t);
            && Takes(next.content.response, c.response, row.content.response)
            && Takes(next.content.likelihood, c.likelihood, row.content.likelihood)
            && Takes(next.content.severity, c.severity, row.content.severity)
            && Takes(next.content.residualLikelihood, c.residualLikelihood, row.content.residualLikelihood)
            && Takes(next.content.residualSeverity, c.residualSeverity, row.content.residualSeverity)
            && Takes(next.content.mitigationPlan, c.mitigationPlan, row.content.mitigationPlan)
            && Takes(next.treatment.decision, t.decision, row.treatment.decision)
            && Takes(next.treatment.rationale, t.rationale, row.treatment.rationale)
            && next.provenance == (if row.provenance == CatalogueCurated && Authors(row, c) then UserAmended else row.provenance)
            && next == row.(content := next.content, treatment := next.treatment, provenance := next.provenance,
                            lockVersion := row.lockVersion + 1)
  {
  }

  /** What a written patch leaves: the item with its columns, one audit row that tells a treatment from
      authoring, and, after a treatment, the use case as far on as its gates let it. */
  lemma PatchWrites(d: Db, i: Id, content: Authoring, treatment: Treatment, u: Id)
    requires i in d.items && u in d.useCases
    ensures var e := PatchWritten(d, i, content, treatment, u);
            && e.items == d.items[i := Amended(d.items[i], content, treatment)]
            && e.audit == d.audit + [Audit(if Treats(d.items[i], treatment) then TreatmentSet else ItemAmended, i)]
            && e == d.(items := e.items, audit := e.audit, useCases := e.useCases)
            && (if Treats(d.items[i], treatment) then AutoAdvanced(e, u) == e else e.useCases == d.useCases)
  {
    AdvancedRests(d.(items := d.items[i := Amended(d.items[i], content, treatment)],
                     audit := d.audit + [Audit(if Treats(d.items[i], treatment) then TreatmentSet else ItemAmended, i)]), u);
    hide FullVector, Advanced, Amended;
  }

  // --- Confirmations, section items and links --------------------------------------------------------

  /** A proposal of an open use case is confirmed at its version, once; then the use case is as far on as its
      gates let it. */
  lemma ConfirmationGoesThroughIff(d: Db, i: Id, version: nat)
    requires Inv(d)
    ensures var r := ItemConfirmedBy(d, i, version);
            if i !in d.items || d.items[i].assessment !in d.assessments then r == Refuse(d, NotFound)
            else
              var row, u := d.items[i], d.assessments[d.items[i].assessment].useCase;
              && (r.error.None? <==> !Closed(d, u) && row.provenance == AiSuggested && row.lockVersion == version)
              && (r.error.Some? ==> r == Refuse(d, Conflict))
              && (r.error.None? ==>
                    && r.db.items == d.items[i := row.(provenance := UserConfirmed, lockVersion := version + 1)]
                    && u in r.db.useCases && AutoAdvanced(r.db, u) == r.db
                    && r.db == d.(items := r.db.items, useCases := r.db.useCases, audit := d.audit + [Audit(ItemConfirmed, i)]))
  {
    if i in d.items && d.items[i].assessment in d.assessments {
      assert RowOk(d.assessments, d.useCases.Keys, d.assessments[d.items[i].assessment]);
      LockIff(d, d.items[i].assessment);
      var u := d.assessments[d.items[i].assessment].useCase;
      AdvancedRests(Staged(d.(items := d.items[i := Confirmed(d.items[i])]), ItemConfirmed, i), u);
      hide Inv, Closed, AuthoringLocked, FullVector, Advanced;
    }
  }

  /** A section item is created in an open use case for a section of the template, and is curated or amended by
      whether it is answered at once. */
  lemma SectionItemIsCreatedIff(d: Db, a: Id, known: bool, response: Option<string>)
    requires Inv(d)
    ensures var r := ItemFromSection(d, a, known, response);
            if a !in d.assessments then r == Refuse(d, NotFound)
            else if Closed(d, d.assessments[a].useCase) then r == Refuse(d, Conflict)
            else if !known then r == Refuse(d, Unprocessable)
            else
              && r.error.None?
              && r.db.items == d.items[d.nextId := Item(a, None, None, if response.None? then CatalogueCurated else UserAmended,
                                                        Authoring(response, None, None, None, None, None), UNTREATED, 0)]
              && r.db == d.(items := r.db.items, nextId := d.nextId + 1, audit := d.audit + [Audit(ItemCreated, d.nextId)])
  {
    if a in d.assessments { LockIff(d, a); }
  }

  /** A control is linked to an item of an open use case if it is in the library and not linked yet, with the
      coverage claimed. */
  lemma ControlIsLinkedIff(d: Db, i: Id, c: Id, coverage: CoverageStatus)
    requires Inv(d)
    ensures var r := ControlLinkedTo(d, i, c, coverage);
            if i !in d.items || d.items[i].assessment !in d.assessments then r == Refuse(d, NotFound)
            else if Closed(d, d.assessments[d.items[i].assessment].useCase) then r == Refuse(d, Conflict)
            else if c !in d.world.controls then r == Refuse(d, Unprocessable)
            else
              && (r.error.None? <==> forall l | l in d.controlLinks :: d.controlLinks[l].item != i || d.controlLinks[l].control != c)
              && (r.error.Some? ==> r == Refuse(d, Conflict))
              && (r.error.None? ==>
                    && r.db.controlLinks.Keys == d.controlLinks.Keys + {d.nextId}
                    && (forall l | l in d.controlLinks :: r.db.controlLinks[l] == d.controlLinks[l])
                    && r.db.controlLinks[d.nextId].item == i && r.db.controlLinks[d.nextId].control == c
                    && r.db.controlLinks[d.nextId].coverage == coverage)
  {
    if i in d.items && d.items[i].assessment in d.assessments {
      LockIff(d, d.items[i].assessment);
      Unused(d);
    }
  }

  /** Evidence is attached to a disposed item of an open use case if it exists and is not attached yet. */
  lemma EvidenceIsLinkedIff(d: Db, i: Id, x: Id)
    requires Inv(d)
    ensures var r := EvidenceLinkedTo(d, i, x);
            if i !in d.items || d.items[i].assessment !in d.assessments then r == Refuse(d, NotFound)
            else
              var open := !Closed(d, d.assessments[d.items[i].assessment].useCase) && d.items[i].provenance != AiSuggested;
              && (r.error.None? <==> open && x in d.world.evidence && EvidenceLink(i, x) !in d.evidenceLinks.Values)
              && (r.error == Some(NotFound) <==> open && x !in d.world.evidence)
              && (r.error.Some? ==> r.error.value in {NotFound, Conflict})
              && (r.error.None? ==> r.db.evidenceLinks == d.evidenceLinks[d.nextId := EvidenceLink(i, x)])
  {
    if i in d.items && d.items[i].assessment in d.assessments {
      LockIff(d, d.items[i].assessment);
    }
  }
}
