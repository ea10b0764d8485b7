/** Assessments, feeders, items and links (app/services/assessment_service.py). */
module AssessmentService {
  import opened Vocabulary
  import opened Lifecycle
  import opened Store
  import opened Gates
  import opened LifecycleService
  import opened ReviewService

  // --- Rows created ahead of any authoring ------------------------------------------------

  /** A required section: blank, to be answered by a human. */
  function SectionItem(a: Id): Item {
    Item(a, None, None, CatalogueCurated, BLANK, UNTREATED, 0)
  }

  /** A register fact frozen at creation; its source reference tells it from a worked item. */
  function FactItem(a: Id, fact: string): Item {
    Item(a, None, Some(fact), UserConfirmed, BLANK.(response := Some(fact)), UNTREATED, 0)
  }

  /** A proposed risk: identity only. */
  function ProposalItem(a: Id, risk: Id): Item {
    Item(a, Some(risk), None, AiSuggested, BLANK, UNTREATED, 0)
  }

  /** Rights and data-subject risks are human-identified: FRIA and DPIA get no proposals. */
  function Proposals(kind: AssessmentType, risks: seq<Id>): seq<Id> {
    if kind.Fria? || kind.Dpia? then [] else risks
  }

  function SectionItems(a: Id, sections: nat): seq<Item> {
    seq(sections, _ => SectionItem(a))
  }

  function FactItems(a: Id, facts: seq<string>): seq<Item> {
    seq(|facts|, k requires 0 <= k < |facts| => FactItem(a, facts[k]))
  }

  function ProposalItems(a: Id, risks: seq<Id>): seq<Item> {
    seq(|risks|, k requires 0 <= k < |risks| => ProposalItem(a, risks[k]))
  }

  function Prefill(a: Id, kind: AssessmentType, sections: nat, facts: seq<string>, risks: seq<Id>): seq<Item> {
    SectionItems(a, sections) + FactItems(a, facts) + ProposalItems(a, Proposals(kind, risks))
  }

  /** The `rows` inserted under consecutive fresh identifiers. */
  function Inserted(items: map<Id, Item>, first: Id, rows: seq<Item>): map<Id, Item> {
    if |rows| == 0 then items
    else Inserted(items, first, rows[..|rows| - 1])[first + |rows| - 1 := rows[|rows| - 1]]
  }

  /** What is inserted: the rows, in order, and nothing else changes. */
  lemma {:induction false} InsertedRows(items: map<Id, Item>, first: Id, rows: seq<Item>)
    ensures var r := Inserted(items, first, rows);
            && (forall k :: k in r <==> k in items || first <= k < first + |rows|)
            && (forall k | k in r :: r[k] == if first <= k < first + |rows| then rows[k - first] else items[k])
  {
    if |rows| > 0 { InsertedRows(items, first, rows[..|rows| - 1]); }
  }

  function NewAssessment(u: Id, kind: AssessmentType, parent: Option<Id>, tier: Tier): Assessment {
    Assessment(u, kind, parent, tier, true, Draft, 0, 0, None, None)
  }

  // --- What the calls leave behind --------------------------------------------------------

  /** A new assessment with its prefilled items. */
  function WithAssessment(d: Db, row: Assessment, sections: nat, facts: seq<string>, risks: seq<Id>, action: Action): Db {
    var a := d.nextId;
    var rows := Prefill(a, row.kind, sections, facts, risks);
    d.(assessments := d.assessments[a := row], items := Inserted(d.items, a + 1, rows),
       audit := d.audit + [Audit(action, a)], nextId := a + 1 + |rows|)
  }

  predicate HasCurrentAiia(assessments: map<Id, Assessment>, u: Id) {
    exists a | a in assessments :: assessments[a].useCase == u && assessments[a].kind.Aiia? && assessments[a].isCurrent
  }

  function AiiaCreated(d: Db, u: Id, sections: nat, facts: seq<string>, risks: seq<Id>): Reply {
    if u !in d.useCases then Refuse(d, NotFound)
    else if !ClassificationReadiness(d, u).verdict.Advances? then Refuse(d, Conflict)
    else if HasCurrentAiia(d.assessments, u) then Refuse(d, Conflict)
    else if (Aiia, d.useCases[u].euTier) !in d.world.templates then Refuse(d, Internal)
    else Done(WithAssessment(d, NewAssessment(u, Aiia, None, d.useCases[u].euTier), sections, facts, risks, AssessmentCreated))
  }

  function FeederAdded(d: Db, p: Id, kind: AssessmentType, sections: nat, facts: seq<string>, risks: seq<Id>): Reply {
    if kind.Aiia? then Refuse(d, Unprocessable)
    else if p !in d.assessments then Refuse(d, NotFound)
    else if !d.assessments[p].kind.Aiia? then Refuse(d, Unprocessable)
    else if FeederExists(d, p, kind) then Refuse(d, Conflict)
    else if (kind, d.assessments[p].tierSnapshot) !in d.world.templates then Refuse(d, Internal)
    else
      var parent := d.assessments[p];
      Done(WithAssessment(d, NewAssessment(parent.useCase, kind, Some(p), parent.tierSnapshot), sections, facts, risks, FeederCreated))
  }

  /** The lock of an item reaches the AIIA its assessment surfaces into. */
  predicate AuthoringLocked(assessments: map<Id, Assessment>, a: Id)
    requires a in assessments
  {
    var aiia := if assessments[a].parent.Some? && assessments[a].parent.value in assessments
                then assessments[assessments[a].parent.value] else assessments[a];
    aiia.status.InReview? || aiia.status.Approved?
  }

  /** The item exists, and so does its assessment. */
  predicate Loaded(d: Db, i: Id) {
    i in d.items && d.items[i].assessment in d.assessments
  }

  function ItemUseCase(d: Db, i: Id): Id
    requires Loaded(d, i)
  {
    d.assessments[d.items[i].assessment].useCase
  }

  function ItemFromSection(d: Db, a: Id, known: bool, response: Option<string>): Reply {
    if a !in d.assessments then Refuse(d, NotFound)
    else if AuthoringLocked(d.assessments, a) then Refuse(d, Conflict)
    else if !known then Refuse(d, Unprocessable)
    else
      var provenance := if response.Some? then UserAmended else CatalogueCurated;
      var row := Item(a, None, None, provenance, BLANK.(response := response), UNTREATED, 0);
      Done(d.(items := d.items[d.nextId := row], audit := d.audit + [Audit(ItemCreated, d.nextId)], nextId := d.nextId + 1))
  }

  function Supplied<T>(patch: Option<T>, was: Option<T>): Option<T> {
    if patch.Some? then patch else was
  }

  function Merged(was: Authoring, patch: Authoring): Authoring {
    Authoring(Supplied(patch.response, was.response), Supplied(patch.likelihood, was.likelihood),
              Supplied(patch.severity, was.severity),
              Supplied(patch.residualLikelihood, was.residualLikelihood), Supplied(patch.residualSeverity, was.residualSeverity),
              Supplied(patch.mitigationPlan, was.mitigationPlan))
  }

  function MergedTreatment(was: Treatment, patch: Treatment): Treatment {
    Treatment(Supplied(patch.decision, was.decision), Supplied(patch.rationale, was.rationale))
  }

  /** The row after a patch: authoring a curated item makes it amended, treating it does not. */
  function Amended(row: Item, content: Authoring, treatment: Treatment): Item {
    var next := Merged(row.content, content);
    row.(content := next, treatment := MergedTreatment(row.treatment, treatment), lockVersion := row.lockVersion + 1,
         provenance := if next != row.content && row.provenance.CatalogueCurated? then UserAmended else row.provenance)
  }

  predicate ChangesNothing(row: Item, content: Authoring, treatment: Treatment) {
    Merged(row.content, content) == row.content && MergedTreatment(row.treatment, treatment) == row.treatment
  }

  /** The write of a patch: the row, its audit row and, if the treatment changed, the engine. */
  ghost function PatchWritten(d: Db, i: Id, content: Authoring, treatment: Treatment, u: Id): Db
    requires i in d.items && u in d.useCases
  {
    var row := d.items[i];
    var treated := MergedTreatment(row.treatment, treatment) != row.treatment;
    var e := Staged(d.(items := d.items[i := Amended(row, content, treatment)]), if treated then TreatmentSet else ItemAmended, i);
    if treated then AutoAdvanced(e, u) else e
  }

  ghost function ItemAmendedBy(d: Db, i: Id, content: Authoring, treatment: Treatment, expected: nat): Reply {
    if !Loaded(d, i) || ItemUseCase(d, i) !in d.useCases then Refuse(d, NotFound)
    else if AuthoringLocked(d.assessments, d.items[i].assessment) then Refuse(d, Conflict)
    else if ChangesNothing(d.items[i], content, treatment) then Done(d)
    else if d.items[i].provenance.AiSuggested? then Refuse(d, Conflict)
    else if d.items[i].lockVersion != expected then Refuse(d, StaleIfMatch)
    else Done(PatchWritten(d, i, content, treatment, ItemUseCase(d, i)))
  }

  function Confirmed(row: Item): Item {
    row.(provenance := UserConfirmed, lockVersion := row.lockVersion + 1)
  }

  ghost function ConfirmWritten(d: Db, i: Id, u: Id): Db
    requires i in d.items && u in d.useCases
  {
    AutoAdvanced(Staged(d.(items := d.items[i := Confirmed(d.items[i])]), ItemConfirmed, i), u)
  }

  ghost function ItemConfirmedBy(d: Db, i: Id, expected: nat): Reply {
    if !Loaded(d, i) || ItemUseCase(d, i) !in d.useCases then Refuse(d, NotFound)
    else if AuthoringLocked(d.assessments, d.items[i].assessment) then Refuse(d, Conflict)
    else if !d.items[i].provenance.AiSuggested? || d.items[i].lockVersion != expected then Refuse(d, Conflict)
    else Done(ConfirmWritten(d, i, ItemUseCase(d, i)))
  }

  /** Deleting an item cascades to its links; no status lock applies. */
  function ItemDeletedFrom(d: Db, i: Id): Reply {
    if i !in d.items then Refuse(d, NotFound)
    else Done(Staged(d.(items := d.items - {i}, controlLinks := ControlLinksBut(d.controlLinks, {i}),
                        evidenceLinks := EvidenceLinksBut(d.evidenceLinks, {i})), ItemDeleted, i))
  }

  function ControlLinksBut(links: map<Id, ControlLink>, items: set<Id>): map<Id, ControlLink> {
    map l | l in links && links[l].item !in items :: links[l]
  }

  function EvidenceLinksBut(links: map<Id, EvidenceLink>, items: set<Id>): map<Id, EvidenceLink> {
    map l | l in links && links[l].item !in items :: links[l]
  }

  function ItemsOf(items: map<Id, Item>, a: Id): set<Id> {
    set i | i in items && items[i].assessment == a
  }

  // --- Deleting an assessment -------------------------------------------------------------

  /** A human acted on the item; a snapshotted register fact carries a source reference. */
  predicate Worked(row: Item) {
    Dispositioned(row.provenance) && row.sourceRef.None?
  }

  /** Never in review, never reviewed, never authorised, no worked or linked item, no feeder. */
  predicate Pristine(d: Db, a: Id)
    requires a in d.assessments
  {
    && d.assessments[a].status.Draft?
    && (forall r | r in d.reviews :: r.assessment != a)
    && (forall t | t in d.atos :: t.assessment != a)
    && (forall i | i in d.items :: d.items[i].assessment == a ==> !Worked(d.items[i]))
    && (forall l | l in d.controlLinks :: d.controlLinks[l].item !in ItemsOf(d.items, a))
    && (forall l | l in d.evidenceLinks :: d.evidenceLinks[l].item !in ItemsOf(d.items, a))
    && (forall f | f in d.assessments :: d.assessments[f].parent != Some(a))
  }

  function AssessmentDeletedFrom(d: Db, a: Id): Reply {
    if a !in d.assessments then Refuse(d, NotFound)
    else if !Pristine(d, a) then Refuse(d, Conflict)
    else Done(Staged(d.(assessments := d.assessments - {a}, items := d.items - ItemsOf(d.items, a)), AssessmentDeleted, a))
  }

  // --- Links ------------------------------------------------------------------------------

  function ControlLinkedTo(d: Db, i: Id, c: Id, coverage: CoverageStatus): Reply {
    if !Loaded(d, i) then Refuse(d, NotFound)
    else if AuthoringLocked(d.assessments, d.items[i].assessment) then Refuse(d, Conflict)
    else if c !in d.world.controls then Refuse(d, Unprocessable)
    else if exists l | l in d.controlLinks :: d.controlLinks[l].item == i && d.controlLinks[l].control == c then Refuse(d, Conflict)
    else Done(d.(controlLinks := d.controlLinks[d.nextId := ControlLink(i, c, coverage)],
                 audit := d.audit + [Audit(ControlLinked, d.nextId)], nextId := d.nextId + 1))
  }

  /** Unlinking a control is not status-locked. */
  function ControlUnlinkedFrom(d: Db, l: Id): Reply {
    if l !in d.controlLinks then Refuse(d, NotFound)
    else Done(Staged(d.(controlLinks := d.controlLinks - {l}), ControlUnlinked, l))
  }

  function EvidenceLinkedTo(d: Db, i: Id, e: Id): Reply {
    if !Loaded(d, i) then Refuse(d, NotFound)
    else if AuthoringLocked(d.assessments, d.items[i].assessment) then Refuse(d, Conflict)
    else if d.items[i].provenance.AiSuggested? then Refuse(d, Conflict)
    else if e !in d.world.evidence then Refuse(d, NotFound)
    else if exists l | l in d.evidenceLinks :: d.evidenceLinks[l] == EvidenceLink(i, e) then Refuse(d, Conflict)
    else Done(d.(evidenceLinks := d.evidenceLinks[d.nextId := EvidenceLink(i, e)],
                 audit := d.audit + [Audit(EvidenceLinked, d.nextId)], nextId := d.nextId + 1))
  }

  /** Removing an evidence link by its identifier; the request names it by item and evidence. */
  function EvidenceUnlinkedFrom(d: Db, l: Id): Db {
    if l !in d.evidenceLinks then d
    else Staged(d.(evidenceLinks := d.evidenceLinks - {l}), EvidenceUnlinked, l)
  }

  // --- The calls: creation ----------------------------------------------------------------

  /** One row added under a fresh identifier. */
  method AddItem(s: Session, row: Item)
    modifies s`items, s`nextId
    ensures s.items == old(s.items)[old(s.nextId) := row] && s.nextId == old(s.nextId) + 1
  {
    s.items := s.items[s.nextId := row];
    s.nextId := s.nextId + 1;
  }

  /** Rows added one by one: the sections, the facts or the proposals of a new assessment. */
  method AddItems(s: Session, rows: seq<Item>)
    modifies s`items, s`nextId
    ensures s.items == Inserted(old(s.items), old(s.nextId), rows) && s.nextId == old(s.nextId) + |rows|
  {
    for k := 0 to |rows|
      invariant s.items == Inserted(old(s.items), old(s.nextId), rows[..k]) && s.nextId == old(s.nextId) + k
    {
      assert rows[..k + 1][..k] == rows[..k];
      AddItem(s, rows[k]);
    }
    assert rows[..|rows|] == rows;
  }

  method PrefillItems(s: Session, a: Id, kind: AssessmentType, sections: nat, facts: seq<string>, risks: seq<Id>)
    modifies s`items, s`nextId
    ensures s.items == Inserted(old(s.items), old(s.nextId), Prefill(a, kind, sections, facts, risks))
    ensures s.nextId == old(s.nextId) + |Prefill(a, kind, sections, facts, risks)|
  {
    ghost var items, first := s.items, s.nextId;
    var blank, known, proposed := SectionItems(a, sections), FactItems(a, facts), ProposalItems(a, Proposals(kind, risks));
    AddItems(s, blank);
    AddItems(s, known);
    AddItems(s, proposed);
    InsertedTwice(items, first, blank, known);
    InsertedTwice(items, first, blank + known, proposed);
  }

  lemma {:induction false} InsertedTwice(items: map<Id, Item>, first: Id, p: seq<Item>, q: seq<Item>)
    ensures Inserted(Inserted(items, first, p), first + |p|, q) == Inserted(items, first, p + q)
  {
    if |q| == 0 {
      assert p + q == p;
    } else {
      InsertedTwice(items, first, p, q[..|q| - 1]);
      assert (p + q)[..|p + q| - 1] == p + q[..|q| - 1];
    }
  }

  method CreateAiia(s: Session, u: Id, sections: nat, facts: seq<string>, risks: seq<Id>) returns (error: Option<Error>)
    modifies s
    ensures s.Tables() == AiiaCreated(old(s.Tables()), u, sections, facts, risks).db
    ensures error == AiiaCreated(old(s.Tables()), u, sections, facts, risks).error
  {
    if u !in s.useCases {
      return Some(NotFound);
    }
    var gate := ClassificationReadiness(s.Tables(), u);
    if gate.verdict.Halts? || gate.verdict.Parks? {
      return Some(Conflict);
    }
    if HasCurrentAiia(s.assessments, u) {
      return Some(Conflict);
    }
    var tier := s.useCases[u].euTier;
    if (Aiia, tier) !in s.world.templates {
      return Some(Internal);
    }
    AddAssessment(s, NewAssessment(u, Aiia, None, tier), sections, facts, risks, AssessmentCreated);
    error := None;
  }

  method AddAssessment(s: Session, row: Assessment, sections: nat, facts: seq<string>, risks: seq<Id>, action: Action)
    modifies s
    ensures s.Tables() == WithAssessment(old(s.Tables()), row, sections, facts, risks, action)
  {
    var a := s.nextId;
    s.nextId := s.nextId + 1;
    s.assessments := s.assessments[a := row];
    PrefillItems(s, a, row.kind, sections, facts, risks);
    s.audit := s.audit + [Audit(action, a)];
  }

  method CreateFeeder(s: Session, p: Id, kind: AssessmentType, sections: nat, facts: seq<string>, risks: seq<Id>)
    returns (error: Option<Error>)
    modifies s
    ensures s.Tables() == FeederAdded(old(s.Tables()), p, kind, sections, facts, risks).db
    ensures error == FeederAdded(old(s.Tables()), p, kind, sections, facts, risks).error
  {
    if kind.Aiia? {
      return Some(Unprocessable);
    }
    if p !in s.assessments {
      return Some(NotFound);
    }
    var parent := s.assessments[p];
    if !parent.kind.Aiia? {
      return Some(Unprocessable);
    }
    if FeederExists(s.Tables(), p, kind) {
      return Some(Conflict);
    }
    if (kind, parent.tierSnapshot) !in s.world.templates {
      return Some(Internal);
    }
    AddAssessment(s, NewAssessment(parent.useCase, kind, Some(p), parent.tierSnapshot), sections, facts, risks,
                  Action.FeederCreated);
    error := None;
  }

  method CreateItemFromSection(s: Session, a: Id, known: bool, response: Option<string>) returns (error: Option<Error>)
    modifies s
    ensures s.Tables() == ItemFromSection(old(s.Tables()), a, known, response).db
    ensures error == ItemFromSection(old(s.Tables()), a, known, response).error
  {
    if a !in s.assessments {
      return Some(NotFound);
    }
    if AuthoringLocked(s.assessments, a) {
      return Some(Conflict);
    }
    if !known {
      return Some(Unprocessable);
    }
    var i := s.nextId;
    AddItem(s, Item(a, None, None, if response.Some? then UserAmended else CatalogueCurated,
                    BLANK.(response := response), UNTREATED, 0));
    s.audit := s.audit + [Audit(ItemCreated, i)];
    error := None;
  }

  // --- The calls: item mutation -------------------------------------------------------------

  /** The conditional update of an item row, keyed on its lock version. */
  method UpdateItem(s: Session, i: Id, expected: nat, row: Item) returns (updated: bool)
    requires i in s.items
    modifies s`items
    ensures updated <==> old(s.items[i]).lockVersion == expected
    ensures s.items == if updated then old(s.items)[i := row] else old(s.items)
  {
    updated := s.items[i].lockVersion == expected;
    if updated {
      s.items := s.items[i := row];
    }
  }

  /** The column values a patch writes: authoring a curated item makes it amended. */
  method PatchedRow(row: Item, content: Authoring, treatment: Treatment) returns (next: Item)
    ensures next == Amended(row, content, treatment)
  {
    next := row.(content := Merged(row.content, content), treatment := MergedTreatment(row.treatment, treatment),
                 lockVersion := row.lockVersion + 1);
    if next.content != row.content && row.provenance.CatalogueCurated? {
      next := next.(provenance := UserAmended);
    }
  }

  method AmendItem(s: Session, i: Id, content: Authoring, treatment: Treatment, expected: nat) returns (error: Option<Error>)
    requires OneAiia(s.assessments)
    modifies s
    ensures s.Tables() == ItemAmendedBy(old(s.Tables()), i, content, treatment, expected).db
    ensures error == ItemAmendedBy(old(s.Tables()), i, content, treatment, expected).error
  {
    if !Loaded(s.Tables(), i) || ItemUseCase(s.Tables(), i) !in s.useCases {
      return Some(NotFound);
    }
    var row := s.items[i];
    if AuthoringLocked(s.assessments, row.assessment) {
      return Some(Conflict);
    }
    var authored := Merged(row.content, content) != row.content;
    var treated := MergedTreatment(row.treatment, treatment) != row.treatment;
    if !authored && !treated {
      return None;
    }
    if row.provenance.AiSuggested? {
      return Some(Conflict);
    }
    var next := PatchedRow(row, content, treatment);
    var updated := UpdateItem(s, i, expected, next);
    if !updated {
      return Some(StaleIfMatch);
    }
    s.audit := s.audit + [Audit(if treated then TreatmentSet else ItemAmended, i)];
    if treated {
      AdvanceUseCase(s, s.assessments[row.assessment].useCase);
    }
    error := None;
  }

  method ConfirmItem(s: Session, i: Id, expected: nat) returns (error: Option<Error>)
    requires OneAiia(s.assessments)
    modifies s
    ensures s.Tables() == ItemConfirmedBy(old(s.Tables()), i, expected).db
    ensures error == ItemConfirmedBy(old(s.Tables()), i, expected).error
  {
    if !Loaded(s.Tables(), i) || ItemUseCase(s.Tables(), i) !in s.useCases {
      return Some(NotFound);
    }
    var row := s.items[i];
    if AuthoringLocked(s.assessments, row.assessment) {
      return Some(Conflict);
    }
    if !row.provenance.AiSuggested? {
      return Some(Conflict);
    }
    var updated := UpdateItem(s, i, expected, row.(provenance := UserConfirmed, lockVersion := row.lockVersion + 1));
    if !updated {
      return Some(Conflict);
    }
    s.audit := s.audit + [Audit(ItemConfirmed, i)];
    AdvanceUseCase(s, s.assessments[row.assessment].useCase);
    error := None;
  }

  method DeleteItem(s: Session, i: Id) returns (error: Option<Error>)
    modifies s
    ensures s.Tables() == ItemDeletedFrom(old(s.Tables()), i).db
    ensures error == ItemDeletedFrom(old(s.Tables()), i).error
  {
    if i !in s.items {
      return Some(NotFound);
    }
    s.items := s.items - {i};
    s.controlLinks := ControlLinksBut(s.controlLinks, {i});
    s.evidenceLinks := EvidenceLinksBut(s.evidenceLinks, {i});
    s.audit := s.audit + [Audit(ItemDeleted, i)];
    error := None;
  }

  method DeleteAssessment(s: Session, a: Id) returns (error: Option<Error>)
    modifies s
    ensures s.Tables() == AssessmentDeletedFrom(old(s.Tables()), a).db
    ensures error == AssessmentDeletedFrom(old(s.Tables()), a).error
  {
    if a !in s.assessments {
      return Some(NotFound);
    }
    if !Pristine(s.Tables(), a) {
      return Some(Conflict);
    }
    s.assessments := s.assessments - {a};
    s.items := s.items - ItemsOf(s.items, a);
    s.audit := s.audit + [Audit(AssessmentDeleted, a)];
    error := None;
  }

  // --- The calls: links -----------------------------------------------------------------------

  method CreateControlLink(s: Session, i: Id, c: Id, coverage: CoverageStatus) returns (error: Option<Error>)
    modifies s
    ensures s.Tables() == ControlLinkedTo(old(s.Tables()), i, c, coverage).db
    ensures error == ControlLinkedTo(old(s.Tables()), i, c, coverage).error
  {
    if !Loaded(s.Tables(), i) {
      return Some(NotFound);
    }
    if AuthoringLocked(s.assessments, s.items[i].assessment) {
      return Some(Conflict);
    }
    if c !in s.world.controls {
      return Some(Unprocessable);
    }
    if exists l | l in s.controlLinks :: s.controlLinks[l].item == i && s.controlLinks[l].control == c {
      return Some(Conflict);
    }
    s.controlLinks := s.controlLinks[s.nextId := ControlLink(i, c, coverage)];
    s.audit := s.audit + [Audit(ControlLinked, s.nextId)];
    s.nextId := s.nextId + 1;
    error := None;
  }

  method DeleteControlLink(s: Session, l: Id) returns (error: Option<Error>)
    modifies s
    ensures s.Tables() == ControlUnlinkedFrom(old(s.Tables()), l).db
    ensures error == ControlUnlinkedFrom(old(s.Tables()), l).error
  {
    if l !in s.controlLinks {
      return Some(NotFound);
    }
    s.controlLinks := s.controlLinks - {l};
    s.audit := s.audit + [Audit(ControlUnlinked, l)];
    error := None;
  }

  method CreateEvidenceLink(s: Session, i: Id, e: Id) returns (error: Option<Error>)
    modifies s
    ensures s.Tables() == EvidenceLinkedTo(old(s.Tables()), i, e).db
    ensures error == EvidenceLinkedTo(old(s.Tables()), i, e).error
  {
    if !Loaded(s.Tables(), i) {
      return Some(NotFound);
    }
    if AuthoringLocked(s.assessments, s.items[i].assessment) || s.items[i].provenance.AiSuggested? {
      return Some(Conflict);
    }
    if e !in s.world.evidence {
      return Some(NotFound);
    }
    if exists l | l in s.evidenceLinks :: s.evidenceLinks[l] == EvidenceLink(i, e) {
      return Some(Conflict);
    }
    s.evidenceLinks := s.evidenceLinks[s.nextId := EvidenceLink(i, e)];
    s.audit := s.audit + [Audit(EvidenceLinked, s.nextId)];
    s.nextId := s.nextId + 1;
    error := None;
  }

  /** Removing an evidence link that is not there does nothing and records nothing. */
  method DeleteEvidenceLink(s: Session, i: Id, e: Id)
    requires forall k, l | k in s.evidenceLinks && l in s.evidenceLinks :: s.evidenceLinks[k] == s.evidenceLinks[l] ==> k == l
    modifies s
    ensures (forall l | l in old(s.evidenceLinks) :: old(s.evidenceLinks)[l] != EvidenceLink(i, e)) ==> s.Tables() == old(s.Tables())
    ensures forall l | l in old(s.evidenceLinks) && old(s.evidenceLinks)[l] == EvidenceLink(i, e) ::
              s.Tables() == EvidenceUnlinkedFrom(old(s.Tables()), l)
  {
    if exists l | l in s.evidenceLinks :: s.evidenceLinks[l] == EvidenceLink(i, e) {
      var l :| l in s.evidenceLinks && s.evidenceLinks[l] == EvidenceLink(i, e);
      s.evidenceLinks := s.evidenceLinks - {l};
      s.audit := s.audit + [Audit(EvidenceUnlinked, l)];
    }
  }
}
