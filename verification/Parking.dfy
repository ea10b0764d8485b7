/** Which calls make a use case under review unready, exactly. The documentation has it that a
    reviewer never reviews an untreated assessment; these are the ways round it. */
module Parking {
  import opened Vocabulary
  import opened Lifecycle
  import opened Store
  import opened Gates
  import opened Invariants
  import opened ClassificationService
  import opened ReviewService
  import opened AssessmentService
  import opened AssessmentSafety
  import opened Runs
  import opened Readiness

  // --- Control links and feeders -------------------------------------------------------------------

  /** The link is the last one of a dispositioned risk to be mitigated that has no written plan. */
  predicate IsLastSupport(d: Db, u: Id, l: Id)
    requires l in d.controlLinks
  {
    var i := d.controlLinks[l].item;
    && RiskItemOf(d, u, i) && d.items[i].treatment.decision == Some(Mitigate)
    && !NonBlank(d.items[i].content.mitigationPlan)
    && forall k | k in d.controlLinks && k != l :: d.controlLinks[k].item != i
  }

  /** Removing a control link parks the treatment exactly when the link was the last support. */
  lemma UnlinkingParksIff(d: Db, u: Id, l: Id)
    requires Inv(d) && Ready(d, u) && l in d.controlLinks
    ensures !Ready(ControlUnlinkedFrom(d, l).db, u) <==> IsLastSupport(d, u, l)
  {
    var e, i := ControlUnlinkedFrom(d, l).db, d.controlLinks[l].item;
    FreshRows(d);
    var a := AiiaOf(d.assessments, u).value;
    forall j | ItemOf(e, u, j) ensures ItemOf(d, u, j) { }
    StructureSurvives(d, e, u, a);
    forall j | j in d.items
      ensures HasControlLink(e, j) <==>
              (HasControlLink(d, j) && (j == i ==> exists k | k in d.controlLinks && k != l :: d.controlLinks[k].item == i))
      ensures RiskItemOf(e, u, j) <==> RiskItemOf(d, u, j)
    {
      if k :| k in d.controlLinks && k != l && d.controlLinks[k].item == j { assert e.controlLinks[k].item == j; }
    }
    assert forall j | j in d.items :: RiskItemOf(d, u, j) ==> Treated(d, j);
    if !FullyTreated(e, u) {
      var j :| j in e.items && RiskItemOf(e, u, j) && !Treated(e, j);
      assert Treated(d, j);
    }
  }

  /** A feeder takes its use case and its tier from the AIIA. */
  function FeederRow(d: Db, a: Id, kind: AssessmentType): Assessment
    requires a in d.assessments
  {
    NewAssessment(d.assessments[a].useCase, kind, Some(a), d.assessments[a].tierSnapshot)
  }

  /** What a new feeder adds. */
  lemma FeederShape(d: Db, a: Id, kind: AssessmentType, sections: nat, facts: seq<string>, risks: seq<Id>)
    requires Inv(d) && FeederAdded(d, a, kind, sections, facts, risks).error.None?
    ensures var e, rows := FeederAdded(d, a, kind, sections, facts, risks).db, Prefill(d.nextId, kind, sections, facts, risks);
            && e.useCases == d.useCases && e.world == d.world && e.controlLinks == d.controlLinks
            && e.assessments == d.assessments[d.nextId := FeederRow(d, a, kind)]
            && d.nextId !in d.assessments
            && (forall i :: i in e.items <==> i in d.items || d.nextId < i <= d.nextId + |rows|)
            && (forall i | i in e.items :: e.items[i] == if i in d.items then d.items[i] else rows[i - d.nextId - 1])
            && forall i | d.nextId < i :: i !in d.items
  {
    hide Consistent, Prefill;
    FreshRows(d);
    InsertedRows(d.items, d.nextId + 1, Prefill(d.nextId, kind, sections, facts, risks));
  }

  /** Prefilled rows belong to the new assessment, carry a risk only as proposals, and there are
      proposals exactly for a kind that takes them. */
  lemma PrefillFacts(a: Id, kind: AssessmentType, sections: nat, facts: seq<string>, risks: seq<Id>)
    requires !kind.Aiia?
    ensures var rows := Prefill(a, kind, sections, facts, risks);
            && (forall k | 0 <= k < |rows| :: rows[k].assessment == a && (rows[k].risk.None? || rows[k].provenance.AiSuggested?))
            && ((exists k | 0 <= k < |rows| :: rows[k].provenance.AiSuggested?) <==> kind.ModelRisk? && risks != [])
  {
    var rows := Prefill(a, kind, sections, facts, risks);
    if kind.ModelRisk? && risks != [] { assert rows[sections + |facts|] == ProposalItem(a, risks[0]); }
  }

  /** A feeder added after submission opens the structure again exactly when it brings proposals
      with it, which only a model-risk feeder does. */
  lemma FeederParksIff(d: Db, u: Id, a: Id, kind: AssessmentType, sections: nat, facts: seq<string>, risks: seq<Id>)
    requires Inv(d) && Ready(d, u) && IsAiiaOf(d.assessments, u, a) && FeederAdded(d, a, kind, sections, facts, risks).error.None?
    ensures var e := FeederAdded(d, a, kind, sections, facts, risks).db;
            FullyTreated(e, u) && (!Ready(e, u) <==> kind.ModelRisk? && risks != [])
  {
    var e := FeederAdded(d, a, kind, sections, facts, risks).db;
    var rows := Prefill(d.nextId, kind, sections, facts, risks);
    CreateFeederKeeps(d, a, kind, sections, facts, risks);
    FreshRows(d);
    FeederShape(d, a, kind, sections, facts, risks);
    PrefillFacts(d.nextId, kind, sections, facts, risks);
    assert OneAiia(d.assessments) && OneAiia(e.assessments);
    hide Inv, FeederAdded, StructuralReadiness, TreatmentGate, Prefill;
    AiiaIsUnique(d.assessments, u, a);
    AiiaIsUnique(e.assessments, u, a);
    FeederTreatment(d, e, u, rows);
    FeederStructure(d, e, u, a, kind);
    if k :| 0 <= k < |rows| && rows[k].provenance.AiSuggested? {
      assert e.items[d.nextId + 1 + k] == rows[k] && ItemOf(e, u, d.nextId + 1 + k);
    } else {
      forall i | i in e.items && ItemOf(e, u, i) ensures !e.items[i].provenance.AiSuggested? {
        if i in d.items { assert ItemOf(d, u, i); DisposedWhenReady(d, u, i); }
      }
    }
  }

  lemma DisposedWhenReady(d: Db, u: Id, i: Id)
    requires Ready(d, u) && ItemOf(d, u, i)
    ensures !d.items[i].provenance.AiSuggested?
  {
  }

  /** Prefilled rows are no dispositioned risks: the treatment gate does not look at them. */
  lemma FeederTreatment(d: Db, e: Db, u: Id, rows: seq<Item>)
    requires FullyTreated(d, u) && e.controlLinks == d.controlLinks
    requires forall i | i in d.items :: d.items[i].assessment in d.assessments
    requires forall b | b in d.assessments :: b in e.assessments && e.assessments[b] == d.assessments[b]
    requires forall i | i in e.items :: if i in d.items then e.items[i] == d.items[i] else e.items[i] in rows
    requires forall k | 0 <= k < |rows| :: rows[k].risk.None? || rows[k].provenance.AiSuggested?
    ensures FullyTreated(e, u)
  {
  }

  lemma FeederStructure(d: Db, e: Db, u: Id, a: Id, kind: AssessmentType)
    requires u in d.useCases && a in d.assessments && AiiaOf(d.assessments, u) == Some(a) && StructurallyReady(d, u)
    requires e.useCases == d.useCases && e.world == d.world && a in e.assessments && AiiaOf(e.assessments, u) == Some(a)
    requires forall b | b in d.assessments :: b in e.assessments && e.assessments[b] == d.assessments[b]
    ensures StructurallyReady(e, u) <==> forall i | i in e.items :: ItemOf(e, u, i) ==> !e.items[i].provenance.AiSuggested?
  {
  }

  /** The feeders left when one is deleted are those of the other kinds. */
  lemma FeedersLeft(d: Db, a: Id, f: Id)
    requires OneFeeder(d.assessments) && f in d.assessments && d.assessments[f].parent == Some(a)
    ensures var e := AssessmentDeletedFrom(d, f).db;
            AssessmentDeletedFrom(d, f).error.None? ==>
              forall kind :: FeederExists(e, a, kind) <==> FeederExists(d, a, kind) && kind != d.assessments[f].kind
  {
    if AssessmentDeletedFrom(d, f).error.None? {
      var e := AssessmentDeletedFrom(d, f).db;
      hide Pristine;
      forall kind ensures FeederExists(e, a, kind) <==> FeederExists(d, a, kind) && kind != d.assessments[f].kind {
        assert IsFeederOf(d.assessments, a, d.assessments[f].kind, f);
        if FeederExists(d, a, kind) {
          var g :| g in d.assessments && d.assessments[g].parent == Some(a) && d.assessments[g].kind == kind;
          assert IsFeederOf(d.assessments, a, kind, g) && (g != f ==> e.assessments[g].kind == kind);
        }
        if FeederExists(e, a, kind) {
          var g :| g in e.assessments && e.assessments[g].parent == Some(a) && e.assessments[g].kind == kind;
          assert IsFeederOf(d.assessments, a, kind, g);
        }
      }
    }
  }

  /** Deleting a pristine feeder parks the structure exactly when its kind is required. */
  lemma FeederDeletionParksIff(d: Db, u: Id, a: Id, f: Id)
    requires Inv(d) && Ready(d, u) && IsAiiaOf(d.assessments, u, a)
    requires f in d.assessments && d.assessments[f].parent == Some(a) && AssessmentDeletedFrom(d, f).error.None?
    ensures !Ready(AssessmentDeletedFrom(d, f).db, u) <==> FeederApplicability(d, a, d.assessments[f].kind).Required?
  {
    var e := AssessmentDeletedFrom(d, f).db;
    DeleteAssessmentKeeps(d, f);
    FreshRows(d);
    assert RowOk(d.assessments, d.useCases.Keys, d.assessments[f]) && RowOk(d.assessments, d.useCases.Keys, d.assessments[a]);
    FeedersLeft(d, a, f);
    DeletionFrame(d, f, u, a);
    ScopeDecides(d, e, u, a);
    var kind := d.assessments[f].kind;
    assert kind in [Fria, Dpia, ModelRisk];
    forall k | k in [Fria, Dpia, ModelRisk] ensures FeederMissing(e, a, k) <==> k == kind && FeederApplicability(d, a, k).Required? {
      hide Inv, Ready, AssessmentDeletedFrom;
      assert !FeederMissing(d, a, k) by { NothingMissing(d, u, a, k); }
    }
    hide Inv, Ready, AssessmentDeletedFrom, FeederMissing;
  }

  lemma DeletionFrame(d: Db, f: Id, u: Id, a: Id)
    requires Inv(d) && IsAiiaOf(d.assessments, u, a) && f in d.assessments && f != a && AssessmentDeletedFrom(d, f).error.None?
    ensures var e := AssessmentDeletedFrom(d, f).db;
            && e.useCases == d.useCases && e.world == d.world && SameAiia(d, e, u, a) && NoNewWork(d, e, u) && LinksStay(d, e)
  {
    hide Inv, Pristine;
  }

  lemma NothingMissing(d: Db, u: Id, a: Id, kind: AssessmentType)
    requires Ready(d, u) && IsAiiaOf(d.assessments, u, a) && OneAiia(d.assessments) && kind in [Fria, Dpia, ModelRisk]
    ensures !FeederMissing(d, a, kind)
  {
    AiiaIsUnique(d.assessments, u, a);
  }

  // --- Changed facts -------------------------------------------------------------------------------

  predicate SomethingMissing(d: Db, a: Id)
    requires a in d.assessments
  {
    exists kind | kind in [Fria, Dpia, ModelRisk] :: FeederMissing(d, a, kind)
  }

  /** With no new work and no link lost, only a missing feeder can make a ready use case unready. */
  lemma ScopeDecides(d: Db, e: Db, u: Id, a: Id)
    requires OneAiia(d.assessments) && OneAiia(e.assessments) && Ready(d, u) && u in e.useCases && SameAiia(d, e, u, a)
    requires NoNewWork(d, e, u) && LinksStay(d, e)
    ensures !Ready(e, u) <==> SomethingMissing(e, a)
  {
    AiiaIsUnique(d.assessments, u, a);
    AiiaIsUnique(e.assessments, u, a);
    TreatmentSurvives(d, e, u);
    hide TreatmentGate;
    forall i | i in e.items && ItemOf(e, u, i) ensures !e.items[i].provenance.AiSuggested? { assert ItemOf(d, u, i); }
  }

  /** Changed facts about systems or about the data of a use case park it exactly when they make a
      feeder required that is not there. */
  lemma ScopeChangeParksIff(d: Db, e: Db, u: Id, a: Id)
    requires Inv(d) && Ready(d, u) && IsAiiaOf(d.assessments, u, a) && u in e.useCases
    requires e.assessments == d.assessments && e.items == d.items && e.controlLinks == d.controlLinks
    ensures !Ready(e, u) <==> SomethingMissing(e, a)
  {
    ScopeDecides(d, e, u, a);
  }

  // --- Patches whose lock check is old ---------------------------------------------------------------

  /** A patch that goes through parks the treatment exactly when it leaves a risk untreated. */
  lemma PatchParksIff(d: Db, u: Id, i: Id, content: Authoring, treatment: Treatment, w: Id)
    requires Inv(d) && Ready(d, u) && ItemOf(d, u, i) && w in d.useCases
    ensures !Ready(PatchWritten(d, i, content, treatment, w), u) <==> LeavesUntreated(d, i, content, treatment)
  {
    var e, row := PatchWritten(d, i, content, treatment, w), Amended(d.items[i], content, treatment);
    var a := AiiaOf(d.assessments, u).value;
    PatchFrame(d, i, content, treatment, w);
    assert OneAiia(d.assessments);
    hide Inv, PatchWritten;
    DisposedWhenReady(d, u, i);
    PatchedStructure(d, e, u, a, i);
    forall j | j in d.items ensures HasControlLink(e, j) == HasControlLink(d, j) && ItemOf(e, u, j) == ItemOf(d, u, j) { }
    assert Treated(e, i) == TreatedRow(row, HasControlLink(d, i));
    forall j | j in e.items && RiskItemOf(e, u, j) && j != i ensures Treated(e, j) { assert RiskItemOf(d, u, j) && Treated(d, j); }
  }

  predicate LeavesUntreated(d: Db, i: Id, content: Authoring, treatment: Treatment)
    requires i in d.items
  {
    var row := Amended(d.items[i], content, treatment);
    row.risk.Some? && Dispositioned(row.provenance) && !TreatedRow(row, HasControlLink(d, i))
  }

  lemma PatchFrame(d: Db, i: Id, content: Authoring, treatment: Treatment, w: Id)
    requires i in d.items && w in d.useCases
    ensures var e := PatchWritten(d, i, content, treatment, w);
            && e.assessments == d.assessments && e.controlLinks == d.controlLinks && e.world == d.world
            && e.items == d.items[i := Amended(d.items[i], content, treatment)] && e.useCases.Keys == d.useCases.Keys
            && forall v | v in d.useCases ::
                 e.useCases[v].system == d.useCases[v].system && e.useCases[v].dataCategories == d.useCases[v].dataCategories
  {
    hide Advanced, FullVector;
  }

  lemma PatchedStructure(d: Db, e: Db, u: Id, a: Id, i: Id)
    requires Ready(d, u) && OneAiia(d.assessments) && IsAiiaOf(d.assessments, u, a) && ItemOf(d, u, i)
    requires e.assessments == d.assessments && SameScope(d, e, u) && e.items.Keys == d.items.Keys
    requires forall j | j in d.items :: e.items[j].assessment == d.items[j].assessment
    requires forall j | j in d.items && j != i :: e.items[j] == d.items[j]
    requires !e.items[i].provenance.AiSuggested?
    ensures StructurallyReady(e, u)
  {
    AiiaIsUnique(d.assessments, u, a);
    forall kind | kind in [Fria, Dpia, ModelRisk] ensures !FeederMissing(e, a, kind) {
      NothingMissing(d, u, a, kind);
      assert FeederExists(e, a, kind) <==> FeederExists(d, a, kind);
    }
    forall j | j in e.items && ItemOf(e, u, j) ensures !e.items[j].provenance.AiSuggested? { assert ItemOf(d, u, j); }
  }

  // --- Every call ------------------------------------------------------------------------------------

  /** The call makes the use case with this AIIA unready: it takes away the last support of a risk,
      adds a feeder with proposals, deletes a required feeder, makes a missing one required, or is a
      patch let through by an old lock check that leaves a risk untreated. */
  predicate MakesUnready(seen: Db, now: Db, call: Call, u: Id, a: Id)
    requires a in now.assessments && u in now.useCases
  {
    match call
    case UnlinkControl(l) => l in now.controlLinks && IsLastSupport(now, u, l)
    case NewFeeder(p, kind, sections, facts, risks) =>
      p == a && FeederAdded(now, p, kind, sections, facts, risks).error.None? && kind.ModelRisk? && risks != []
    case RemoveAssessment(f) =>
      && f in now.assessments && now.assessments[f].parent == Some(a) && AssessmentDeletedFrom(now, f).error.None?
      && FeederApplicability(now, a, now.assessments[f].kind).Required?
    case Environment(world) => SomethingMissing(now.(world := world), a)
    case Categorise(w, categories) =>
      w == u && SomethingMissing(WithRow(now, u, now.useCases[u].(dataCategories := categories)), a)
    case Amend(i, content, treatment, expected) =>
      && PatchPasses(seen, i, content, treatment) && AtVersion(now, i, expected)
      && ItemOf(now, u, i) && LeavesUntreated(now, i, content, treatment)
    case _ => false
  }

  /** One step, exactly: while the AIIA is under review or approved, a call leaves a ready use case
      ready if and only if it is none of those. */
  lemma StepParksIff(seen: Db, now: Db, call: Call, u: Id, a: Id)
    requires Inv(seen) && Inv(now) && Evolves(seen, now) && Enabled(seen, now, call)
    requires Ready(now, u) && Locked(now, u, a)
    ensures !Ready(Commit(seen, now, call), u) <==> MakesUnready(seen, now, call, u, a)
  {
    if call.Environment? {
      ScopeChangeParksIff(now, now.(world := call.world), u, a);
    } else if LeavesAlone(now, call, u, a) {
      CallKeepsReadiness(seen, now, call, u, a);
      hide Ready, Inv, Commit, FeederAdded, AssessmentDeletedFrom;
    } else {
      TouchingParksIff(seen, now, call, u, a);
    }
  }

  lemma TouchingParksIff(seen: Db, now: Db, call: Call, u: Id, a: Id)
    requires Inv(seen) && Inv(now) && Evolves(seen, now) && Enabled(seen, now, call)
    requires Ready(now, u) && Locked(now, u, a) && !LeavesAlone(now, call, u, a) && !call.Environment?
    ensures !Ready(Commit(seen, now, call), u) <==> MakesUnready(seen, now, call, u, a)
  {
    if IsAssessmentCall(call) {
      TouchingAssessmentCall(seen, now, call, u, a);
      hide Ready, Inv, CommitAssessmentCall, MakesUnready;
    } else if call.Amend? {
      PatchStep(seen, now, u, call.item, call.content, call.treatment, call.expected);
      hide Ready, Inv, AmendSeen, LeavesUntreated, PatchPasses;
    } else {
      ScopeChangeParksIff(now, WithRow(now, u, now.useCases[u].(dataCategories := call.categories)), u, a);
      hide Ready, Inv, SomethingMissing;
    }
  }

  lemma TouchingAssessmentCall(seen: Db, now: Db, call: Call, u: Id, a: Id)
    requires Inv(now) && Ready(now, u) && Locked(now, u, a) && !LeavesAlone(now, call, u, a) && IsAssessmentCall(call)
    ensures !Ready(CommitAssessmentCall(now, call), u) <==> MakesUnready(seen, now, call, u, a)
  {
    hide Ready, Inv, FeederAdded, AssessmentDeletedFrom, ControlUnlinkedFrom, IsLastSupport;
    match call {
      case UnlinkControl(l) => UnlinkedStep(now, u, l);
      case NewFeeder(p, kind, sections, facts, risks) => FeederStep(now, u, a, kind, sections, facts, risks);
      case RemoveAssessment(f) => DeletionStep(now, u, a, f);
    }
  }

  lemma UnlinkedStep(d: Db, u: Id, l: Id)
    requires Inv(d) && Ready(d, u)
    ensures !Ready(ControlUnlinkedFrom(d, l).db, u) <==> l in d.controlLinks && IsLastSupport(d, u, l)
  {
    if l in d.controlLinks { UnlinkingParksIff(d, u, l); }
  }

  lemma FeederStep(d: Db, u: Id, a: Id, kind: AssessmentType, sections: nat, facts: seq<string>, risks: seq<Id>)
    requires Inv(d) && Ready(d, u) && IsAiiaOf(d.assessments, u, a)
    ensures var r := FeederAdded(d, a, kind, sections, facts, risks);
            !Ready(r.db, u) <==> r.error.None? && kind.ModelRisk? && risks != []
  {
    if FeederAdded(d, a, kind, sections, facts, risks).error.None? { FeederParksIff(d, u, a, kind, sections, facts, risks); }
  }

  lemma DeletionStep(d: Db, u: Id, a: Id, f: Id)
    requires Inv(d) && Ready(d, u) && IsAiiaOf(d.assessments, u, a) && f in d.assessments && d.assessments[f].parent == Some(a)
    ensures var r := AssessmentDeletedFrom(d, f);
            !Ready(r.db, u) <==> r.error.None? && FeederApplicability(d, a, d.assessments[f].kind).Required?
  {
    if AssessmentDeletedFrom(d, f).error.None? { FeederDeletionParksIff(d, u, a, f); }
  }

  lemma PatchStep(seen: Db, now: Db, u: Id, i: Id, content: Authoring, treatment: Treatment, expected: nat)
    requires Inv(seen) && Inv(now) && Evolves(seen, now) && Ready(now, u) && ItemOf(now, u, i)
    ensures !Ready(AmendSeen(seen, now, i, content, treatment, expected), u) <==>
            PatchPasses(seen, i, content, treatment) && AtVersion(now, i, expected) && LeavesUntreated(now, i, content, treatment)
  {
    if PatchPasses(seen, i, content, treatment) {
      var w := ItemUseCase(seen, i);
      assert w in now.useCases by { assert UseCasesEvolve(seen.useCases, now.useCases, seen.nextId); }
      PatchParksIff(now, u, i, content, treatment, w);
    }
  }

  // --- Submissions whose checks are old ----------------------------------------------------------------

  /** A submission that goes through changes the status columns of one row. */
  lemma LateSubmissionShape(seen: Db, now: Db, b: Id, expected: nat, actor: User)
    requires Inv(seen) && Inv(now) && Evolves(seen, now) && Enabled(seen, now, Submit(b, expected, actor))
    requires SubmitSeen(seen, now, b, expected, actor) != now
    ensures b in now.assessments
    ensures var e, row := SubmitSeen(seen, now, b, expected, actor), now.assessments[b];
            && Inv(e) && e.useCases == now.useCases && e.world == now.world
            && e.items == now.items && e.controlLinks == now.controlLinks
            && e.assessments == now.assessments[b := Changed(row, ToReview(row.submissionRound + 1, actor))]
  {
    SubmitSeenKeeps(seen, now, b, expected, actor);
    UnchangedSinceRead(seen, now, b, expected, ToReview(seen.assessments[b].submissionRound + 1, actor));
    hide Inv, StructurallyReady, FullyTreated;
  }

  /** A submission that goes through leaves the use case as ready as it finds it at the commit, not as
      its own checks found it. */
  lemma LateSubmissionIsReadyIff(seen: Db, now: Db, b: Id, expected: nat, actor: User)
    requires Inv(seen) && Inv(now) && Evolves(seen, now) && Enabled(seen, now, Submit(b, expected, actor))
    requires SubmitSeen(seen, now, b, expected, actor) != now
    ensures var e := SubmitSeen(seen, now, b, expected, actor);
            && b in now.assessments && b in e.assessments && e.assessments[b].status.InReview?
            && e.assessments[b].submissionRound == now.assessments[b].submissionRound + 1
            && var u := now.assessments[b].useCase; Ready(e, u) <==> Ready(now, u)
  {
    LateSubmissionShape(seen, now, b, expected, actor);
    var e, u := SubmitSeen(seen, now, b, expected, actor), now.assessments[b].useCase;
    assert OneAiia(e.assessments) && OneAiia(now.assessments);
    hide Inv, Ready, SubmitSeen, Enabled, Evolves;
    if Ready(now, u) {
      var a := AiiaWhenReady(now, u);
      SubmitLeavesAlone(seen, now, b, expected, actor, u, a);
      ReadinessSurvives(now, e, u, a);
    }
    if Ready(e, u) {
      var a := AiiaWhenReady(e, u);
      StatusIsIgnored(now, e, u, a, b);
      ReadinessSurvives(e, now, u, a);
    }
  }

  lemma AiiaWhenReady(d: Db, u: Id) returns (a: Id)
    requires Ready(d, u)
    ensures u in d.useCases && IsAiiaOf(d.assessments, u, a)
  {
    a := AiiaOf(d.assessments, u).value;
  }

  lemma StatusIsIgnored(d: Db, e: Db, u: Id, a: Id, b: Id)
    requires u in e.useCases && e.useCases == d.useCases && e.world == d.world && e.items == d.items && e.controlLinks == d.controlLinks
    requires IsAiiaOf(e.assessments, u, a) && e.assessments.Keys == d.assessments.Keys && b in d.assessments
    requires forall c | c in d.assessments && c != b :: e.assessments[c] == d.assessments[c]
    requires var p, q := d.assessments[b], e.assessments[b];
             q.useCase == p.useCase && q.kind == p.kind && q.parent == p.parent && q.tierSnapshot == p.tierSnapshot
    ensures Undisturbed(e, d, u, a)
  {
  }
}
