/** Runs of the whole service: any number of requests in any order, with the reads of every call that
    updates conditionally as old as they may be. */
module Runs {
  import opened Vocabulary
  import opened Lifecycle
  import opened Store
  import opened Gates
  import opened Counting
  import opened Invariants
  import opened LifecycleService
  import opened Clearances
  import opened ClassificationService
  import opened ReviewService
  import opened AuthorisationService
  import opened AssessmentService
  import opened EngineSafety
  import opened AssessmentSafety
  import opened ReviewSafety
  import ContextResolver

  datatype Call =
    | Register(system: Id, categories: seq<bool>, tier: Tier, status: ClassificationStatus, stamp: bool)
    | Reclassify(useCase: Id, tier: Tier, status: ClassificationStatus, stamp: bool)
    | RecordContext(useCase: Id, outcome: ContextResolver.Resolution, override: Option<Tier>)
    | SignOff(useCase: Id)
    | NewAiia(useCase: Id, sections: nat, facts: seq<string>, risks: seq<Id>)
    | NewFeeder(aiia: Id, kind: AssessmentType, sections: nat, facts: seq<string>, risks: seq<Id>)
    | NewItem(assessment: Id, known: bool, response: Option<string>)
    | Amend(item: Id, content: Authoring, treatment: Treatment, expected: nat)
    | Confirm(item: Id, expected: nat)
    | RemoveItem(item: Id)
    | RemoveAssessment(assessment: Id)
    | LinkControl(item: Id, control: Id, coverage: CoverageStatus)
    | UnlinkControl(link: Id)
    | LinkEvidence(item: Id, evidence: Id)
    | UnlinkEvidence(link: Id)
    | Submit(assessment: Id, expected: nat, actor: User)
    | Decide(assessment: Id, decision: ReviewDecision, note: Option<string>, expected: nat, actor: User)
    | Reopen(assessment: Id, expected: nat)
    | Authorise(useCase: Id, actor: User)
    | ReEvaluate(useCase: Id)
    | EngineHop(useCase: Id, verdicts: Vector, event: Event, target: LifecycleState)
    | SetVendor(vendor: Id, clearance: ApprovalStatus, until: Option<int>)
    | SetProduct(product: Id, clearance: ApprovalStatus, until: Option<int>)
    | Environment(world: World)
    | Categorise(useCase: Id, categories: seq<bool>)

  // --- Calls whose reads may be stale by the time they write -------------------------------------

  /** Submission decided on `seen`, committed on `now`. */
  ghost function SubmitSeen(seen: Db, now: Db, a: Id, expected: nat, actor: User): Db {
    if a !in seen.assessments || seen.assessments[a].useCase !in seen.useCases then now
    else
      var u := seen.assessments[a].useCase;
      if !StructurallyReady(seen, u) || !FullyTreated(seen, u) then now
      else
        var r := ConditionallyUpdated(now, a, expected, ToReview(seen.assessments[a].submissionRound + 1, actor));
        if r.error.Some? then now else Staged(r.db, Submitted, a)
  }

  /** Review decided on `seen`, committed on `now`: the round it is filed under is the one read. */
  ghost function DecideSeen(seen: Db, now: Db, a: Id, decision: ReviewDecision, note: Option<string>, expected: nat, actor: User): Db
  {
    if a !in seen.assessments || seen.assessments[a].useCase !in seen.useCases then now
    else
      var row := seen.assessments[a];
      if !DistinctActor(actor, {row.submittedBy}) || !row.status.InReview? || (decision.RequestChanges? && !NonBlank(note)) then now
      else
        var r := ConditionallyUpdated(now, a, expected, Decision(decision, actor));
        if r.error.Some? then now
        else
          var e := Staged(r.db.(reviews := now.reviews + [Review(a, actor, decision, row.submissionRound)]), ReviewRecorded, a);
          if decision.Approve? && row.useCase in e.useCases then AutoAdvanced(e, row.useCase) else e
  }

  /** Authorisation decided on `seen`, committed on `now`: it stamps the round it read, and only
      the transition is conditional. */
  ghost function AuthoriseSeen(seen: Db, now: Db, u: Id, actor: User): Db {
    if AuthorisationRefusal(seen, u, actor).Some? || u !in now.useCases then now
    else
      var aiia := AiiaOf(seen.assessments, u).value;
      Granted(now, u, aiia, seen.assessments[aiia].submissionRound, actor).db
  }

  /** The checks of a patch before its conditional update. */
  predicate PatchPasses(seen: Db, i: Id, content: Authoring, treatment: Treatment) {
    && Loaded(seen, i) && ItemUseCase(seen, i) in seen.useCases && !AuthoringLocked(seen.assessments, seen.items[i].assessment)
    && !ChangesNothing(seen.items[i], content, treatment) && !seen.items[i].provenance.AiSuggested?
  }

  /** The item's version at the commit is the one the client named. */
  predicate AtVersion(now: Db, i: Id, expected: nat) {
    i in now.items && now.items[i].lockVersion == expected
  }

  /** A patch checked on `seen`, written on `now` if the item's version still fits. */
  ghost function AmendSeen(seen: Db, now: Db, i: Id, content: Authoring, treatment: Treatment, expected: nat): Db {
    if PatchPasses(seen, i, content, treatment) && AtVersion(now, i, expected) && ItemUseCase(seen, i) in now.useCases
    then PatchWritten(now, i, content, treatment, ItemUseCase(seen, i)) else now
  }

  ghost function ConfirmSeen(seen: Db, now: Db, i: Id, expected: nat): Db {
    if Loaded(seen, i) && ItemUseCase(seen, i) in seen.useCases && !AuthoringLocked(seen.assessments, seen.items[i].assessment)
       && AtVersion(now, i, expected) && now.items[i].provenance.AiSuggested? && ItemUseCase(seen, i) in now.useCases
    then ConfirmWritten(now, i, ItemUseCase(seen, i)) else now
  }

  /** The hops that the engine can ask for in a state, whatever the gates said when it read them. */
  predicate Decides(s: LifecycleState, v: Vector, event: Event, target: LifecycleState) {
    match event
    case Halt => !s.HaltedProhibited? && v[2].Halts? && target.HaltedProhibited?
    case Hold => Regresses(s, v) && target.Held?
    case Restore => s.Held? && target == Target(v)
    case Authorise => false
    case _ => Ranked(s) && StepsOff(v, Rank(s).value) && Rank(s).value < 6
              && event == HopEvent(Rank(s).value) && target == AtRank(Rank(s).value + 1)
  }

  // --- Steps ------------------------------------------------------------------------------------

  /** What can happen: a client names a lock version no newer than the row its request goes on to
      read; systems with use cases are not deleted, and clearances change by their own calls. */
  predicate Enabled(seen: Db, now: Db, call: Call) {
    match call
    case Submit(a, expected, _) => a in seen.assessments ==> expected <= seen.assessments[a].lockVersion
    case Decide(a, _, _, expected, _) => a in seen.assessments ==> expected <= seen.assessments[a].lockVersion
    case Amend(i, _, _, expected) => i in seen.items ==> expected <= seen.items[i].lockVersion
    case Confirm(i, expected) => i in seen.items ==> expected <= seen.items[i].lockVersion
    case EngineHop(u, v, event, target) => u in seen.useCases && Decides(seen.useCases[u].cursor.state, v, event, target)
    case Environment(world) =>
      && now.world.systems.Keys <= world.systems.Keys
      && world.vendorApprovals == now.world.vendorApprovals && world.productApprovals == now.world.productApprovals
    case _ => true
  }

  predicate IsAssessmentCall(call: Call) {
    || call.NewAiia? || call.NewFeeder? || call.NewItem? || call.RemoveItem? || call.RemoveAssessment?
    || call.LinkControl? || call.UnlinkControl? || call.LinkEvidence? || call.UnlinkEvidence?
  }

  /** The other calls of the assessment service read and write in one transaction. */
  ghost function CommitAssessmentCall(now: Db, call: Call): Db
    requires IsAssessmentCall(call)
  {
    match call
    case NewAiia(u, sections, facts, risks) => AiiaCreated(now, u, sections, facts, risks).db
    case NewFeeder(p, kind, sections, facts, risks) => FeederAdded(now, p, kind, sections, facts, risks).db
    case NewItem(a, known, response) => ItemFromSection(now, a, known, response).db
    case RemoveItem(i) => ItemDeletedFrom(now, i).db
    case RemoveAssessment(a) => AssessmentDeletedFrom(now, a).db
    case LinkControl(i, c, coverage) => ControlLinkedTo(now, i, c, coverage).db
    case UnlinkControl(l) => ControlUnlinkedFrom(now, l).db
    case LinkEvidence(i, x) => EvidenceLinkedTo(now, i, x).db
    case UnlinkEvidence(l) => EvidenceUnlinkedFrom(now, l)
  }

  /** The calls that read apart from their write. */
  predicate IsLateCall(call: Call) {
    call.Submit? || call.Decide? || call.Authorise? || call.EngineHop? || call.Amend? || call.Confirm?
  }

  ghost function CommitLateCall(seen: Db, now: Db, call: Call): Db
    requires IsLateCall(call)
  {
    match call
    case Submit(a, expected, actor) => SubmitSeen(seen, now, a, expected, actor)
    case Decide(a, decision, note, expected, actor) => DecideSeen(seen, now, a, decision, note, expected, actor)
    case Authorise(u, actor) => AuthoriseSeen(seen, now, u, actor)
    case Amend(i, content, treatment, expected) => AmendSeen(seen, now, i, content, treatment, expected)
    case Confirm(i, expected) => ConfirmSeen(seen, now, i, expected)
    case EngineHop(u, _, event, target) =>
      if u in seen.useCases && u in now.useCases
      then Transitioned(now, u, seen.useCases[u].cursor.state, event, target).db else now
  }

  ghost function CommitOtherCall(now: Db, call: Call): Db
    requires !IsLateCall(call) && !IsAssessmentCall(call)
  {
    match call
    case Register(system, categories, tier, status, stamp) => Registered(now, system, categories, tier, status, stamp).db
    case Reclassify(u, tier, status, stamp) => if u in now.useCases then Snapshotted(now, u, tier, status, stamp) else now
    case RecordContext(u, outcome, override) => ContextRecorded(now, u, outcome, override).db
    case SignOff(u) => SignedOffBy(now, u).db
    case Reopen(a, expected) => ReopenedBy(now, a, expected).db
    case ReEvaluate(u) => if u in now.useCases then ReEvaluated(now, u).db else now
    case SetVendor(vendor, clearance, until) => VendorApproved(now, vendor, clearance, until)
    case SetProduct(product, clearance, until) => ProductApproved(now, product, clearance, until)
    case Environment(world) => now.(world := world)
    case Categorise(u, categories) =>
      if u in now.useCases then WithRow(now, u, now.useCases[u].(dataCategories := categories)) else now
  }

  /** The database after the call commits. */
  ghost function Commit(seen: Db, now: Db, call: Call): Db {
    if IsLateCall(call) then CommitLateCall(seen, now, call)
    else if IsAssessmentCall(call) then CommitAssessmentCall(now, call)
    else CommitOtherCall(now, call)
  }

  /** With nothing in between, a call that reads and writes apart is the atomic service call. */
  lemma UninterruptedSubmitIsAtomic(d: Db, a: Id, expected: nat, actor: User)
    ensures SubmitSeen(d, d, a, expected, actor) == SubmittedForReview(d, a, expected, actor).db
  {
  }

  lemma UninterruptedDecisionIsAtomic(d: Db, a: Id, decision: ReviewDecision, note: Option<string>, expected: nat, actor: User)
    ensures DecideSeen(d, d, a, decision, note, expected, actor) == ReviewedBy(d, a, decision, note, expected, actor).db
  {
  }

  lemma UninterruptedAuthorisationIsAtomic(d: Db, u: Id, actor: User)
    ensures AuthoriseSeen(d, d, u, actor) == AuthorisedBy(d, u, actor).db
  {
  }

  lemma UninterruptedPatchIsAtomic(d: Db, i: Id, content: Authoring, treatment: Treatment, expected: nat)
    ensures AmendSeen(d, d, i, content, treatment, expected) == ItemAmendedBy(d, i, content, treatment, expected).db
    ensures ConfirmSeen(d, d, i, expected) == ItemConfirmedBy(d, i, expected).db
  {
  }

  // --- Every step keeps the invariant ------------------------------------------------------------

  /** A conditional update that goes through found the row as it was read. */
  lemma UnchangedSinceRead(seen: Db, now: Db, a: Id, expected: nat, change: StatusChange)
    requires Evolves(seen, now) && a in seen.assessments && expected <= seen.assessments[a].lockVersion
    requires ConditionallyUpdated(now, a, expected, change).error.None?
    ensures a in now.assessments && now.assessments[a] == seen.assessments[a]
  {
    assert AssessmentEvolves(seen.assessments[a], now.assessments[a]);
  }

  lemma SubmitSeenKeeps(seen: Db, now: Db, a: Id, expected: nat, actor: User)
    requires Inv(seen) && Inv(now) && Evolves(seen, now) && Enabled(seen, now, Submit(a, expected, actor))
    ensures var e := SubmitSeen(seen, now, a, expected, actor); Inv(e) && Evolves(now, e)
  {
    hide StructurallyReady, FullyTreated;
    EvolvesIsReflexive(now);
    var e := SubmitSeen(seen, now, a, expected, actor);
    if e != now {
      UnchangedSinceRead(seen, now, a, expected, ToReview(seen.assessments[a].submissionRound + 1, actor));
      SubmitKeeps(now, a, actor);
    }
  }

  /** A review that goes through is the atomic review of the database it commits on. */
  lemma LateDecisionIsAtomic(seen: Db, now: Db, a: Id, decision: ReviewDecision, note: Option<string>, expected: nat, actor: User)
    requires Inv(seen) && Inv(now) && Evolves(seen, now) && Enabled(seen, now, Decide(a, decision, note, expected, actor))
    ensures var e := DecideSeen(seen, now, a, decision, note, expected, actor);
            e == now || e == ReviewedBy(now, a, decision, note, expected, actor).db
  {
    var e := DecideSeen(seen, now, a, decision, note, expected, actor);
    if e != now {
      UnchangedSinceRead(seen, now, a, expected, Decision(decision, actor));
      assert RowOk(now.assessments, now.useCases.Keys, now.assessments[a]);
    }
  }

  lemma ReviewedByKeeps(d: Db, a: Id, decision: ReviewDecision, note: Option<string>, expected: nat, actor: User)
    requires Inv(d)
    ensures var e := ReviewedBy(d, a, decision, note, expected, actor).db; Inv(e) && Evolves(d, e)
  {
    EvolvesIsReflexive(d);
    var r := ReviewedBy(d, a, decision, note, expected, actor);
    if r.error.None? {
      var row := Changed(d.assessments[a], Decision(decision, actor));
      var e := Staged(d.(assessments := d.assessments[a := row],
                         reviews := d.reviews + [Review(a, actor, decision, row.submissionRound)]), ReviewRecorded, a);
      ReviewKeeps(d, a, decision, actor);
      hide Evolves;
      if decision.Approve? {
        AutoAdvanceKeeps(e, row.useCase);
        Chain(d, e, r.db);
      }
    }
  }

  /** An approved round keeps its submitter and approver until the next submission, so an ATO
      decided on an older read still fits. */
  lemma GrantFitsLater(seen: Db, now: Db, u: Id, actor: User)
    requires Inv(seen) && Evolves(seen, now) && AuthorisationRefusal(seen, u, actor).None?
    ensures var a := AiiaOf(seen.assessments, u).value;
            && seen.assessments[a].status.Approved? && EverSubmitted(seen.assessments, a)
            && AtoOk(now.assessments, Ato(u, a, seen.assessments[a].submissionRound, actor))
  {
    var a := AiiaOf(seen.assessments, u).value;
    assert FullVector(seen, u)[3].Advances?;
    assert CycleOk(seen.assessments[a], a, seen.reviews, seen.audit);
    assert EverSubmitted(seen.assessments, a);
    assert AssessmentEvolves(seen.assessments[a], now.assessments[a]);
  }

  lemma AuthoriseSeenKeeps(seen: Db, now: Db, u: Id, actor: User)
    requires Inv(seen) && Inv(now) && Evolves(seen, now)
    ensures var e := AuthoriseSeen(seen, now, u, actor); Inv(e) && Evolves(now, e)
  {
    EvolvesIsReflexive(now);
    if AuthorisationRefusal(seen, u, actor).None? && u in now.useCases {
      var a := AiiaOf(seen.assessments, u).value;
      GrantFitsLater(seen, now, u, actor);
      GrantKeeps(now, u, a, seen.assessments[a].submissionRound, actor);
    }
  }

  /** An item found at the version a client could name is the item as that client's request read it. */
  lemma ItemUnchangedSinceRead(seen: Db, now: Db, i: Id, expected: nat)
    requires Inv(seen) && Evolves(seen, now) && i in seen.items && expected <= seen.items[i].lockVersion && AtVersion(now, i, expected)
    ensures now.items[i] == seen.items[i]
  {
    assert ItemEvolves(seen.items[i], now.items[i]);
  }

  lemma AmendSeenKeeps(seen: Db, now: Db, i: Id, content: Authoring, treatment: Treatment, expected: nat)
    requires Inv(seen) && Inv(now) && Evolves(seen, now) && Enabled(seen, now, Amend(i, content, treatment, expected))
    ensures var e := AmendSeen(seen, now, i, content, treatment, expected); Inv(e) && Evolves(now, e)
  {
    EvolvesIsReflexive(now);
    if PatchPasses(seen, i, content, treatment) && AtVersion(now, i, expected) && ItemUseCase(seen, i) in now.useCases {
      ItemUnchangedSinceRead(seen, now, i, expected);
      PatchKeeps(now, i, content, treatment, ItemUseCase(seen, i));
    }
  }

  lemma ConfirmSeenKeeps(seen: Db, now: Db, i: Id, expected: nat)
    requires Inv(now)
    ensures var e := ConfirmSeen(seen, now, i, expected); Inv(e) && Evolves(now, e)
  {
    EvolvesIsReflexive(now);
    if ConfirmSeen(seen, now, i, expected) != now {
      ConfirmKeeps(now, i, ItemUseCase(seen, i));
    }
  }

  /** The authoring lock is only as fresh as the read: a patch that its own read let through goes
      through whatever has happened to the assessment since, exactly when the item's version has not
      moved, and then it finds the item as it was. */
  lemma LatePatchGoesThroughIff(seen: Db, now: Db, i: Id, content: Authoring, treatment: Treatment, expected: nat)
    requires Inv(seen) && Inv(now) && Evolves(seen, now) && Enabled(seen, now, Amend(i, content, treatment, expected))
    requires PatchPasses(seen, i, content, treatment)
    ensures AmendSeen(seen, now, i, content, treatment, expected) != now <==> AtVersion(now, i, expected)
    ensures AtVersion(now, i, expected) ==> now.items[i] == seen.items[i]
  {
    if AtVersion(now, i, expected) {
      ItemUnchangedSinceRead(seen, now, i, expected);
      assert UseCaseEvolves(seen.useCases[ItemUseCase(seen, i)], now.useCases[ItemUseCase(seen, i)]);
      hide Advanced, FullVector;
      assert |AmendSeen(seen, now, i, content, treatment, expected).audit| == |now.audit| + 1;
    }
  }

  /** The engine only ever asks for admissible hops, and never for AUTHORISED. */
  lemma DecisionsAreAdmissible(s: LifecycleState, v: Vector, event: Event, target: LifecycleState)
    requires Decides(s, v, event, target)
    ensures Admissible(s, event, target) && !target.Authorised?
  {
  }

  lemma HopKeeps(seen: Db, now: Db, u: Id, v: Vector, event: Event, target: LifecycleState)
    requires Inv(now) && Enabled(seen, now, EngineHop(u, v, event, target))
    ensures var e := CommitLateCall(seen, now, EngineHop(u, v, event, target)); Inv(e) && Evolves(now, e)
  {
    EvolvesIsReflexive(now);
    var s := seen.useCases[u].cursor.state;
    DecisionsAreAdmissible(s, v, event, target);
    if u in now.useCases && now.useCases[u].cursor.state == s {
      var c := now.useCases[u].cursor;
      assert CursorOk(c, AtosOf(now.atos, u)) && HaltOk(now.useCases[u]);
      HopReplays(c, event, target);
      CursorMoveKeeps(now, u, Hop(c, event, target));
    }
  }

  lemma ContextKeeps(d: Db, u: Id, outcome: ContextResolver.Resolution, override: Option<Tier>)
    requires Inv(d)
    ensures Inv(ContextRecorded(d, u, outcome, override).db) && Evolves(d, ContextRecorded(d, u, outcome, override).db)
  {
    EvolvesIsReflexive(d);
    if ContextRecorded(d, u, outcome, override).db != d {
      SnapshotKeeps(d, u, StoredTier(outcome.tier.value, override), PendingReview, false);
    }
  }

  lemma WorldKeeps(seen: Db, now: Db, world: World)
    requires Inv(now) && Enabled(seen, now, Environment(world))
    ensures Inv(now.(world := world)) && Evolves(now, now.(world := world))
  {
  }

  /** Only clearances and fresh identifiers changed. */
  lemma ClearanceTablesKeep(d: Db, e: Db)
    requires Inv(d) && d.nextId <= e.nextId && e == d.(world := e.world, nextId := e.nextId)
    requires e.world.systems == d.world.systems
    requires ClearancesBelow(e.world.vendorApprovals, e.nextId) && ClearancesBelow(e.world.productApprovals, e.nextId)
    requires ClearancesEvolve(d.world.vendorApprovals, e.world.vendorApprovals)
    requires ClearancesEvolve(d.world.productApprovals, e.world.productApprovals)
    ensures Inv(e) && Evolves(d, e)
  {
    EvolvesIsReflexive(d);
  }

  lemma VendorKeeps(d: Db, vendor: Id, clearance: ApprovalStatus, until: Option<int>)
    requires Inv(d)
    ensures var e := VendorApproved(d, vendor, clearance, until); Inv(e) && Evolves(d, e)
  {
    var approval := ApprovalIn(d.world.vendorApprovals, vendor, d.nextId, clearance, until);
    var e := d.(world := d.world.(vendorApprovals := d.world.vendorApprovals[vendor := approval]),
                nextId := if vendor in d.world.vendorApprovals then d.nextId else d.nextId + 1);
    assert Fresh(d);
    hide Inv, Evolves;
    ClearanceTablesKeep(d, e);
    StagingKeeps(e, if vendor in d.world.vendorApprovals then ClearanceUpdated else ClearanceSet, approval.id);
    Chain(d, e, VendorApproved(d, vendor, clearance, until));
  }

  lemma ProductKeeps(d: Db, product: Id, clearance: ApprovalStatus, until: Option<int>)
    requires Inv(d)
    ensures var e := ProductApproved(d, product, clearance, until); Inv(e) && Evolves(d, e)
  {
    var approval := ApprovalIn(d.world.productApprovals, product, d.nextId, clearance, until);
    var e := d.(world := d.world.(productApprovals := d.world.productApprovals[product := approval]),
                nextId := if product in d.world.productApprovals then d.nextId else d.nextId + 1);
    assert Fresh(d);
    hide Inv, Evolves;
    ClearanceTablesKeep(d, e);
    StagingKeeps(e, if product in d.world.productApprovals then ClearanceUpdated else ClearanceSet, approval.id);
    Chain(d, e, ProductApproved(d, product, clearance, until));
  }

  lemma CategoriesKeep(d: Db, u: Id, categories: seq<bool>)
    requires Inv(d) && u in d.useCases
    ensures var e := WithRow(d, u, d.useCases[u].(dataCategories := categories)); Inv(e) && Evolves(d, e)
  {
    var row := d.useCases[u];
    assert CursorOk(row.cursor, AtosOf(d.atos, u)) && SnapshotsOk(row.classifications) && HaltOk(row);
    RowKeeps(d, u, row.(dataCategories := categories));
  }

  lemma AssessmentCallKeeps(now: Db, call: Call)
    requires Inv(now) && IsAssessmentCall(call)
    ensures Inv(CommitAssessmentCall(now, call)) && Evolves(now, CommitAssessmentCall(now, call))
  {
    hide Inv, Evolves, AiiaCreated, FeederAdded, ItemFromSection, ItemDeletedFrom, AssessmentDeletedFrom,
         ControlLinkedTo, ControlUnlinkedFrom, EvidenceLinkedTo, EvidenceUnlinkedFrom;
    match call {
      case NewAiia(u, sections, facts, risks) => CreateAiiaKeeps(now, u, sections, facts, risks);
      case NewFeeder(p, kind, sections, facts, risks) => CreateFeederKeeps(now, p, kind, sections, facts, risks);
      case NewItem(a, known, response) => CreateItemKeeps(now, a, known, response);
      case RemoveItem(i) => DeleteItemKeeps(now, i);
      case RemoveAssessment(a) => DeleteAssessmentKeeps(now, a);
      case LinkControl(i, c, coverage) => LinkControlKeeps(now, i, c, coverage);
      case UnlinkControl(l) => UnlinkControlKeeps(now, l);
      case LinkEvidence(i, x) => LinkEvidenceKeeps(now, i, x);
      case UnlinkEvidence(l) => UnlinkEvidenceKeeps(now, l);
    }
  }

  lemma LateCallKeeps(seen: Db, now: Db, call: Call)
    requires Inv(seen) && Inv(now) && Evolves(seen, now) && Enabled(seen, now, call) && IsLateCall(call)
    ensures Inv(CommitLateCall(seen, now, call)) && Evolves(now, CommitLateCall(seen, now, call))
  {
    EvolvesIsReflexive(now);
    hide Inv, Evolves, Enabled, SubmitSeen, DecideSeen, ReviewedBy, AuthoriseSeen, AmendSeen, ConfirmSeen, Transitioned;
    match call {
      case Submit(a, expected, actor) => SubmitSeenKeeps(seen, now, a, expected, actor);
      case Decide(a, decision, note, expected, actor) =>
        LateDecisionIsAtomic(seen, now, a, decision, note, expected, actor);
        ReviewedByKeeps(now, a, decision, note, expected, actor);
      case Authorise(u, actor) => AuthoriseSeenKeeps(seen, now, u, actor);
      case Amend(i, content, treatment, expected) => AmendSeenKeeps(seen, now, i, content, treatment, expected);
      case Confirm(i, expected) => ConfirmSeenKeeps(seen, now, i, expected);
      case EngineHop(u, v, event, target) => HopKeeps(seen, now, u, v, event, target);
    }
  }

  lemma OtherCallKeeps(seen: Db, now: Db, call: Call)
    requires Inv(now) && Enabled(seen, now, call) && !IsLateCall(call) && !IsAssessmentCall(call)
    ensures Inv(CommitOtherCall(now, call)) && Evolves(now, CommitOtherCall(now, call))
  {
    EvolvesIsReflexive(now);
    hide Inv, Evolves, Enabled, Registered, Snapshotted, ContextRecorded, SignedOffBy, ReopenedBy, ReEvaluated,
         VendorApproved, ProductApproved;
    match call {
      case Register(system, categories, tier, status, stamp) => RegisterKeeps(now, system, categories, tier, status, stamp);
      case Reclassify(u, tier, status, stamp) => if u in now.useCases { Reclassified(now, u, tier, status, stamp); }
      case RecordContext(u, outcome, override) => ContextKeeps(now, u, outcome, override);
      case SignOff(u) => SignOffKeeps(now, u);
      case Reopen(a, expected) => ReopenKeeps(now, a, expected);
      case ReEvaluate(u) => if u in now.useCases { ReEvaluateKeeps(now, u); }
      case SetVendor(vendor, clearance, until) => VendorKeeps(now, vendor, clearance, until);
      case SetProduct(product, clearance, until) => ProductKeeps(now, product, clearance, until);
      case Environment(world) => WorldKeeps(seen, now, world);
      case Categorise(u, categories) => if u in now.useCases { CategoriesKeep(now, u, categories); }
    }
  }

  /** Every step of every run keeps the invariant and moves the database on. */
  lemma StepKeeps(seen: Db, now: Db, call: Call)
    requires Inv(seen) && Inv(now) && Evolves(seen, now) && Enabled(seen, now, call)
    ensures Inv(Commit(seen, now, call)) && Evolves(now, Commit(seen, now, call))
  {
    hide Inv, Evolves, Enabled, CommitLateCall, CommitAssessmentCall, CommitOtherCall;
    if IsLateCall(call) {
      LateCallKeeps(seen, now, call);
    } else if IsAssessmentCall(call) {
      AssessmentCallKeeps(now, call);
    } else {
      OtherCallKeeps(seen, now, call);
    }
  }

  lemma Reclassified(d: Db, u: Id, tier: Tier, status: ClassificationStatus, stamp: bool)
    requires Inv(d) && u in d.useCases
    ensures Inv(Snapshotted(d, u, tier, status, stamp)) && Evolves(d, Snapshotted(d, u, tier, status, stamp))
  {
    SnapshotKeeps(d, u, tier, status, stamp);
  }

  // --- Runs ----------------------------------------------------------------------------------------

  /** A request: the database it read was the one after `readAt` commits. */
  datatype Step = Step(readAt: nat, call: Call)

  /** An empty tenant: reference data and systems, but no clearances yet. */
  function Empty(world: World): Db {
    Db(map[], map[], map[], map[], map[], [], [], [], world.(vendorApprovals := map[], productApprovals := map[]), 0)
  }

  ghost predicate IsStep(h: seq<Db>, k: nat, s: Step)
    requires k + 1 < |h|
  {
    s.readAt <= k && Enabled(h[s.readAt], h[k], s.call) && h[k + 1] == Commit(h[s.readAt], h[k], s.call)
  }

  /** `h` lists every database from the empty one on, one commit after another. */
  ghost predicate IsRun(h: seq<Db>, steps: seq<Step>) {
    && |h| == |steps| + 1 && h[0] == Empty(h[0].world)
    && forall k {:trigger IsStep(h, k, steps[k])} | 0 <= k < |steps| :: IsStep(h, k, steps[k])
  }

  lemma {:induction false} RunIsSafe(h: seq<Db>, steps: seq<Step>, j: nat, k: nat)
    requires IsRun(h, steps) && j <= k < |h|
    ensures Inv(h[k]) && Evolves(h[j], h[k])
    decreases k, j
  {
    if k == 0 {
      EmptyIsSafe(h[0].world);
      EvolvesIsReflexive(h[0]);
    } else {
      var s := steps[k - 1];
      assert IsStep(h, k - 1, s);
      RunIsSafe(h, steps, s.readAt, k - 1);
      RunIsSafe(h, steps, s.readAt, s.readAt);
      StepKeeps(h[s.readAt], h[k - 1], s.call);
      if j == k {
        EvolvesIsReflexive(h[k]);
      } else {
        RunIsSafe(h, steps, j, k - 1);
        RunIsSafe(h, steps, j, j);
        Chain(h[j], h[k - 1], h[k]);
      }
    }
  }

  lemma EmptyIsSafe(world: World)
    ensures Inv(Empty(world))
  {
  }
}
