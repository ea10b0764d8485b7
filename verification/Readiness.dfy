/** What readiness for review rests on, and the calls that leave all of it alone. */
module Readiness {
  import opened Vocabulary
  import opened Lifecycle
  import opened Store
  import opened Gates
  import opened Invariants
  import opened LifecycleService
  import opened Clearances
  import opened ClassificationService
  import opened ReviewService
  import opened AssessmentService
  import opened Runs
  import ContextResolver

  /** What submission checks: complete structure and a treated register. */
  ghost predicate Ready(d: Db, u: Id) {
    u in d.useCases && StructurallyReady(d, u) && FullyTreated(d, u)
  }

  /** `a` is the use case's AIIA, and under review or approved. */
  predicate Locked(d: Db, u: Id, a: Id) {
    IsAiiaOf(d.assessments, u, a) && (d.assessments[a].status.InReview? || d.assessments[a].status.Approved?)
  }

  /** The lock reaches every assessment of the use case: the AIIA itself and all its feeders. */
  lemma LockReachesAll(d: Db, u: Id, a: Id, b: Id)
    requires Inv(d) && Locked(d, u, a) && b in d.assessments && d.assessments[b].useCase == u
    ensures AuthoringLocked(d.assessments, b)
  {
    var row := d.assessments[b];
    assert RowOk(d.assessments, d.useCases.Keys, row);
    assert IsAiiaOf(d.assessments, u, a);
    if row.parent.None? {
      assert IsAiiaOf(d.assessments, u, b);
    } else {
      var p := row.parent.value;
      assert RowOk(d.assessments, d.useCases.Keys, d.assessments[p]);
      assert IsAiiaOf(d.assessments, u, p);
    }
  }

  // --- What readiness rests on ---------------------------------------------------------------------

  /** The facts that decide which feeders are required. */
  predicate SameScope(d: Db, e: Db, u: Id)
    requires u in d.useCases
  {
    && u in e.useCases && e.useCases[u].system == d.useCases[u].system
    && e.useCases[u].dataCategories == d.useCases[u].dataCategories && e.world.systems == d.world.systems
  }

  predicate SameAiia(d: Db, e: Db, u: Id, a: Id) {
    && IsAiiaOf(d.assessments, u, a) && IsAiiaOf(e.assessments, u, a)
    && e.assessments[a].tierSnapshot == d.assessments[a].tierSnapshot
  }

  predicate FeedersStay(d: Db, e: Db, a: Id) {
    forall f {:trigger d.assessments[f]} | f in d.assessments && d.assessments[f].parent == Some(a) ::
      f in e.assessments && e.assessments[f].parent == Some(a) && e.assessments[f].kind == d.assessments[f].kind
  }

  /** No item of the use case is new or changed. */
  ghost predicate NoNewWork(d: Db, e: Db, u: Id) {
    forall i {:trigger ItemOf(e, u, i)} | ItemOf(e, u, i) :: ItemOf(d, u, i) && e.items[i] == d.items[i]
  }

  predicate LinksStay(d: Db, e: Db) {
    forall l {:trigger d.controlLinks[l]} | l in d.controlLinks && d.controlLinks[l].item in e.items ::
      l in e.controlLinks && e.controlLinks[l] == d.controlLinks[l]
  }

  lemma StructureSurvives(d: Db, e: Db, u: Id, a: Id)
    requires Inv(d) && OneAiia(e.assessments) && Ready(d, u) && SameAiia(d, e, u, a)
    requires SameScope(d, e, u) && FeedersStay(d, e, a) && NoNewWork(d, e, u)
    ensures StructurallyReady(e, u)
  {
  }

  lemma TreatmentSurvives(d: Db, e: Db, u: Id)
    requires FullyTreated(d, u) && NoNewWork(d, e, u) && LinksStay(d, e)
    ensures FullyTreated(e, u)
  {
  }

  /** Everything that readiness of this use case rests on is as it was, items and links only fewer. */
  ghost predicate Undisturbed(d: Db, e: Db, u: Id, a: Id) {
    u in d.useCases && SameAiia(d, e, u, a) && SameScope(d, e, u) && FeedersStay(d, e, a) && NoNewWork(d, e, u) && LinksStay(d, e)
  }

  lemma ReadinessSurvives(d: Db, e: Db, u: Id, a: Id)
    requires Inv(d) && OneAiia(e.assessments) && Ready(d, u) && Undisturbed(d, e, u, a)
    ensures Ready(e, u)
  {
  }

  // --- Call by call ---------------------------------------------------------------------------------

  /** Not one of the calls that the lock does not stop from touching what readiness rests on: a new
      feeder of the AIIA, the deletion of one, the removal of a control link, changed facts about the
      system or its data, and a patch whose lock check was made earlier. */
  predicate LeavesAlone(d: Db, call: Call, u: Id, a: Id) {
    match call
    case Amend(i, _, _, _) => !ItemOf(d, u, i)
    case NewFeeder(p, _, _, _, _) => p != a
    case RemoveAssessment(b) => b in d.assessments ==> d.assessments[b].parent != Some(a)
    case UnlinkControl(_) => false
    case Environment(world) => world.systems == d.world.systems
    case Categorise(w, _) => w != u
    case _ => true
  }

  /** Writes to use-case rows, cursors, history and surroundings only. */
  lemma RowsLeaveAlone(d: Db, e: Db, u: Id, a: Id)
    requires u in d.useCases && IsAiiaOf(d.assessments, u, a) && SameScope(d, e, u)
    requires e.assessments == d.assessments && e.items == d.items && e.controlLinks == d.controlLinks
    ensures Undisturbed(d, e, u, a)
  {
  }

  /** Status changes of assessments. */
  lemma StatusLeavesAlone(d: Db, e: Db, u: Id, a: Id, b: Id, change: StatusChange)
    requires u in d.useCases && IsAiiaOf(d.assessments, u, a) && SameScope(d, e, u) && b in d.assessments
    requires e.assessments == d.assessments[b := Changed(d.assessments[b], change)]
    requires e.items == d.items && e.controlLinks == d.controlLinks
    ensures Undisturbed(d, e, u, a)
  {
  }

  /** Writes to items and links of other use cases, and removals. */
  lemma ItemsLeaveAlone(d: Db, e: Db, u: Id, a: Id)
    requires u in d.useCases && IsAiiaOf(d.assessments, u, a) && SameScope(d, e, u) && e.assessments == d.assessments
    requires forall i | i in e.items && e.items[i].assessment in d.assessments && d.assessments[e.items[i].assessment].useCase == u ::
               i in d.items && d.items[i] == e.items[i]
    requires LinksStay(d, e)
    ensures Undisturbed(d, e, u, a)
  {
  }

  lemma NewAssessmentLeavesAlone(d: Db, u: Id, a: Id, row: Assessment,
                                 sections: nat, facts: seq<string>, risks: seq<Id>, action: Action)
    requires Inv(d) && u in d.useCases && IsAiiaOf(d.assessments, u, a) && row.useCase != u
    ensures Undisturbed(d, WithAssessment(d, row, sections, facts, risks, action), u, a)
  {
    hide Consistent;
    var e := WithAssessment(d, row, sections, facts, risks, action);
    var rows := Prefill(d.nextId, row.kind, sections, facts, risks);
    InsertedRows(d.items, d.nextId + 1, rows);
    FreshRows(d);
    assert forall k | 0 <= k < |rows| :: rows[k].assessment == d.nextId;
    forall i | ItemOf(e, u, i) ensures ItemOf(d, u, i) && e.items[i] == d.items[i] { }
  }

  lemma FreshRows(d: Db)
    requires Inv(d)
    ensures Below(d.assessments, d.nextId) && Below(d.items, d.nextId)
    ensures Below(d.controlLinks, d.nextId) && Below(d.useCases, d.nextId)
    ensures forall i | i in d.items :: d.items[i].assessment in d.assessments
    ensures forall l | l in d.controlLinks :: d.controlLinks[l].item in d.items
  {
    forall i | i in d.items ensures d.items[i].assessment in d.assessments {
      assert ItemOk(d.items[i], i, d.assessments.Keys, d.audit);
    }
  }

  /** A new assessment of this use case would be a second AIIA or a feeder of this one. */
  lemma CreationsLeaveAlone(d: Db, call: Call, u: Id, a: Id)
    requires Inv(d) && Locked(d, u, a) && u in d.useCases && (call.NewAiia? || call.NewFeeder?) && LeavesAlone(d, call, u, a)
    ensures Undisturbed(d, CommitAssessmentCall(d, call), u, a)
  {
    RowsLeaveAlone(d, d, u, a);
    assert IsAiiaOf(d.assessments, u, a);
    assert RowOk(d.assessments, d.useCases.Keys, d.assessments[a]);
    hide Consistent, WithAssessment, Undisturbed;
    match call {
      case NewAiia(w, sections, facts, risks) =>
        if AiiaCreated(d, w, sections, facts, risks).error.None? {
          NewAssessmentLeavesAlone(d, u, a, NewAssessment(w, Aiia, None, d.useCases[w].euTier),
                                   sections, facts, risks, AssessmentCreated);
        }
      case NewFeeder(p, kind, sections, facts, risks) =>
        if FeederAdded(d, p, kind, sections, facts, risks).error.None? {
          OtherAiia(d, u, a, p);
          var parent := d.assessments[p];
          NewAssessmentLeavesAlone(d, u, a, NewAssessment(parent.useCase, kind, Some(p), parent.tierSnapshot),
                                   sections, facts, risks, Action.FeederCreated);
        }
    }
  }

  lemma OtherAiia(d: Db, u: Id, a: Id, p: Id)
    requires Inv(d) && IsAiiaOf(d.assessments, u, a) && p in d.assessments && d.assessments[p].kind.Aiia? && p != a
    ensures d.assessments[p].useCase != u
  {
    assert RowOk(d.assessments, d.useCases.Keys, d.assessments[p]);
    assert d.assessments[p].useCase == u ==> IsAiiaOf(d.assessments, u, p);
  }

  /** The assessment that a locked write goes to. */
  function Target(d: Db, call: Call): Id
    requires call.NewItem? || ((call.LinkControl? || call.LinkEvidence?) && call.item in d.items)
  {
    if call.NewItem? then call.assessment else d.items[call.item].assessment
  }

  /** A locked write that goes through goes to an unlocked assessment, and touches its items alone. */
  lemma LockedWriteIsElsewhere(d: Db, call: Call)
    requires Below(d.items, d.nextId) && Below(d.controlLinks, d.nextId)
    requires call.NewItem? || call.LinkControl? || call.LinkEvidence?
    ensures var e := CommitAssessmentCall(d, call);
            e != d ==>
              && (call.NewItem? || call.item in d.items)
              && Target(d, call) in d.assessments && !AuthoringLocked(d.assessments, Target(d, call))
              && e.assessments == d.assessments && e.world == d.world && e.useCases == d.useCases
              && (forall i | i in e.items && e.items[i].assessment != Target(d, call) :: i in d.items && d.items[i] == e.items[i])
              && LinksStay(d, e)
  {
  }

  /** The locked writes: on an item of this use case they are refused. */
  lemma LockedWritesLeaveAlone(d: Db, call: Call, u: Id, a: Id)
    requires Inv(d) && Locked(d, u, a) && u in d.useCases
    requires call.NewItem? || call.LinkControl? || call.LinkEvidence?
    ensures Undisturbed(d, CommitAssessmentCall(d, call), u, a)
  {
    FreshRows(d);
    var e := CommitAssessmentCall(d, call);
    hide Inv, Undisturbed, CommitAssessmentCall, AuthoringLocked;
    RowsLeaveAlone(d, d, u, a);
    LockedWriteIsElsewhere(d, call);
    if e != d {
      if d.assessments[Target(d, call)].useCase == u { LockReachesAll(d, u, a, Target(d, call)); }
      ItemsLeaveAlone(d, e, u, a);
    }
  }

  /** Deletions: `delete_item` is not locked, but can only make the gates pass. */
  lemma DeletionsLeaveAlone(d: Db, call: Call, u: Id, a: Id)
    requires Inv(d) && Locked(d, u, a) && u in d.useCases && LeavesAlone(d, call, u, a)
    requires call.RemoveItem? || call.RemoveAssessment? || call.UnlinkEvidence?
    ensures Undisturbed(d, CommitAssessmentCall(d, call), u, a)
  {
    RowsLeaveAlone(d, d, u, a);
    hide Inv, Undisturbed;
    if call.RemoveItem? {
      ItemRemovalLeavesAlone(d, call.item, u, a);
    } else if call.RemoveAssessment? {
      RemovalLeavesAlone(d, call.assessment, u, a);
    } else {
      RowsLeaveAlone(d, EvidenceUnlinkedFrom(d, call.link), u, a);
    }
  }

  lemma ItemRemovalLeavesAlone(d: Db, i: Id, u: Id, a: Id)
    requires u in d.useCases && IsAiiaOf(d.assessments, u, a)
    ensures Undisturbed(d, ItemDeletedFrom(d, i).db, u, a)
  {
  }

  /** A submitted AIIA is not pristine, so another assessment is removed, and not one of its feeders. */
  lemma RemovalLeavesAlone(d: Db, b: Id, u: Id, a: Id)
    requires Locked(d, u, a) && u in d.useCases && (b in d.assessments ==> d.assessments[b].parent != Some(a))
    ensures Undisturbed(d, AssessmentDeletedFrom(d, b).db, u, a)
  {
  }

  lemma SubmitLeavesAlone(seen: Db, d: Db, b: Id, expected: nat, actor: User, u: Id, a: Id)
    requires u in d.useCases && IsAiiaOf(d.assessments, u, a)
    ensures Undisturbed(d, SubmitSeen(seen, d, b, expected, actor), u, a)
  {
  }

  lemma DecideLeavesAlone(seen: Db, d: Db, b: Id, decision: ReviewDecision, note: Option<string>, expected: nat, actor: User,
                          u: Id, a: Id)
    requires u in d.useCases && IsAiiaOf(d.assessments, u, a)
    ensures Undisturbed(d, DecideSeen(seen, d, b, decision, note, expected, actor), u, a)
  {
    var e := DecideSeen(seen, d, b, decision, note, expected, actor);
    hide Undisturbed, Advanced, FullVector;
    if e == d { RowsLeaveAlone(d, d, u, a); }
    else { StatusLeavesAlone(d, e, u, a, b, Decision(decision, actor)); }
  }

  lemma ReopenLeavesAlone(d: Db, b: Id, expected: nat, u: Id, a: Id)
    requires u in d.useCases && IsAiiaOf(d.assessments, u, a)
    ensures Undisturbed(d, ReopenedBy(d, b, expected).db, u, a)
  {
  }

  /** Nothing but use-case rows, cursors, history and clearances changed. */
  predicate RowsOnly(d: Db, e: Db) {
    && e.assessments == d.assessments && e.items == d.items && e.controlLinks == d.controlLinks && e.world.systems == d.world.systems
    && forall w {:trigger e.useCases[w]} | w in d.useCases ::
         && w in e.useCases && e.useCases[w].system == d.useCases[w].system
         && e.useCases[w].dataCategories == d.useCases[w].dataCategories
  }

  lemma SnapshotFrame(d: Db, u: Id, tier: Tier, status: ClassificationStatus, stamp: bool)
    requires u in d.useCases
    ensures RowsOnly(d, Snapshotted(d, u, tier, status, stamp))
  {
  }

  lemma RegisterFrame(d: Db, system: Id, categories: seq<bool>, tier: Tier, status: ClassificationStatus, stamp: bool)
    requires Below(d.useCases, d.nextId)
    ensures RowsOnly(d, Registered(d, system, categories, tier, status, stamp).db)
  {
    SnapshotFrame(WithNewUseCase(d, system, categories), d.nextId, tier, status, stamp);
    hide Snapshotted;
    assert RowsOnly(d, WithNewUseCase(d, system, categories));
  }

  lemma ContextFrame(d: Db, u: Id, outcome: ContextResolver.Resolution, override: Option<Tier>)
    ensures RowsOnly(d, ContextRecorded(d, u, outcome, override).db)
  {
    if u in d.useCases && outcome.Outcome? && outcome.tier.Some? {
      SnapshotFrame(d, u, StoredTier(outcome.tier.value, override), PendingReview, false);
    }
    hide Snapshotted;
  }

  lemma SignOffFrame(d: Db, u: Id)
    ensures RowsOnly(d, SignedOffBy(d, u).db)
  {
    hide Advanced, FullVector, SignOffCurrent, CurrentSnapshot;
  }

  lemma SelfFrame(d: Db)
    ensures RowsOnly(d, d)
  {
  }

  lemma TransitionFrame(d: Db, u: Id, read: LifecycleState, event: Event, target: LifecycleState)
    requires u in d.useCases
    ensures RowsOnly(d, Transitioned(d, u, read, event, target).db)
  {
  }

  lemma AuthoriseFrame(seen: Db, d: Db, u: Id, actor: User)
    ensures RowsOnly(d, AuthoriseSeen(seen, d, u, actor))
  {
  }

  lemma ReEvaluateFrame(d: Db, u: Id)
    requires u in d.useCases
    ensures RowsOnly(d, ReEvaluated(d, u).db)
  {
  }

  lemma VendorFrame(d: Db, vendor: Id, clearance: ApprovalStatus, until: Option<int>)
    ensures RowsOnly(d, VendorApproved(d, vendor, clearance, until))
  {
  }

  lemma ProductFrame(d: Db, product: Id, clearance: ApprovalStatus, until: Option<int>)
    ensures RowsOnly(d, ProductApproved(d, product, clearance, until))
  {
  }

  lemma RowsOnlyLeavesAlone(d: Db, e: Db, u: Id, a: Id)
    requires u in d.useCases && IsAiiaOf(d.assessments, u, a) && RowsOnly(d, e)
    ensures Undisturbed(d, e, u, a)
  {
    assert e.useCases[u].system == d.useCases[u].system;
    RowsLeaveAlone(d, e, u, a);
  }

  /** Writes to an item of another use case. */
  lemma PatchLeavesAlone(d: Db, i: Id, content: Authoring, treatment: Treatment, w: Id, u: Id, a: Id)
    requires u in d.useCases && IsAiiaOf(d.assessments, u, a) && i in d.items && !ItemOf(d, u, i) && w in d.useCases
    ensures Undisturbed(d, PatchWritten(d, i, content, treatment, w), u, a)
  {
    hide Advanced, FullVector;
  }

  /** A ready use case has no proposal left to confirm. */
  lemma ConfirmLeavesAlone(seen: Db, d: Db, i: Id, expected: nat, u: Id, a: Id)
    requires Ready(d, u) && IsAiiaOf(d.assessments, u, a)
    ensures Undisturbed(d, ConfirmSeen(seen, d, i, expected), u, a)
  {
    RowsLeaveAlone(d, d, u, a);
    if i in d.items && d.items[i].provenance.AiSuggested? { assert !ItemOf(d, u, i); }
    hide Advanced, FullVector, StructuralReadiness, TreatmentGate;
  }

  lemma LateCallsLeaveAlone(seen: Db, d: Db, call: Call, u: Id, a: Id)
    requires Ready(d, u) && IsAiiaOf(d.assessments, u, a) && IsLateCall(call) && LeavesAlone(d, call, u, a)
    ensures Undisturbed(d, CommitLateCall(seen, d, call), u, a)
  {
    SelfFrame(d);
    hide Undisturbed, RowsOnly, SubmitSeen, DecideSeen, AuthoriseSeen, ConfirmSeen, PatchWritten, Transitioned, StructurallyReady,
         FullyTreated;
    var e := CommitLateCall(seen, d, call);
    match call {
      case Submit(b, expected, actor) => SubmitLeavesAlone(seen, d, b, expected, actor, u, a);
      case Decide(b, decision, note, expected, actor) => DecideLeavesAlone(seen, d, b, decision, note, expected, actor, u, a);
      case Authorise(w, actor) =>
        AuthoriseFrame(seen, d, w, actor);
        RowsOnlyLeavesAlone(d, e, u, a);
      case Amend(i, content, treatment, _) =>
        if e == d { RowsLeaveAlone(d, d, u, a); }
        else { PatchLeavesAlone(d, i, content, treatment, ItemUseCase(seen, i), u, a); }
      case Confirm(i, expected) => ConfirmLeavesAlone(seen, d, i, expected, u, a);
      case EngineHop(w, _, event, target) =>
        if e != d { TransitionFrame(d, w, seen.useCases[w].cursor.state, event, target); }
        RowsOnlyLeavesAlone(d, e, u, a);
    }
  }

  lemma OtherCallsLeaveAlone(d: Db, call: Call, u: Id, a: Id)
    requires Below(d.useCases, d.nextId) && u in d.useCases && IsAiiaOf(d.assessments, u, a)
    requires !IsLateCall(call) && !IsAssessmentCall(call) && LeavesAlone(d, call, u, a)
    ensures Undisturbed(d, CommitOtherCall(d, call), u, a)
  {
    SelfFrame(d);
    hide Undisturbed, Registered, Snapshotted, ContextRecorded, SignedOffBy, ReopenedBy, ReEvaluated, VendorApproved,
         ProductApproved;
    var e := CommitOtherCall(d, call);
    match call {
      case Register(system, categories, tier, status, stamp) => RegisterFrame(d, system, categories, tier, status, stamp);
      case Reclassify(w, tier, status, stamp) => if w in d.useCases { SnapshotFrame(d, w, tier, status, stamp); }
      case RecordContext(w, outcome, override) => ContextFrame(d, w, outcome, override);
      case SignOff(w) => SignOffFrame(d, w);
      case ReEvaluate(w) => if w in d.useCases { ReEvaluateFrame(d, w); }
      case Reopen(b, expected) => ReopenLeavesAlone(d, b, expected, u, a);
      case SetVendor(vendor, clearance, until) => VendorFrame(d, vendor, clearance, until);
      case SetProduct(product, clearance, until) => ProductFrame(d, product, clearance, until);
      case Environment(world) => RowsLeaveAlone(d, e, u, a);
      case Categorise(w, categories) => RowsLeaveAlone(d, e, u, a);
    }
    if !call.Reopen? && !call.Environment? && !call.Categorise? { RowsOnlyLeavesAlone(d, e, u, a); }
  }

  lemma AssessmentCallsLeaveAlone(d: Db, call: Call, u: Id, a: Id)
    requires Inv(d) && Locked(d, u, a) && u in d.useCases && IsAssessmentCall(call) && LeavesAlone(d, call, u, a)
    ensures Undisturbed(d, CommitAssessmentCall(d, call), u, a)
  {
    hide Inv, Locked, Undisturbed, CommitAssessmentCall;
    if call.NewAiia? || call.NewFeeder? {
      CreationsLeaveAlone(d, call, u, a);
    } else if call.RemoveItem? || call.RemoveAssessment? || call.UnlinkEvidence? {
      DeletionsLeaveAlone(d, call, u, a);
    } else {
      LockedWritesLeaveAlone(d, call, u, a);
    }
  }

  /** With the AIIA locked, every other call leaves readiness as it is. */
  lemma CallKeepsReadiness(seen: Db, now: Db, call: Call, u: Id, a: Id)
    requires Inv(seen) && Inv(now) && Evolves(seen, now) && Enabled(seen, now, call)
    requires Ready(now, u) && Locked(now, u, a) && LeavesAlone(now, call, u, a)
    ensures Ready(Commit(seen, now, call), u)
  {
    StepKeeps(seen, now, call);
    FreshRows(now);
    var e := Commit(seen, now, call);
    assert OneAiia(e.assessments);
    hide Inv, CommitLateCall, CommitAssessmentCall, CommitOtherCall, Undisturbed, Enabled, StructurallyReady, FullyTreated,
         LeavesAlone;
    if IsLateCall(call) {
      LateCallsLeaveAlone(seen, now, call, u, a);
    } else if IsAssessmentCall(call) {
      AssessmentCallsLeaveAlone(now, call, u, a);
    } else {
      OtherCallsLeaveAlone(now, call, u, a);
    }
    ReadinessSurvives(now, e, u, a);
  }
}
