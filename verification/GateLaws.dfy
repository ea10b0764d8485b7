/** Every gate and every legal transition, read off the rows: what has to be there for a gate to pass, and
    where a use case rests for given verdicts. */
module GateLaws {
  import opened Vocabulary
  import opened Lifecycle
  import opened Store
  import opened Gates
  import opened Invariants
  import opened LifecycleService

  // --- Clearances ---------------------------------------------------------------------------------

  /** The clearance is there, given, and not past its date. */
  predicate InForce(approvals: map<Id, Approval>, k: Id, now: int) {
    k in approvals && approvals[k].status == Cleared && (approvals[k].validUntil.None? || now <= approvals[k].validUntil.value)
  }

  /** A use case passes the vendor gate exactly when its system names no vendor or one whose clearance is
      in force; the product gate likewise. */
  lemma ClearanceGatesIff(d: Db, u: Id)
    requires Inv(d) && u in d.useCases
    ensures d.useCases[u].system in d.world.systems
    ensures var sys := d.world.systems[d.useCases[u].system];
            && (FullVector(d, u)[0].Advances? <==>
                sys.vendor.Some? ==> InForce(d.world.vendorApprovals, sys.vendor.value, d.world.now))
            && (FullVector(d, u)[1].Advances? <==>
                sys.product.Some? ==> InForce(d.world.productApprovals, sys.product.value, d.world.now))
  {
  }

  // --- Classification ---------------------------------------------------------------------------------

  lemma {:induction false} CurrentIsNewest(cs: seq<Classification>)
    requires SnapshotsOk(cs)
    ensures CurrentSnapshot(cs) == if cs == [] then None else Some(cs[|cs| - 1])
  {
    if cs != [] {
      var c := CurrentSnapshot(cs);
      assert cs[|cs| - 1] in cs;
      var k :| 0 <= k < |cs| && cs[k] == c.value;
    }
  }

  /** The intake gate passes exactly when the newest snapshot prohibits nothing and the ratified tier is a
      real one; it halts exactly on a prohibited newest snapshot. */
  lemma IntakeGateIff(d: Db, u: Id)
    requires Inv(d) && u in d.useCases
    ensures var cs, gate := d.useCases[u].classifications, FullVector(d, u)[2];
            && (gate.Advances? <==> cs != [] && cs[|cs| - 1].tier != Prohibited && Storable(d.useCases[u].euTier))
            && (gate.Halts? <==> cs != [] && cs[|cs| - 1].tier == Prohibited)
  {
    assert SnapshotsOk(d.useCases[u].classifications);
    CurrentIsNewest(d.useCases[u].classifications);
  }

  // --- Assessment and treatment ------------------------------------------------------------------------

  /** The structure of a use case with this AIIA is complete exactly when there is a FRIA for a high-risk use
      by a deployer, a DPIA for a high-risk use of special categories of data, and no proposal left in the
      AIIA or its feeders. */
  lemma StructureIff(d: Db, u: Id, a: Id)
    requires Inv(d) && u in d.useCases && d.useCases[u].system in d.world.systems
    requires a in d.assessments && d.assessments[a].useCase == u && d.assessments[a].kind == Aiia
    ensures StructurallyReady(d, u) <==>
            && (d.assessments[a].tierSnapshot == High && d.world.systems[d.useCases[u].system].isDeployer ==>
                  exists f | f in d.assessments :: d.assessments[f].parent == Some(a) && d.assessments[f].kind == Fria)
            && (d.assessments[a].tierSnapshot == High && true in d.useCases[u].dataCategories ==>
                  exists f | f in d.assessments :: d.assessments[f].parent == Some(a) && d.assessments[f].kind == Dpia)
            && forall i | i in d.items && d.items[i].assessment in d.assessments && d.assessments[d.items[i].assessment].useCase == u ::
                 d.items[i].provenance != AiSuggested
  {
    assert RowOk(d.assessments, d.useCases.Keys, d.assessments[a]);
    AiiaIsUnique(d.assessments, u, a);
    hide Inv;
    assert FeederMissing(d, a, ModelRisk) == false;
    assert forall kind | kind in [Fria, Dpia, ModelRisk] :: kind == Fria || kind == Dpia || kind == ModelRisk;
    assert Fria in [Fria, Dpia, ModelRisk] && Dpia in [Fria, Dpia, ModelRisk];
  }

  /** Without an AIIA there is no structure. */
  lemma NoAiiaNoStructure(d: Db, u: Id)
    requires u in d.useCases && forall a | a in d.assessments :: d.assessments[a].useCase != u || d.assessments[a].kind != Aiia
    ensures !StructurallyReady(d, u)
  {
  }

  /** The treatment is complete exactly when every confirmed or amended risk has a decision, with a control
      or a plan where it is to be mitigated, and with a reason where it is accepted. */
  lemma TreatmentIff(d: Db, u: Id)
    requires Inv(d)
    ensures FullyTreated(d, u) <==>
            forall i | i in d.items && d.items[i].assessment in d.assessments && d.assessments[d.items[i].assessment].useCase == u
                       && d.items[i].risk.Some? && d.items[i].provenance in {UserConfirmed, UserAmended} ::
              && d.items[i].treatment.decision.Some?
              && (d.items[i].treatment.decision == Some(Mitigate) ==>
                    (exists l | l in d.controlLinks :: d.controlLinks[l].item == i) || NonBlank(d.items[i].content.mitigationPlan))
              && (d.items[i].treatment.decision == Some(Accept) ==> NonBlank(d.items[i].treatment.rationale))
  {
  }

  /** Spaces, tabs and line ends alone are no text. */
  lemma NonBlankIff(text: Option<string>)
    ensures NonBlank(text) <==>
            text.Some? && exists c | c in text.value :: c !in {' ', '\t', '\n', '\r', '\U{000B}', '\U{000C}'}
  {
    if text.Some? {
      if c :| c in text.value && c !in {' ', '\t', '\n', '\r', '\U{000B}', '\U{000C}'} {
        var k :| 0 <= k < |text.value| && text.value[k] == c;
        assert !IsSpace(text.value[k]);
      }
      if k :| 0 <= k < |text.value| && !IsSpace(text.value[k]) { assert text.value[k] in text.value; }
    }
  }

  /** The assessment gate asks for the structure and an approved AIIA, the treatment gate for the treatment. */
  lemma LastGatesIff(d: Db, u: Id, a: Id)
    requires Inv(d) && u in d.useCases && IsAiiaOf(d.assessments, u, a)
    ensures FullVector(d, u)[3].Advances? <==> StructurallyReady(d, u) && d.assessments[a].status == Approved
    ensures FullVector(d, u)[4].Advances? <==> FullyTreated(d, u)
    ensures FullVector(d, u)[5].Advances? <==>
            d.assessments[a].status == Approved
            && exists t | t in d.atos :: t.useCase == u && t.round == d.assessments[a].submissionRound
  {
    AiiaIsUnique(d.assessments, u, a);
    hide StructuralReadiness, TreatmentGate;
  }

  // --- Reasons -------------------------------------------------------------------------------------------

  /** What a clearance gate answers names the one thing that is wrong with the clearance. */
  lemma ClearanceReasons(approvals: map<Id, Approval>, k: Id, now: int)
    ensures var code := ApprovalVerdict(Lookup(approvals, k), now).code;
            && (code == ApprovalValid <==> InForce(approvals, k, now))
            && (code == NotStartedYet <==> k !in approvals)
            && (code == ApprovalExpired <==> k in approvals && approvals[k].status == Cleared && !InForce(approvals, k, now))
            && (code.ApprovalIs? <==> k in approvals && approvals[k].status != Cleared)
            && (code.ApprovalIs? ==> code.status == approvals[k].status)
  {
  }

  /** The reason for an incomplete structure is the first of: no AIIA, a required feeder, a proposal. */
  lemma StructureReasons(d: Db, u: Id, aiia: Option<Id>)
    requires u in d.useCases && (aiia.Some? ==> aiia.value in d.assessments)
    ensures var code := StructuralReadiness(d, u, aiia).code;
            && (code == NoAiia <==> aiia.None?)
            && (code == RequiredFeederMissing <==>
                aiia.Some? && (FeederMissing(d, aiia.value, Fria) || FeederMissing(d, aiia.value, Dpia)))
            && (code == StructurallyComplete <==> StructuralReadiness(d, u, aiia).verdict == Advances)
            && code in {NoAiia, RequiredFeederMissing, UndispositionedRisk, StructurallyComplete}
  {
  }

  // --- Where the gates put a use case ----------------------------------------------------------------------

  /** The target is the waiting state of the first gate that does not pass; when only the authorisation is
      missing, or nothing, it is PENDING_AUTHORISATION. */
  lemma TargetByGates(v: Vector)
    ensures Target(v) ==
            match (v[0], v[1], v[2], v[3], v[4])
            case (Advances, Advances, Advances, Advances, Advances) => PendingAuthorisation
            case (Advances, Advances, Advances, Advances, _) => TreatmentPending
            case (Advances, Advances, Advances, _, _) => UnderAssessment
            case (Advances, Advances, _, _, _) => Intake
            case (Advances, _, _, _, _) => ProductCheck
            case (_, _, _, _, _) => VendorCheck
  {
  }

  /** Advancing goes all the way: right after it there is nothing left to advance. */
  lemma AdvancedRests(d: Db, u: Id)
    requires u in d.useCases
    ensures var e := AutoAdvanced(d, u); AutoAdvanced(e, u) == e && FullVector(e, u) == FullVector(d, u)
  {
    var c, v := d.useCases[u].cursor, FullVector(d, u);
    GatesIgnoreCursors(d, u, Advanced(c, v), u);
    hide FullVector;
    WalkedRests(c, v);
    assert WithCursor(WithCursor(d, u, Advanced(c, v)), u, Advanced(c, v)) == WithCursor(d, u, Advanced(c, v));
  }

  lemma WalkedRests(c: Cursor, v: Vector)
    ensures Advanced(Advanced(c, v), v) == Advanced(c, v)
  {
    if !(!c.state.HaltedProhibited? && v[2].Halts?) && Ranked(c.state) {
      var n := RestRank(v, Rank(c.state).value);
      RestRankIsWhereTheWalkStops(v, Rank(c.state).value, n);
      RestRankIsWhereTheWalkStops(v, n, n);
      ClimbNowhere(Climb(c, n));
    }
  }

  /** A transition is written exactly when it is legal and the use case is still where it was read. */
  lemma TransitionGoesThroughIff(d: Db, u: Id, read: LifecycleState, event: Event, target: LifecycleState)
    requires u in d.useCases
    ensures var r := Transitioned(d, u, read, event, target);
            && (r.error == Some(IllegalTransition) <==> !IsLegal(read, event, target))
            && (r.error == Some(Conflict) <==> IsLegal(read, event, target) && d.useCases[u].cursor.state != read)
            && (r.error.Some? ==> r.error.value in {IllegalTransition, Conflict} && r.db == d)
            && (r.error.None? ==> r.db.useCases[u].cursor.state == target
                                  && r.db.useCases[u].cursor.log == d.useCases[u].cursor.log + [Edge(read, event, target)])
  {
  }

  /** Re-evaluation fails exactly on what is deployed or retired and not prohibited. */
  lemma ReEvaluationFailsIff(d: Db, u: Id)
    requires u in d.useCases
    ensures var r := ReEvaluated(d, u);
            && (r.error.Some? <==> d.useCases[u].cursor.state in {Deployed, Retired} && FullVector(d, u)[2] != Halts)
            && (r.error.Some? ==> r == Refuse(d, MissingRank))
  {
    hide FullVector;
  }

  const WAITING := {VendorCheck, ProductCheck, Intake, UnderAssessment, TreatmentPending, PendingAuthorisation}

  const STEPS := {(Requested, VendorCheck), (VendorCheck, ProductCheck), (ProductCheck, Intake), (Intake, UnderAssessment),
                  (UnderAssessment, TreatmentPending), (TreatmentPending, PendingAuthorisation)}

  /** The legal transitions: one step forward, a halt from anywhere else, a hold from a waiting state or from
      AUTHORISED, a restore into any of those, and the authorisation of what awaits it. */
  lemma LegalTransitionsIff(source: LifecycleState, event: Event, target: LifecycleState)
    ensures IsLegal(source, event, target) <==>
            match event
            case Created => (source, target) in STEPS
            case Advance => (source, target) in STEPS
            case Halt => target == HaltedProhibited && source != HaltedProhibited
            case Hold => target == Held && source in WAITING + {Authorised}
            case Restore => source == Held && target in WAITING + {Authorised}
            case Authorise => (source, target) == (PendingAuthorisation, Authorised)
  {
  }
}
