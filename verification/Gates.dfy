/** The gate predicates (app/services/lifecycle_gates.py): pure reads of the database. */
module Gates {
  import opened Vocabulary
  import opened Lifecycle
  import opened Store

  datatype ReasonCode =
    | NotApplicableHere | NotStartedYet | ApprovalIs(status: ApprovalStatus) | ApprovalExpired | ApprovalValid
    | NoSnapshot | ProhibitedPractice | TierNotRatified | TierRatified
    | NoAiia | RequiredFeederMissing | UndispositionedRisk | StructurallyComplete
    | AssessmentNotApproved | AssessmentApproved
    | TreatmentIncomplete | TreatmentComplete
    | NoCurrentAuthorisation | AuthorisedForCycle

  datatype GateResult = GateResult(verdict: Verdict, code: ReasonCode)

  function ApprovalVerdict(approval: Option<Approval>, now: int): GateResult {
    match approval
    case None => GateResult(Parks, NotStartedYet)
    case Some(a) =>
      if !a.status.Cleared? then GateResult(Parks, ApprovalIs(a.status))
      else if a.validUntil.Some? && a.validUntil.value < now then GateResult(Parks, ApprovalExpired)
      else GateResult(Advances, ApprovalValid)
  }

  function Lookup<V>(m: map<Id, V>, k: Id): Option<V> {
    if k in m then Some(m[k]) else None
  }

  function VendorGate(d: Db, u: Id): GateResult
    requires u in d.useCases
  {
    var sys := Lookup(d.world.systems, d.useCases[u].system);
    if sys.None? || sys.value.vendor.None? then GateResult(Advances, NotApplicableHere)
    else ApprovalVerdict(Lookup(d.world.vendorApprovals, sys.value.vendor.value), d.world.now)
  }

  function ProductGate(d: Db, u: Id): GateResult
    requires u in d.useCases
  {
    var sys := Lookup(d.world.systems, d.useCases[u].system);
    if sys.None? || sys.value.product.None? then GateResult(Advances, NotApplicableHere)
    else ApprovalVerdict(Lookup(d.world.productApprovals, sys.value.product.value), d.world.now)
  }

  /** The first row flagged current. The partial unique index admits at most one. */
  function CurrentSnapshot(cs: seq<Classification>): (r: Option<Classification>)
    ensures r.Some? ==> r.value in cs && r.value.isCurrent
    ensures r.None? ==> forall c | c in cs :: !c.isCurrent
  {
    if |cs| == 0 then None
    else if cs[0].isCurrent then Some(cs[0])
    else CurrentSnapshot(cs[1..])
  }

  function ClassificationReadiness(d: Db, u: Id): GateResult
    requires u in d.useCases
  {
    var snapshot := CurrentSnapshot(d.useCases[u].classifications);
    if snapshot.None? then GateResult(Parks, NoSnapshot)
    else if snapshot.value.tier.Prohibited? then GateResult(Halts, ProhibitedPractice)
    else if d.useCases[u].euTier in {RequiresContext, Unclassified} then GateResult(Parks, TierNotRatified)
    else GateResult(Advances, TierRatified)
  }

  predicate IsAiiaOf(assessments: map<Id, Assessment>, u: Id, a: Id) {
    a in assessments && assessments[a].useCase == u && assessments[a].kind.Aiia? && assessments[a].parent.None?
  }

  /** The AIIA of a use case. The queries take whichever row comes first; on every reachable
      database there is at most one. */
  ghost function AiiaOf(assessments: map<Id, Assessment>, u: Id): (r: Option<Id>)
    ensures r.Some? ==> IsAiiaOf(assessments, u, r.value)
    ensures r.None? ==> forall a | a in assessments :: !IsAiiaOf(assessments, u, a)
  {
    if exists a | a in assessments :: IsAiiaOf(assessments, u, a)
    then var a :| a in assessments && IsAiiaOf(assessments, u, a); Some(a)
    else None
  }

  /** At most one AIIA per use case. */
  ghost predicate OneAiia(assessments: map<Id, Assessment>) {
    forall u, a, b {:trigger IsAiiaOf(assessments, u, a), IsAiiaOf(assessments, u, b)} ::
      IsAiiaOf(assessments, u, a) && IsAiiaOf(assessments, u, b) ==> a == b
  }

  // --- Structural readiness --------------------------------------------------------------

  predicate FeederExists(d: Db, aiia: Id, kind: AssessmentType) {
    exists f | f in d.assessments :: d.assessments[f].parent == Some(aiia) && d.assessments[f].kind == kind
  }

  /** What the feeder recommendation says of one feeder type. */
  function FeederApplicability(d: Db, aiia: Id, kind: AssessmentType): Applicability
    requires aiia in d.assessments
  {
    var row := d.assessments[aiia];
    var useCase := Lookup(d.useCases, row.useCase);
    var sys := if useCase.Some? then Lookup(d.world.systems, useCase.value.system) else None;
    var isHigh := row.tierSnapshot.High?;
    var isDeployer := sys.Some? && sys.value.isDeployer;
    var categories := if useCase.Some? then useCase.value.dataCategories else [];
    match kind
    case Fria => if isHigh && isDeployer then Required else if isHigh then Recommended else NotApplicable
    case Dpia => if isHigh && true in categories then Required else if |categories| > 0 then Recommended else NotApplicable
    case _ => Recommended
  }

  predicate FeederMissing(d: Db, aiia: Id, kind: AssessmentType)
    requires aiia in d.assessments
  {
    FeederApplicability(d, aiia, kind).Required? && !FeederExists(d, aiia, kind)
  }

  /** The item belongs to an assessment (AIIA or feeder) of this use case. */
  predicate ItemOf(d: Db, u: Id, i: Id) {
    i in d.items && d.items[i].assessment in d.assessments && d.assessments[d.items[i].assessment].useCase == u
  }

  function StructuralReadiness(d: Db, u: Id, aiia: Option<Id>): GateResult
    requires u in d.useCases && (aiia.Some? ==> aiia.value in d.assessments)
  {
    if aiia.None? then GateResult(Parks, NoAiia)
    else if exists kind | kind in [Fria, Dpia, ModelRisk] :: FeederMissing(d, aiia.value, kind)
    then GateResult(Parks, RequiredFeederMissing)
    else if exists i | i in d.items :: ItemOf(d, u, i) && d.items[i].provenance.AiSuggested?
    then GateResult(Parks, UndispositionedRisk)
    else GateResult(Advances, StructurallyComplete)
  }

  function ApprovedBySomeone(d: Db, aiia: Option<Id>): GateResult
    requires aiia.Some? ==> aiia.value in d.assessments
  {
    if aiia.None? || !d.assessments[aiia.value].status.Approved?
    then GateResult(Parks, AssessmentNotApproved)
    else GateResult(Advances, AssessmentApproved)
  }

  function AssessmentGate(d: Db, u: Id, aiia: Option<Id>): GateResult
    requires u in d.useCases && (aiia.Some? ==> aiia.value in d.assessments)
  {
    var structural := StructuralReadiness(d, u, aiia);
    if !structural.verdict.Advances? then structural else ApprovedBySomeone(d, aiia)
  }

  // --- Treatment -------------------------------------------------------------------------

  predicate Dispositioned(p: Provenance) {
    p.UserConfirmed? || p.UserAmended?
  }

  /** A dispositioned risk item of the use case: the rows the treatment gate looks at. */
  predicate RiskItemOf(d: Db, u: Id, i: Id) {
    ItemOf(d, u, i) && d.items[i].risk.Some? && Dispositioned(d.items[i].provenance)
  }

  predicate HasControlLink(d: Db, i: Id) {
    exists l | l in d.controlLinks :: d.controlLinks[l].item == i
  }

  /** MITIGATE needs a control link or a plan, ACCEPT a rationale; the other decisions need nothing. */
  predicate TreatedRow(row: Item, linked: bool) {
    match row.treatment.decision
    case None => false
    case Some(Mitigate) => linked || NonBlank(row.content.mitigationPlan)
    case Some(Accept) => NonBlank(row.treatment.rationale)
    case Some(_) => true
  }

  predicate Treated(d: Db, i: Id)
    requires i in d.items
  {
    TreatedRow(d.items[i], HasControlLink(d, i))
  }

  function TreatmentGate(d: Db, u: Id): GateResult {
    if forall i | i in d.items :: RiskItemOf(d, u, i) ==> Treated(d, i)
    then GateResult(Advances, TreatmentComplete)
    else GateResult(Parks, TreatmentIncomplete)
  }

  // --- Authorisation ---------------------------------------------------------------------

  /** The ATO belongs to the use case and to this submission round; nothing else is compared. */
  predicate Matches(t: Ato, u: Id, round: nat) {
    t.useCase == u && t.round == round
  }

  function AuthorisationGate(d: Db, u: Id, aiia: Option<Id>): GateResult
    requires aiia.Some? ==> aiia.value in d.assessments
  {
    var approved := ApprovedBySomeone(d, aiia);
    if !approved.verdict.Advances? then approved
    else if exists t | t in d.atos :: Matches(t, u, d.assessments[aiia.value].submissionRound)
    then GateResult(Advances, AuthorisedForCycle)
    else GateResult(Parks, NoCurrentAuthorisation)
  }

  // --- The whole vector ------------------------------------------------------------------

  /** Every positional gate, evaluated independently and in canonical order. */
  function GateResults(d: Db, u: Id, aiia: Option<Id>): (r: seq<GateResult>)
    requires u in d.useCases && (aiia.Some? ==> aiia.value in d.assessments)
    ensures |r| == 6
  {
    [VendorGate(d, u), ProductGate(d, u), ClassificationReadiness(d, u),
     AssessmentGate(d, u, aiia), TreatmentGate(d, u), AuthorisationGate(d, u, aiia)]
  }

  function Verdicts(d: Db, u: Id, aiia: Option<Id>): Vector
    requires u in d.useCases && (aiia.Some? ==> aiia.value in d.assessments)
  {
    var r := GateResults(d, u, aiia);
    [r[0].verdict, r[1].verdict, r[2].verdict, r[3].verdict, r[4].verdict, r[5].verdict]
  }

  ghost function FullVector(d: Db, u: Id): Vector
    requires u in d.useCases
  {
    Verdicts(d, u, AiiaOf(d.assessments, u))
  }

  ghost predicate StructurallyReady(d: Db, u: Id)
    requires u in d.useCases
  {
    StructuralReadiness(d, u, AiiaOf(d.assessments, u)).verdict.Advances?
  }

  ghost predicate FullyTreated(d: Db, u: Id) {
    TreatmentGate(d, u).verdict.Advances?
  }

  /** With one AIIA per use case, the choice of row is no choice. */
  lemma AiiaIsUnique(assessments: map<Id, Assessment>, u: Id, a: Id)
    requires OneAiia(assessments) && IsAiiaOf(assessments, u, a)
    ensures AiiaOf(assessments, u) == Some(a)
  {
  }

  // --- What the gates do not read --------------------------------------------------------

  /** The database with another cursor on one use case. */
  function WithCursor(d: Db, u: Id, c: Cursor): Db
    requires u in d.useCases
  {
    d.(useCases := d.useCases[u := d.useCases[u].(cursor := c)])
  }

  /** What the classification, assessment and treatment gates read: the row's system, tier,
      categories and snapshots, and the assessment tables. Neither cursors nor reviews, ATOs, audit
      rows or clearances are among it. */
  lemma MiddleGatesRead(d: Db, e: Db, u: Id)
    requires u in d.useCases && u in e.useCases && e.useCases[u].(cursor := d.useCases[u].cursor) == d.useCases[u]
    requires e.assessments == d.assessments && e.items == d.items && e.controlLinks == d.controlLinks
    requires e.world.systems == d.world.systems
    ensures var aiia := AiiaOf(d.assessments, u);
            && ClassificationReadiness(e, u) == ClassificationReadiness(d, u)
            && AssessmentGate(e, u, aiia) == AssessmentGate(d, u, aiia) && TreatmentGate(e, u) == TreatmentGate(d, u)
  {
  }

  /** No gate of any use case reads what a transition writes. */
  lemma GatesIgnoreCursors(d: Db, u: Id, c: Cursor, w: Id)
    requires u in d.useCases && w in d.useCases
    ensures FullVector(WithCursor(d, u, c), w) == FullVector(d, w)
  {
    MiddleGatesRead(d, WithCursor(d, u, c), w);
  }
}
