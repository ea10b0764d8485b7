/** The tenant's database: its rows, the whole database as a value, and the session through
    which the services change it. The tenant is fixed throughout. */
module Store {
  import opened Vocabulary
  import opened Lifecycle

  datatype System = System(vendor: Option<Id>, product: Option<Id>, isDeployer: bool)

  /** A vendor or product clearance. */
  datatype Approval = Approval(id: Id, status: ApprovalStatus, validUntil: Option<int>)

  datatype Classification = Classification(
    tier: Tier, version: nat, isCurrent: bool, status: ClassificationStatus)

  /** A use case with the rows it owns: its cursor (state, held hint and transition log) and its
      classification snapshots. `dataCategories` lists, per linked category, whether it is a
      special one. */
  datatype UseCase = UseCase(
    system: Id, euTier: Tier, dataCategories: seq<bool>,
    cursor: Cursor, classifications: seq<Classification>)

  datatype Assessment = Assessment(
    useCase: Id, kind: AssessmentType, parent: Option<Id>, tierSnapshot: Tier, isCurrent: bool,
    status: AssessmentStatus, lockVersion: nat, submissionRound: nat,
    submittedBy: Option<User>, approvedBy: Option<User>)

  /** The fields a PATCH may author; in a patch, None means "not supplied". */
  datatype Authoring = Authoring(
    response: Option<string>, likelihood: Option<int>, severity: Option<int>,
    residualLikelihood: Option<int>, residualSeverity: Option<int>, mitigationPlan: Option<string>)

  const BLANK := Authoring(None, None, None, None, None, None)

  datatype Treatment = Treatment(decision: Option<TreatmentDecision>, rationale: Option<string>)

  const UNTREATED := Treatment(None, None)

  datatype Item = Item(
    assessment: Id, risk: Option<Id>, sourceRef: Option<string>, provenance: Provenance,
    content: Authoring, treatment: Treatment, lockVersion: nat)

  datatype ControlLink = ControlLink(item: Id, control: Id, coverage: CoverageStatus)

  datatype EvidenceLink = EvidenceLink(item: Id, evidence: Id)

  datatype Review = Review(assessment: Id, reviewer: User, decision: ReviewDecision, round: nat)

  /** A deployment authorisation (ATO). */
  datatype Ato = Ato(useCase: Id, assessment: Id, round: nat, authorisedBy: User)

  datatype Action =
    | AssessmentCreated | FeederCreated | AssessmentDeleted
    | Submitted | ReviewRecorded | Reopened | RefreshNeeded
    | AuthorisationGranted | ClearanceSet | ClearanceUpdated
    | ItemCreated | ItemAmended | TreatmentSet | ItemConfirmed | ItemDeleted
    | ControlLinked | ControlUnlinked | EvidenceLinked | EvidenceUnlinked

  /** One row of the audit trail; the rows that mirror a transition are part of its log row. */
  datatype Audit = Audit(action: Action, entity: Id)

  /** What the lifecycle and review services only read: systems, clearances, reference data and
      the clock that the expiry of a clearance is compared with. */
  datatype World = World(
    systems: map<Id, System>, vendorApprovals: map<Id, Approval>, productApprovals: map<Id, Approval>,
    controls: set<Id>, evidence: set<Id>, templates: set<(AssessmentType, Tier)>, now: int)

  /** The whole database. `nextId` stands for the source of fresh identifiers: every identifier
      ever handed out is below it. */
  datatype Db = Db(
    useCases: map<Id, UseCase>, assessments: map<Id, Assessment>, items: map<Id, Item>,
    controlLinks: map<Id, ControlLink>, evidenceLinks: map<Id, EvidenceLink>,
    reviews: seq<Review>, atos: seq<Ato>, audit: seq<Audit>, world: World, nextId: nat)

  /** What a call leaves behind: the database and, when it refused, why. */
  datatype Reply = Reply(db: Db, error: Option<Error>)

  /** A refusal: the request's transaction is rolled back. */
  function Refuse(d: Db, e: Error): Reply {
    Reply(d, Some(e))
  }

  function Done(d: Db): Reply {
    Reply(d, None)
  }

  /** An open database session. The services assign these tables one by one. */
  class Session {
    var useCases: map<Id, UseCase>
    var assessments: map<Id, Assessment>
    var items: map<Id, Item>
    var controlLinks: map<Id, ControlLink>
    var evidenceLinks: map<Id, EvidenceLink>
    var reviews: seq<Review>
    var atos: seq<Ato>
    var audit: seq<Audit>
    var world: World
    var nextId: nat

    function Tables(): Db
      reads this
    {
      Db(useCases, assessments, items, controlLinks, evidenceLinks, reviews, atos, audit, world, nextId)
    }
  }
}
