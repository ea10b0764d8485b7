/** What every reachable database satisfies, and how any two databases of one run relate. Each
    part is a predicate on the tables it is about. */
module Invariants {
  import opened Vocabulary
  import opened Lifecycle
  import opened Store
  import opened Gates
  import opened Counting

  // --- Identity and references ------------------------------------------------------------

  predicate Below<V>(rows: map<Id, V>, n: nat) {
    forall k | k in rows :: k < n
  }

  predicate ClearancesBelow(approvals: map<Id, Approval>, n: nat) {
    forall v {:trigger approvals[v]} | v in approvals :: approvals[v].id < n
  }

  /** Every identifier in use was handed out. */
  predicate Fresh(d: Db) {
    && Below(d.useCases, d.nextId) && Below(d.assessments, d.nextId) && Below(d.items, d.nextId)
    && Below(d.controlLinks, d.nextId) && Below(d.evidenceLinks, d.nextId)
    && ClearancesBelow(d.world.vendorApprovals, d.nextId) && ClearancesBelow(d.world.productApprovals, d.nextId)
    && forall x | x in d.audit :: x.entity < d.nextId
  }

  /** An AIIA has no parent; a feeder's parent is an AIIA of the same use case. */
  predicate RowOk(assessments: map<Id, Assessment>, useCases: set<Id>, row: Assessment) {
    && row.useCase in useCases && row.isCurrent
    && (row.kind.Aiia? <==> row.parent.None?)
    && (row.parent.Some? ==> row.parent.value in assessments && assessments[row.parent.value].kind.Aiia?
                             && assessments[row.parent.value].useCase == row.useCase)
  }

  predicate AssessmentsOk(assessments: map<Id, Assessment>, useCases: set<Id>) {
    forall a {:trigger RowOk(assessments, useCases, assessments[a])} | a in assessments ::
      RowOk(assessments, useCases, assessments[a])
  }

  predicate IsFeederOf(assessments: map<Id, Assessment>, p: Id, kind: AssessmentType, f: Id) {
    f in assessments && assessments[f].parent == Some(p) && assessments[f].kind == kind
  }

  /** At most one feeder of each kind per AIIA. */
  ghost predicate OneFeeder(assessments: map<Id, Assessment>) {
    forall p, kind, f, g {:trigger IsFeederOf(assessments, p, kind, f), IsFeederOf(assessments, p, kind, g)} ::
      IsFeederOf(assessments, p, kind, f) && IsFeederOf(assessments, p, kind, g) ==> f == g
  }

  predicate SystemsOk(useCases: map<Id, UseCase>, systems: set<Id>) {
    forall u | u in useCases :: useCases[u].system in systems
  }

  // --- Items and links ---------------------------------------------------------------------

  /** Disposition before authoring: a proposed item carries nothing a human wrote. */
  predicate ProposalIsBare(row: Item) {
    row.provenance.AiSuggested? ==> row.content == BLANK && row.treatment == UNTREATED && row.sourceRef.None? && row.risk.Some?
  }

  /** The lock version of an item counts the recorded changes and confirmations of it. */
  predicate ItemOk(row: Item, i: Id, assessments: set<Id>, audit: seq<Audit>) {
    && row.assessment in assessments && ProposalIsBare(row)
    && row.lockVersion == Acts(audit, ItemAmended, i) + Acts(audit, TreatmentSet, i) + Acts(audit, ItemConfirmed, i)
    && (row.provenance.AiSuggested? ==> row.lockVersion == 0)
  }

  predicate ItemsOk(items: map<Id, Item>, assessments: set<Id>, audit: seq<Audit>) {
    forall i {:trigger ItemOk(items[i], i, assessments, audit)} | i in items :: ItemOk(items[i], i, assessments, audit)
  }

  predicate ControlLinksOk(links: map<Id, ControlLink>, items: set<Id>) {
    && (forall l {:trigger links[l]} | l in links :: links[l].item in items)
    && forall k, l {:trigger SameControl(links, k, l)} | k in links && l in links :: SameControl(links, k, l) ==> k == l
  }

  predicate SameControl(links: map<Id, ControlLink>, k: Id, l: Id)
    requires k in links && l in links
  {
    links[k].item == links[l].item && links[k].control == links[l].control
  }

  /** Only dispositioned items carry evidence. */
  predicate EvidenceLinkOk(link: EvidenceLink, items: map<Id, Item>) {
    link.item in items && !items[link.item].provenance.AiSuggested?
  }

  predicate EvidenceLinksOk(links: map<Id, EvidenceLink>, items: map<Id, Item>) {
    && (forall l {:trigger EvidenceLinkOk(links[l], items)} | l in links :: EvidenceLinkOk(links[l], items))
    && forall k, l {:trigger SameEvidence(links, k, l)} | k in links && l in links :: SameEvidence(links, k, l) ==> k == l
  }

  predicate SameEvidence(links: map<Id, EvidenceLink>, k: Id, l: Id)
    requires k in links && l in links
  {
    links[k] == links[l]
  }

  // --- The review cycle --------------------------------------------------------------------

  /** The k-th review of an assessment is the review of its round k: one review per round. */
  predicate ReviewNumbered(reviews: seq<Review>, k: nat)
    requires k < |reviews|
  {
    reviews[k].round == ReviewsOf(reviews[..k + 1], reviews[k].assessment)
  }

  predicate ReviewsNumbered(reviews: seq<Review>) {
    forall k {:trigger ReviewNumbered(reviews, k)} | 0 <= k < |reviews| :: ReviewNumbered(reviews, k)
  }

  /** Reviews equal rounds, less the one still open; the lock version counts submits, reviews and
      reopens; and the counts agree with the audit trail. */
  predicate CycleOk(row: Assessment, a: Id, reviews: seq<Review>, audit: seq<Audit>) {
    && ReviewsOf(reviews, a) + (if row.status.InReview? then 1 else 0) == row.submissionRound
    && Acts(audit, Submitted, a) == row.submissionRound
    && Acts(audit, ReviewRecorded, a) == ReviewsOf(reviews, a)
    && row.lockVersion == Acts(audit, Submitted, a) + Acts(audit, ReviewRecorded, a) + Acts(audit, Reopened, a)
    && ActorsOk(row)
  }

  /** An approved round was submitted and approved by two different users. */
  predicate ActorsOk(row: Assessment) {
    && (row.submissionRound > 0 ==> row.submittedBy.Some?)
    && (HasBeenApproved(row) ==> row.submissionRound > 0 && row.approvedBy.Some? && row.approvedBy != row.submittedBy)
  }

  /** The current round was approved, whether or not it was reopened since. */
  predicate HasBeenApproved(row: Assessment) {
    row.status.Approved? || row.status.NeedsRefresh?
  }

  /** The review of the current round decided the row's status, by someone else than the submitter. */
  predicate ReviewDecides(row: Assessment, r: Review) {
    r.round == row.submissionRound ==>
      && row.submittedBy != Some(r.reviewer)
      && (if r.decision.Approve? then HasBeenApproved(row) && row.approvedBy == Some(r.reviewer) else row.status.Draft?)
  }

  predicate ReviewOk(assessments: map<Id, Assessment>, r: Review) {
    r.assessment in assessments && ReviewDecides(assessments[r.assessment], r)
  }

  predicate CyclesOk(assessments: map<Id, Assessment>, reviews: seq<Review>, audit: seq<Audit>) {
    && (forall a {:trigger CycleOk(assessments[a], a, reviews, audit)} | a in assessments ::
          CycleOk(assessments[a], a, reviews, audit))
    && (forall r {:trigger ReviewOk(assessments, r)} | r in reviews :: ReviewOk(assessments, r))
  }

  // --- Authorisations ------------------------------------------------------------------------

  predicate ThreePersons(row: Assessment, t: Ato) {
    && row.submittedBy.Some? && row.approvedBy.Some? && row.submittedBy != row.approvedBy
    && row.submittedBy != Some(t.authorisedBy) && row.approvedBy != Some(t.authorisedBy)
  }

  /** An ATO belongs to the one AIIA of its use case and to a round that was approved; while that
      round is the current one, three different users stand behind it. */
  predicate AtoOk(assessments: map<Id, Assessment>, t: Ato) {
    && IsAiiaOf(assessments, t.useCase, t.assessment)
    && 1 <= t.round <= assessments[t.assessment].submissionRound
    && (t.round == assessments[t.assessment].submissionRound ==>
          HasBeenApproved(assessments[t.assessment]) && ThreePersons(assessments[t.assessment], t))
  }

  predicate AtosOk(assessments: map<Id, Assessment>, atos: seq<Ato>) {
    forall t {:trigger AtoOk(assessments, t)} | t in atos :: AtoOk(assessments, t)
  }

  // --- Lifecycle -----------------------------------------------------------------------------

  /** A hop the service may log: legal, into a state with a rank or a resting one, into AUTHORISED by an
      authorisation only, and called a creation exactly when it steps off REQUESTED. */
  predicate Admissible(source: LifecycleState, event: Event, target: LifecycleState) {
    && IsLegal(source, event, target) && Live(target) && (target.Authorised? ==> event.Authorise?)
    && (event.Created? ==> source.Requested?) && (event.Advance? ==> !source.Requested?)
  }

  const START := Cursor(Requested, None, [])

  /** The log played back from REQUESTED; None when it is broken or holds an inadmissible hop. */
  function Replayed(log: seq<Edge>): Option<Cursor> {
    if |log| == 0 then Some(START)
    else
      var before := Replayed(log[..|log| - 1]);
      var e := log[|log| - 1];
      if before.Some? && before.value.state == e.source && Admissible(e.source, e.event, e.target)
      then Some(Hop(before.value, e.event, e.target)) else None
  }

  /** The log replays to exactly this state and held hint, and records one entry into AUTHORISED
      per ATO. */
  predicate CursorOk(c: Cursor, atos: nat) {
    Replayed(c.log) == Some(c) && Entries(c.log) == atos
  }

  predicate CursorsOk(useCases: map<Id, UseCase>, atos: seq<Ato>) {
    forall u {:trigger CursorOk(useCases[u].cursor, AtosOf(atos, u))} | u in useCases ::
      CursorOk(useCases[u].cursor, AtosOf(atos, u))
  }

  // --- Classification snapshots ----------------------------------------------------------------

  /** Snapshots are numbered 1..n and exactly the newest one is current. */
  predicate SnapshotsOk(cs: seq<Classification>) {
    forall k | 0 <= k < |cs| :: cs[k].version == k + 1 && (cs[k].isCurrent <==> k == |cs| - 1)
  }

  predicate VersionsOk(useCases: map<Id, UseCase>) {
    forall u {:trigger SnapshotsOk(useCases[u].classifications)} | u in useCases :: SnapshotsOk(useCases[u].classifications)
  }

  /** Prohibition is total: a prohibited current snapshot means a halted use case. */
  predicate HaltOk(row: UseCase) {
    var snapshot := CurrentSnapshot(row.classifications);
    snapshot.Some? && snapshot.value.tier.Prohibited? ==> row.cursor.state.HaltedProhibited?
  }

  predicate HaltsOk(useCases: map<Id, UseCase>) {
    forall u {:trigger HaltOk(useCases[u])} | u in useCases :: HaltOk(useCases[u])
  }

  // --- The invariant ---------------------------------------------------------------------------

  /** All but the halts. */
  ghost predicate Consistent(d: Db) {
    && Fresh(d)
    && AssessmentsOk(d.assessments, d.useCases.Keys) && OneAiia(d.assessments) && OneFeeder(d.assessments)
    && SystemsOk(d.useCases, d.world.systems.Keys)
    && ItemsOk(d.items, d.assessments.Keys, d.audit)
    && ControlLinksOk(d.controlLinks, d.items.Keys) && EvidenceLinksOk(d.evidenceLinks, d.items)
    && ReviewsNumbered(d.reviews) && CyclesOk(d.assessments, d.reviews, d.audit)
    && AtosOk(d.assessments, d.atos)
    && CursorsOk(d.useCases, d.atos) && VersionsOk(d.useCases)
  }

  ghost predicate Inv(d: Db) {
    Consistent(d) && HaltsOk(d.useCases)
  }

  // --- Two databases of one run ------------------------------------------------------------------

  predicate UseCaseEvolves(p: UseCase, q: UseCase) {
    && q.system == p.system && p.cursor.log <= q.cursor.log
    && (p.cursor.state.HaltedProhibited? ==> q.cursor == p.cursor)
    && |p.classifications| <= |q.classifications|
  }

  /** Identifiers below `n` had all been handed out: none is handed out again. */
  predicate NoReuse(p: set<Id>, q: set<Id>, n: nat) {
    forall k | k in q && k < n :: k in p
  }

  predicate UseCasesEvolve(p: map<Id, UseCase>, q: map<Id, UseCase>, n: nat) {
    && p.Keys <= q.Keys && NoReuse(p.Keys, q.Keys, n)
    && (forall u {:trigger UseCaseEvolves(p[u], q[u])} | u in p && u in q :: UseCaseEvolves(p[u], q[u]))
  }

  /** What may follow a status without another submission. */
  predicate Follows(p: AssessmentStatus, q: AssessmentStatus) {
    q == p || (p.InReview? && !q.InReview?) || (p.Approved? && q.NeedsRefresh?)
  }

  /** An assessment row only ever moves on: its version pins it, and within a round the submitter
      is fixed, so is the approver once there is one, and no status returns. */
  predicate AssessmentEvolves(p: Assessment, q: Assessment) {
    && q.useCase == p.useCase && q.kind == p.kind && q.parent == p.parent && q.tierSnapshot == p.tierSnapshot
    && p.lockVersion <= q.lockVersion && (p.lockVersion == q.lockVersion ==> p == q)
    && p.submissionRound <= q.submissionRound
    && (p.submissionRound == q.submissionRound ==>
          && Follows(p.status, q.status) && q.submittedBy == p.submittedBy
          && (q.status == p.status ==> p == q)
          && (HasBeenApproved(p) ==> q.approvedBy == p.approvedBy))
  }

  predicate EverSubmitted(assessments: map<Id, Assessment>, a: Id) {
    a in assessments && assessments[a].submissionRound > 0
  }

  /** A submitted assessment is never deleted. */
  ghost predicate AssessmentsEvolve(p: map<Id, Assessment>, q: map<Id, Assessment>, n: nat) {
    && (forall a {:trigger EverSubmitted(p, a)} | EverSubmitted(p, a) :: a in q)
    && NoReuse(p.Keys, q.Keys, n)
    && (forall a {:trigger AssessmentEvolves(p[a], q[a])} | a in p && a in q :: AssessmentEvolves(p[a], q[a]))
  }

  /** An item's version pins it, and a dispositioned item is never a proposal again. */
  predicate ItemEvolves(p: Item, q: Item) {
    && q.assessment == p.assessment && q.risk == p.risk && q.sourceRef == p.sourceRef
    && p.lockVersion <= q.lockVersion && (p.lockVersion == q.lockVersion ==> p == q)
    && (!p.provenance.AiSuggested? ==> !q.provenance.AiSuggested?)
  }

  predicate ItemsEvolve(p: map<Id, Item>, q: map<Id, Item>, n: nat) {
    && NoReuse(p.Keys, q.Keys, n)
    && (forall i {:trigger ItemEvolves(p[i], q[i])} | i in p && i in q :: ItemEvolves(p[i], q[i]))
  }

  /** Clearances are updated in place: withdrawing one is a status like any other. */
  predicate ClearancesEvolve(p: map<Id, Approval>, q: map<Id, Approval>) {
    forall v | v in p :: v in q && q[v].id == p[v].id
  }

  /** How a database relates to any later one: rows move on, history is only appended to, and no
      identifier is used twice. */
  ghost predicate Evolves(d: Db, e: Db) {
    && d.nextId <= e.nextId && d.world.systems.Keys <= e.world.systems.Keys
    && ClearancesEvolve(d.world.vendorApprovals, e.world.vendorApprovals)
    && ClearancesEvolve(d.world.productApprovals, e.world.productApprovals)
    && UseCasesEvolve(d.useCases, e.useCases, d.nextId)
    && AssessmentsEvolve(d.assessments, e.assessments, d.nextId)
    && ItemsEvolve(d.items, e.items, d.nextId)
    && d.reviews <= e.reviews && d.atos <= e.atos && d.audit <= e.audit
  }

  lemma EvolvesIsReflexive(d: Db)
    ensures Evolves(d, d)
  {
  }

  lemma EvolvesIsTransitive(d: Db, e: Db, f: Db)
    requires Fresh(d) && Evolves(d, e) && Evolves(e, f)
    ensures Evolves(d, f)
  {
    UseCasesChain(d.useCases, e.useCases, f.useCases, d.nextId, e.nextId);
    AssessmentsChain(d.assessments, e.assessments, f.assessments, d.nextId, e.nextId);
    ItemsChain(d.items, e.items, f.items, d.nextId, e.nextId);
  }

  lemma UseCasesChain(p: map<Id, UseCase>, q: map<Id, UseCase>, r: map<Id, UseCase>, n: nat, m: nat)
    requires n <= m && UseCasesEvolve(p, q, n) && UseCasesEvolve(q, r, m)
    ensures UseCasesEvolve(p, r, n)
  {
    forall u | u in p ensures UseCaseEvolves(p[u], r[u]) {
      assert UseCaseEvolves(p[u], q[u]) && UseCaseEvolves(q[u], r[u]);
    }
  }

  lemma AssessmentsChain(p: map<Id, Assessment>, q: map<Id, Assessment>, r: map<Id, Assessment>, n: nat, m: nat)
    requires Below(p, n) && n <= m && AssessmentsEvolve(p, q, n) && AssessmentsEvolve(q, r, m)
    ensures AssessmentsEvolve(p, r, n)
  {
    forall a | a in p && a in r ensures AssessmentEvolves(p[a], r[a]) {
      assert AssessmentEvolves(p[a], q[a]) && AssessmentEvolves(q[a], r[a]);
    }
    forall a | EverSubmitted(p, a) ensures a in r {
      assert AssessmentEvolves(p[a], q[a]) && EverSubmitted(q, a);
    }
  }

  lemma ItemsChain(p: map<Id, Item>, q: map<Id, Item>, r: map<Id, Item>, n: nat, m: nat)
    requires Below(p, n) && n <= m && ItemsEvolve(p, q, n) && ItemsEvolve(q, r, m)
    ensures ItemsEvolve(p, r, n)
  {
    forall i | i in p && i in r ensures ItemEvolves(p[i], r[i]) {
      assert ItemEvolves(p[i], q[i]) && ItemEvolves(q[i], r[i]);
    }
  }
}
