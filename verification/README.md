# AI-use governance: a verified model

The repository is a service in which a company registers its uses of AI systems, classifies them under
the EU AI Act, assesses their impact, has the assessment reviewed, and authorises deployment. This
project models the part that decides: the lifecycle of a use case and its gates, the assessment review
cycle under optimistic locking, the authorisation act (ATO), the authoring of assessment items, the
resolver of context questions, the coverage view, the client's request-body guard, the keyset lists and
the assignment of governance roles.

## How it is built

- `Vocabulary`, `Store`: the vocabularies, the rows, the database as one value (`Db`) and the open
  session (`Session`) whose tables the services assign.
- `Lifecycle`: legality table, ranks, and what the engine does to one use case for given gate verdicts.
- `Gates`, `GateLaws`: the gate predicates, pure reads of the database; what rows a gate asks for, which
  transitions are legal, and where given verdicts put a use case.
- `LifecycleService`, `Clearances`, `ClassificationService`, `AssessmentService`, `ReviewService`,
  `AuthorisationService`: one method per service call, step by step as in the source; each is proved to
  leave exactly the database, and the refusal, that a specification function of the old database says.
- `Counting`, `Invariants`: the invariant of every reachable database (`Inv`) and the relation between
  any two databases of one run (`Evolves`).
- `EngineSafety`, `AssessmentSafety`, `ReviewSafety`: each kind of write keeps both.
- `ClassificationLaws`, `AuthoringLaws`, `ReviewLaws`: for each call, from the rows alone, exactly when it goes
  through and what it then leaves; how one call leads to the next, and which undo one another.
- `Runs`: runs of any calls in any order. The calls that read in one moment and update conditionally in
  another (submit, review, authorise, amend, confirm, and each single hop of the engine) may have read any
  earlier database of the run; everything else reads what it writes on. An engine hop may even have been
  decided on arbitrary gate verdicts.
- `Guarantees`: what follows for every run. `Readiness`, `Parking`, `ReviewReadiness`: what a reviewer can
  rely on, which calls undo it, and what an approval then does.
- `Witnesses`: runs from the empty tenant: all the way to an authorisation, through a second round, and to
  the failures below.
- `ContextResolver`, `AnswerOrder`, `SubcategoryOrder`: the resolver, and what the order of the answers
  decides. `CatalogueClassification`, `Coverage`, `CoverageLaws`, `Guards`, `Keyset`, `Governance`: the other
  cores.

The tenant is fixed. A UUID is the next value of a counter, so "never handed out twice" is visible; two
distinct fresh identifiers never meet, as the source assumes. The clock is a field of the database and
matters only for the expiry of clearances. A refused call leaves the database as it was, because the
request's transaction is rolled back. The If-Match version of a submit, a review, a patch or a confirmation
is taken to be no newer than the row that its own request goes on to read: a client cannot name a version
that was not committed before its request began (the precondition of section 13.1.1 of RFC 9110, with an
integer version).

## Where the code and its documentation differ

The model follows the code. Each difference is a lemma that says exactly when the documentation is right;
where a promise fails, another lemma gives a run or an input at which it does.

- The comment on the legality table calls `authorise` the only way into AUTHORISED. The table also admits
  HELD to AUTHORISED by `restore` (`AuthorisedEdges`); no engine call asks for it, so the promise holds of
  every run (`LogReplaysToState`).
- The fan-out is documented as idempotent. It is, exactly when no use case in it regresses
  (`FanOutIsIdempotentIff`): a regression is held by the first run and restored by the second
  (`FanOutMovesTwice`). Two runs always settle (`FanOutSettles`).
- `submit_for_review` says that a reviewer never reviews an untreated assessment. Two things stand against
  it. The checks and the conditional update are apart, and no write to items, links, feeders or facts moves
  the assessment's version: a submission that goes through leaves the use case as ready as it finds it at
  its commit, not as its checks found it (`LateSubmissionIsReadyIff`, `LateSubmissionIsUnready`). And while
  the assessment is under review five kinds of call can undo readiness, and only they: removing the last control of
  a risk to be mitigated that has no plan, adding a model-risk feeder that proposes a risk, deleting a
  required feeder, changing a system or the data categories of the use case so that a missing feeder becomes
  required, and a patch that found the assessment unlocked and is written afterwards. `StepParksIff` says
  for any one call exactly when; each is reached by a run (`UnlinkingParks`, `FeederParks`,
  `FeederDeletionParks`, `ScopeChangeParks`, `LatePatchParks`).
- The authoring lock is only as fresh as the read: `LatePatchGoesThroughIff`.
- The treatment gate's message says that every treatment is substantiated. TRANSFER and AVOID need nothing
  (`SubstanceIsAskedForIff`, `TransferNeedsNothing`).
- The resolution of the context questions is described as order-independent. The resolver takes a list, and a
  question answered again counts as last answered. Its verdict is the same for every order of the list
  exactly under `OneVerdict` (`VerdictIgnoresOrderIff`); where every question is answered in one way only,
  that means that no unknown option comes with a prohibiting one (`ConsistentAnswersIff`). One question
  answered twice is enough for the verdict to turn, and for one more answer to lift a halt (`AnsweredTwice`).
  The subcategory is independent of the order exactly under `OneSubcategory` (`SubcategoryIgnoresOrderIff`),
  which two plain answers can fail (`FirstAnswerNames`).

## Model

| member | source | states |
|---|---|---|
| Lifecycle.RestRankIsWhereTheWalkStops | app/services/lifecycle_service.py:247-288 | the resting rank is the unique one that the walk reaches by passing every gate before it and not its own |
| Lifecycle.WalkReachesTarget | app/services/lifecycle_service.py:344-352 | the step-by-step walk and the vector agree: from any rank not above the target, the walk stops exactly at the target |
| Lifecycle.AdvanceRefinesVector | app/services/lifecycle_service.py:412-418 | when the target outranks the state, auto-advance ends exactly there with one logged hop per rank crossed, in order |
| Lifecycle.ReevaluationIsTotalOnLive | app/services/lifecycle_service.py:294-313 | re-evaluation has no failing rank lookup outside DEPLOYED and RETIRED, and never produces those two |
| Lifecycle.OneCallSettlesIff | app/services/lifecycle_service.py:355-439 | one call reaches the settled state if and only if no passed gate has lapsed; otherwise it holds |
| Lifecycle.SettledMeansUntouched | app/services/lifecycle_service.py:355-439 | a call changes nothing if and only if the use case already rests where its gates put it |
| Lifecycle.TwoCallsSettle | app/services/lifecycle_service.py:383-437 | two calls always settle: halted, or authorised while everything passes, or at the vector's target; the third changes nothing |
| Lifecycle.AuthorisedEdges | app/services/lifecycle_service.py:81-120 | the two events by which the table admits AUTHORISED, and that neither target nor walk ever is AUTHORISED |
| Gates.AiiaIsUnique | app/services/lifecycle_gates.py:186-193 | with one AIIA per use case the unordered query has one answer |
| Gates.MiddleGatesRead | app/services/lifecycle_gates.py:129-341 | classification, assessment and treatment gates depend on the row, its snapshots and the assessment tables alone |
| Gates.GatesIgnoreCursors | app/services/lifecycle_gates.py:59-383 | no gate of any use case reads what a transition of any use case writes |
| GateLaws.ClearanceGatesIff | app/services/lifecycle_gates.py:59-126 | a use case passes the vendor or product gate if and only if its system names none or one whose clearance is given and not past its date |
| GateLaws.ClearanceReasons | app/services/lifecycle_gates.py:95-126 | which reason a clearance gate gives, exactly |
| GateLaws.IntakeGateIff | app/services/lifecycle_gates.py:129-172 | on a consistent database the intake gate passes if and only if the newest snapshot prohibits nothing and the ratified tier is a real one, and halts if and only if it prohibits |
| GateLaws.StructureIff | app/services/lifecycle_gates.py:175-243 | structure is complete if and only if a high-risk deployer has a FRIA, a high-risk use of special data a DPIA, and no proposal is left in the AIIA or a feeder |
| GateLaws.StructureReasons | app/services/lifecycle_gates.py:175-243 | which reason is given for an incomplete structure, exactly |
| GateLaws.TreatmentIff | app/services/lifecycle_gates.py:283-341 | treatment is complete if and only if every confirmed or amended risk has a decision, a control or plan if mitigated, a reason if accepted |
| GateLaws.LastGatesIff | app/services/lifecycle_gates.py:246-383 | assessment, treatment and authorisation gate in terms of structure, treatment, the AIIA's status and the ATOs |
| GateLaws.TargetByGates | app/services/lifecycle_service.py:344-352 | the waiting state for each pattern of verdicts |
| GateLaws.LegalTransitionsIff | app/services/lifecycle_service.py:81-120 | the legal transitions, listed |
| GateLaws.TransitionGoesThroughIff | app/services/lifecycle_service.py:123-206 | a transition is written if and only if it is legal and the state is the one read; which refusal otherwise |
| GateLaws.ReEvaluationFailsIff | app/services/lifecycle_service.py:294-313 | re-evaluation fails if and only if deployed or retired and not prohibited |
| GateLaws.AdvancedRests | app/services/lifecycle_service.py:247-288 | right after an advance there is nothing left to advance |
| LifecycleService.ApplyTransition | app/services/lifecycle_service.py:123-206 | refused when illegal; refused without effect when the state moved since it was read; otherwise state, hint and log move together |
| LifecycleService.AdvanceUseCase | app/services/lifecycle_service.py:247-288 | the walk that re-reads its gate at every rank equals the climb computed once from the initial vector |
| LifecycleService.TargetFromVector | app/services/lifecycle_service.py:344-352 | the returned state is the target, and a blocker is returned exactly when not everything passes |
| LifecycleService.ReEvaluate | app/services/lifecycle_service.py:355-439 | the branches together do what the engine does to one cursor under the full vector, and write nothing else |
| LifecycleService.FanOut | app/services/lifecycle_service.py:578-604 | one re-evaluation per identifier in order, deleted rows skipped, stopping at the first failure |
| LifecycleService.ReEvaluateConverges | app/services/lifecycle_service.py:355-439 | on the database: two calls reach the settled state without error and a third writes nothing |
| LifecycleService.FanOutIsPointwise | app/services/lifecycle_service.py:578-604 | over any sequence of identifiers a use case moves by the number of its own occurrences alone, and no vector changes |
| LifecycleService.FanOutSettles | app/services/lifecycle_service.py:581-586 | after interrupted, reordered or repeated runs, whoever was re-evaluated twice rests at its fixpoint, and who was not is untouched |
| LifecycleService.FanOutOrderIsIrrelevant | app/services/lifecycle_service.py:578-604 | two sequences with the same occurrences up to two leave the same database |
| LifecycleService.FanOutIsIdempotentIff | app/services/lifecycle_service.py:581-586 | a second run over distinct use cases is a no-op if and only if none of them regressed |
| Witnesses.FanOutMovesTwice | app/services/lifecycle_service.py:581-586 | a run of the service after which the fan-out is not idempotent: cleared, registered, expired |
| Clearances.VendorClearanceDecides | app/services/lifecycle_service.py:467-522 | a clearance opens or closes the vendor gate of exactly the use cases on that vendor, moves no other gate of anybody, and keeps its identity when set again |
| Clearances.ProductClearanceDecides | app/services/lifecycle_service.py:525-575 | the same for product clearances |
| Clearances.OnlyVendorGatesChange | app/services/lifecycle_service.py:607-627 | a use case that the fan-out does not enumerate keeps its whole vector |
| Clearances.OnlyProductGatesChange | app/services/lifecycle_service.py:630-646 | the same for product clearances |
| Clearances.TimeOnlyRevokes | app/services/lifecycle_gates.py:95-126 | when only time passes, no gate starts to pass and the target never moves forward |
| Clearances.FanOutReachesEverybody | app/services/lifecycle_service.py:607-627 | if everything was at rest, changing a vendor clearance and fanning out twice over the enumerated use cases puts everything at rest |
| Clearances.FanOutReachesEverybodyOnProduct | app/services/lifecycle_service.py:630-646 | the same for product clearances |
| ClassificationService.NextVersion | app/services/classification.py:284-291 | one more than the highest version so far, 1 for the first |
| ClassificationService.InsertSnapshot | app/services/classification.py:274-320 | unset, number, insert and stamp together make the row with one more snapshot, the only current one |
| ClassificationService.SnapshotClassification | app/services/classification.py:258-354 | the snapshot and every transition it triggers are one write |
| ClassificationService.RegisterUseCase | app/routers/v1/registrations.py:338-360 | a use case is never left without the snapshot written beside it |
| ClassificationLaws.RegistrationRests | app/routers/v1/registrations.py:328-360 | a registered use case rests exactly where its clearances, its tier and its ratification put it: halted if prohibited, no further than INTAKE if unstamped |
| ClassificationLaws.SnapshotIsNewest | app/services/classification.py:258-354 | a new snapshot is the next and only current one, stamps only if asked to, and the use case is then as far on as its gates let it |
| ClassificationService.ComputeAndRecord | app/services/context_classification.py:340-511 | nothing is written while unresolved; otherwise the computed or overriding tier, refused when not a real one, pending review and unstamped |
| ClassificationLaws.RecordingGoesThroughIff | app/services/context_classification.py:359-394 | what is refused, what leaves no trace, and what is recorded |
| ClassificationLaws.RecordedTierIsRatified | app/services/context_classification.py:359-589 | the override, or without one the computed tier, is stored pending without touching the ratified tier, and a sign-off then ratifies exactly it |
| ClassificationService.SignOffClassification | app/services/context_classification.py:517-589 | only a pending current snapshot is signed off, and its tier becomes the use case's |
| ClassificationLaws.SignOffGoesThroughIff | app/services/context_classification.py:517-565 | a sign-off goes through if and only if the newest snapshot is pending |
| ClassificationLaws.SignOffRatifies | app/services/context_classification.py:566-589 | the tier of the use case becomes the newest snapshot's, whatever it was, and the use case goes as far as its gates let it |
| ClassificationLaws.SignOffIsOnce | app/services/context_classification.py:550-565 | a second sign-off conflicts |
| ClassificationLaws.SignOffOpensTheIntake | app/services/context_classification.py:566-589 | with a real tier that is not prohibited the intake gate is open, and a use case waiting at INTAKE moves past it, from rest to its target |
| Witnesses.RatifiedLater | app/services/context_classification.py:517-589 | a run that registers unratified, waits at INTAKE and moves on when signed off |
| ContextResolver.IndexAnswers | app/services/context_classification.py:225-226 | assigning the answers one after another gives the index of all of them |
| ContextResolver.IndexedIsLastAnswers | app/services/context_classification.py:225-226 | the index has each answered question once, and holds an answer if and only if it is the last one given to its question |
| ContextResolver.WalkAnswers | app/services/context_classification.py:242-335 | the short-circuiting loop equals the rule: the first stopping choice decides, else completeness, else the highest rung |
| ContextResolver.ResolveContextClassification | app/services/context_classification.py:203-335 | the whole resolver equals the rule on the dictionary of the answers |
| ContextResolver.ResolverIsTheRule | app/services/context_classification.py:208-220 | halt if and only if a choice asserts PROHIBITED; unresolved if and only if not and something is missing, with exactly those missing; else the most severe rung or MINIMAL |
| ContextResolver.ResidualIsMissing | app/services/context_classification.py:157-200 | the residual question set asks exactly the codes that the resolver reports missing |
| ContextResolver.ResolutionOfAnswers | app/services/context_classification.py:203-335 | over a seeded tree and any list of answers: halted if and only if the last answer to some question prohibits; else unresolved if and only if the residual set is not empty, with its codes; else a real tier |
| ContextResolver.LadderByName | app/services/context_classification.py:75-90 | with every question answered: PROHIBITED, else HIGH, else LIMITED, else MINIMAL, by what the last answers assert |
| ContextResolver.ChosenIff | app/services/context_classification.py:237-249 | an answer chooses what the question with its code, and no other, offers under its option |
| ContextResolver.ExtendingAnswers | app/services/context_classification.py:157-277 | with more answers after the first: answering the residual always resolves, and it halts if and only if the new ones prohibit or leave an old prohibition unanswered |
| AnswerOrder.VerdictIgnoresOrderIff | app/services/context_classification.py:225-277 | over all lists of answers, repeated questions included: kind, tier and missing are the same for every order if and only if a question is foreign to the tree, or an unknown option is certain and nothing prohibits, or one level is certain to be the most severe, or a question stays open and nothing prohibits |
| AnswerOrder.ConsistentAnswersIff | app/services/context_classification.py:242-277 | where no question is answered in two ways: if and only if no unknown option comes with a prohibiting one |
| AnswerOrder.AnsweredTwice | app/services/context_classification.py:225-277 | one question answered yes and no: halted in one order, MINIMAL in the other, and a halt lifted by one more answer |
| SubcategoryOrder.SubcategoryIgnoresOrderIff | app/services/context_classification.py:251-277 | over all lists of answers that the tree knows, repeated questions included: exactly when the reported subcategory is the same for every order |
| SubcategoryOrder.FirstAnswerNames | app/services/context_classification.py:251-264 | two answers of one rung, each question answered once: the first answer names the subcategory |
| CatalogueClassification.Governing | app/services/classification.py:190-190 | the governing mapping is one of them and none is more severe |
| CatalogueClassification.DownSelectionIsExact | app/services/classification.py:174-216 | a declared category is marked a down-selection if and only if some mapping of the product is more severe |
| CatalogueClassification.ProposalIsMostSevere | app/services/classification.py:135-216 | the proposal is the most severe tier among the mappings of the declared category, or of the product; without any, the questions have to be asked |
| CatalogueClassification.DownSelectionWaits | app/routers/v1/registrations.py:328-360 | a down-selection waits unratified at INTAKE or before until its tier is signed off; any other proposal is ratified at once |
| CatalogueClassification.RegistrationNeverUnderclassifies | app/routers/v1/registrations.py:328-360 | until a sign-off, a registered use case is undecided or at least as severe as every mapping of its product, whatever was declared |
| AssessmentService.InsertedRows | app/services/assessment_service.py:244-293 | prefilled rows land under fresh identifiers, in order, and touch no other row |
| AssessmentService.PrefillItems | app/services/assessment_service.py:453-517 | sections, then facts, then proposals; none of the latter for FRIA and DPIA |
| AssessmentService.CreateAiia | app/services/assessment_service.py:371-549 | refused unless classified, without an AIIA and with a template; otherwise the draft and its prefill |
| AuthoringLaws.AiiaIsCreatedIff | app/services/assessment_service.py:371-440 | an AIIA is created if and only if the newest snapshot prohibits nothing, the tier is ratified, there is none yet and there is a template |
| ClassificationLaws.AssessmentNeedsATier | app/services/assessment_service.py:371-405 | no AIIA while the tier is not ratified |
| AssessmentService.CreateFeeder | app/services/assessment_service.py:557-748 | a feeder takes use case and tier from its AIIA; refused for the wrong kind, a feeder parent or a second of its kind |
| AuthoringLaws.FeederIsCreatedIff | app/services/assessment_service.py:557-625 | a feeder is created if and only if the parent is an AIIA, the kind is not, there is none of it yet and there is a template |
| AuthoringLaws.CreatedAssessment | app/services/assessment_service.py:424-452 | a new assessment is a draft at version 0 with the tier of its use case, a feeder's with that of its AIIA |
| AuthoringLaws.CreatedItems | app/services/assessment_service.py:453-517 | one unanswered item per section, one answered per fact, one proposal per risk, in that order |
| AuthoringLaws.SectionItemIsUndone | app/services/assessment_service.py:1024-1071 | deleting an item just created from a section restores every table |
| AuthoringLaws.SectionItemIsCreatedIff | app/services/assessment_service.py:1024-1071 | a section item is created if and only if the use case is open and the section known; being answered makes it amended |
| AuthoringLaws.AnsweringBlocksDeletion | app/services/assessment_service.py:1024-1071 | creating the item leaves every assessment as deletable as before, but its own only if the section was left unanswered |
| AssessmentService.AmendItem | app/services/assessment_service.py:1079-1181 | lock first, no-op before disposition, disposition before version; a treatment change advances the use case |
| AuthoringLaws.LockIff | app/services/assessment_service.py:171-185 | authoring is locked in an assessment if and only if the AIIA of its use case is in review or approved |
| AuthoringLaws.PatchGoesThroughIff | app/services/assessment_service.py:1086-1152 | a patch that changes something is written if and only if the use case is open, the item disposed and the version right; one that changes nothing is accepted without a trace |
| AuthoringLaws.PatchedColumns | app/services/assessment_service.py:1089-1132 | every column takes its own supplied value or stays |
| AuthoringLaws.PatchWrites | app/services/assessment_service.py:1133-1181 | one audit row, a treatment told from authoring, and after a treatment the use case is as far on as its gates let it |
| AssessmentService.ConfirmItem | app/services/assessment_service.py:1184-1232 | only a proposal at the version named is confirmed, and the use case advances |
| AuthoringLaws.ConfirmationGoesThroughIff | app/services/assessment_service.py:1184-1232 | a confirmation goes through if and only if the use case is open, the item a proposal and the version right, and then advances the use case |
| AuthoringLaws.DeletedItemIsForgotten | app/services/assessment_service.py:1235-1255 | exactly the item's links go with it, and the treatment gate then looks at the remaining risks alone |
| AuthoringLaws.DeletableIff | app/services/assessment_service.py:1263-1357 | on a consistent database an assessment can be deleted if and only if it was never submitted, has no worked or linked item and no feeder |
| AuthoringLaws.NewAiiaIsUndone | app/services/assessment_service.py:371-549 | a new AIIA can be deleted at once, which restores every table, whatever it was prefilled with |
| AuthoringLaws.NewFeederIsUndone | app/services/assessment_service.py:557-748 | the same for a new feeder |
| AuthoringLaws.ControlLinkIsUndone | app/services/assessment_service.py:1365-1435 | unlinking restores every table; until then a second link is refused, the assessment cannot be deleted, and exactly the linked item, if to be mitigated, becomes treated |
| AuthoringLaws.ControlIsLinkedIff | app/services/assessment_service.py:1365-1412 | a control is linked if and only if the use case is open, the control exists and is not linked yet, with the coverage claimed |
| AuthoringLaws.EvidenceLinkIsUndone | app/services/assessment_service.py:1443-1527 | unlinking restores every table; until then a second link is refused, the assessment cannot be deleted, and no gate of any use case has moved |
| AuthoringLaws.EvidenceIsLinkedIff | app/services/assessment_service.py:1443-1495 | evidence is attached if and only if the use case is open, the item disposed, the evidence exists and is not attached yet |
| AssessmentService.DeleteEvidenceLink | app/services/assessment_service.py:1498-1527 | removing what is not there leaves no trace |
| ReviewService.ConditionalStatusUpdate | app/services/assessment_review_service.py:43-80 | writes if and only if version and status are as expected; otherwise tells a stale version from a bad status |
| ReviewService.SubmitForReview | app/services/assessment_review_service.py:83-130 | refused unless structure and treatment pass; otherwise the next round opens under the submitter |
| ReviewLaws.SubmissionGoesThroughIff | app/services/assessment_review_service.py:36-130 | a submission goes through if and only if the use case is ready, the version right, and the row neither in review nor approved; which refusal otherwise |
| ReviewLaws.SubmissionOpensARound | app/services/assessment_review_service.py:103-130 | the next round under the submitter, and nothing else |
| ReviewService.RecordReview | app/services/assessment_review_service.py:133-217 | never by the submitter, only in review, a bounce needs a note; an approval advances in the same write |
| ReviewLaws.ReviewGoesThroughIff | app/services/assessment_review_service.py:133-186 | a review goes through if and only if in review, by another than the submitter, reasoned if changes are asked for, at the version; which refusal otherwise |
| ReviewLaws.ReviewClosesTheRound | app/services/assessment_review_service.py:156-217 | one review for the round; an approval names its approver and advances the use case, a bounce moves nothing |
| ReviewLaws.ReturnedIsSubmittable | app/services/assessment_review_service.py:36-199 | what was sent back can be submitted at the new version and enters the next round |
| ReviewService.Reopen | app/services/assessment_review_service.py:262-300 | approved becomes needs-refresh and the use case is left where it is |
| ReviewLaws.ReopeningGoesThroughIff | app/services/assessment_review_service.py:262-300 | a reopening goes through if and only if approved and at the version, and moves nothing but the row |
| ReviewLaws.ReopenedIsSubmittable | app/services/assessment_review_service.py:36-116 | what was reopened can be submitted at the new version and enters the next round |
| Witnesses.SecondRound | app/services/assessment_review_service.py:262-300 | a run that approves, reopens and submits again: round two in review |
| AuthorisationService.AuthoriseUseCase | app/services/authorisation_service.py:68-142 | refused unless pending with all lower gates passing and by a third person; otherwise ATO and transition together |
| ReviewLaws.AuthorisationGoesThroughIff | app/services/authorisation_service.py:68-98 | an authorisation goes through if and only if the use case awaits it, clearances and classification stand, it is ready, its AIIA approved, and the actor neither submitted nor approved it |
| ReviewLaws.AuthorisationWrites | app/services/authorisation_service.py:99-142 | one ATO for the AIIA's round and one hop into AUTHORISED |
| Witnesses.AllTheWay | app/services/authorisation_service.py:68-142 | a run that submits, approves and authorises by three users and ends AUTHORISED with one ATO |
| AssessmentSafety.SubmittedIsNotPristine | app/services/assessment_service.py:1263-1284 | an assessment that was ever submitted fails the delete guard |
| AssessmentSafety.CreateAiiaKeeps | app/services/assessment_service.py:408-421 | creation keeps one AIIA per use case and everything else in the invariant |
| AssessmentSafety.CreateFeederKeeps | app/services/assessment_service.py:580-640 | creation keeps at most one feeder of each kind per AIIA and everything else in the invariant |
| AssessmentSafety.DeleteAssessmentKeeps | app/services/assessment_service.py:1336-1357 | deletion never removes what an ATO, a review or a feeder refers to |
| EngineSafety.ReplayedCursor | app/services/lifecycle_service.py:146-155 | replaying a log never reaches DEPLOYED or RETIRED, and sets the hint exactly in HELD, to the state left last |
| EngineSafety.AutoAdvanceKeeps | app/services/lifecycle_service.py:262-273 | auto-advance after a write closes the one place where a prohibited snapshot is not yet a halt |
| EngineSafety.ReEvaluateKeeps | app/services/lifecycle_service.py:355-439 | on a consistent database re-evaluation never fails and keeps the invariant |
| ReviewSafety.RoundsAreBounded | app/services/assessment_review_service.py:187-199 | every review belongs to a round between 1 and the number of reviews of its assessment |
| ReviewSafety.SubmitKeeps | app/services/assessment_review_service.py:103-116 | a new round strands every earlier ATO and review |
| ReviewSafety.ReviewKeeps | app/services/assessment_review_service.py:156-199 | a review is the one review of its round and decides its status |
| ReviewSafety.GrantKeeps | app/services/authorisation_service.py:94-139 | a fitting ATO keeps entries into AUTHORISED equal to ATOs, whether or not the transition still applies |
| Runs.UninterruptedSubmitIsAtomic | app/services/assessment_review_service.py:83-130 | read and written at one moment, the submission of a run is the service call |
| Runs.UninterruptedDecisionIsAtomic | app/services/assessment_review_service.py:133-217 | the same for reviews |
| Runs.UninterruptedAuthorisationIsAtomic | app/services/authorisation_service.py:68-142 | the same for authorisations |
| Runs.UninterruptedPatchIsAtomic | app/services/assessment_service.py:1079-1232 | the same for patches and confirmations of items |
| Runs.UnchangedSinceRead | app/services/assessment_review_service.py:55-80 | a conditional update that goes through found the row exactly as its request read it |
| Runs.ItemUnchangedSinceRead | app/services/assessment_service.py:1133-1147 | an item found at a version its client could name is the item as that request read it |
| Runs.LatePatchGoesThroughIff | app/services/assessment_service.py:1086-1147 | a patch that its own read let through goes through whatever has happened to the assessment since, if and only if the item's version has not moved |
| Runs.LateDecisionIsAtomic | app/services/assessment_review_service.py:133-217 | a review decided on an old read either does nothing or is the atomic review of the present database |
| Runs.GrantFitsLater | app/services/authorisation_service.py:82-114 | an ATO decided on an old read still names the AIIA, a round it reached, and three persons if that round is current |
| Runs.DecisionsAreAdmissible | app/services/lifecycle_service.py:98-120 | whatever the gates said, the engine only asks for legal hops and never for AUTHORISED |
| Runs.HopKeeps | app/services/lifecycle_service.py:164-178 | a hop decided on any old verdicts keeps the log an unbroken chain |
| Runs.StepKeeps | app/services/lifecycle_service.py:123-206 | every call keeps the invariant and relates the database to the next one |
| Runs.RunIsSafe | app/services/lifecycle_service.py:123-206 | every database of every run satisfies the invariant, and any two are related, by induction on the run |
| Guarantees.GateSeesOnlyItsOwnAtos | app/services/lifecycle_gates.py:362-383 | matching on use case and round is as good as matching on the assessment: the gate passes if and only if the approved AIIA has an ATO of its own round |
| Guarantees.ThreePersonRule | app/services/governance.py:96-114 | on every run, whenever the authorisation gate passes, submitter, approver and authoriser of every matching ATO are three users |
| Guarantees.AtosComeFromGrants | app/services/authorisation_service.py:99-112 | no call but a passing authorisation adds an ATO, and it adds exactly one, stamped with what it read |
| Guarantees.MatchingAtoIsOfThisApproval | app/services/lifecycle_gates.py:344-383 | an ATO that matches the approved AIIA was granted by a call that read this very row, unchanged ever since: one unbroken approval |
| Guarantees.SubmittedForever | app/services/assessment_service.py:1263-1284 | once submitted, an assessment is never deleted and stays what it was |
| Guarantees.ReviewCycleCounts | app/services/assessment_review_service.py:43-130 | on every run reviews equal rounds less the open one, one review per round in rising order, and the version counts submits, reviews and reopens |
| Guarantees.VersionPinsRow | app/services/assessment_review_service.py:43-80 | equal lock versions at two points mean that nothing about the row changed anywhere in between |
| Guarantees.ApproverIsTheReviewer | app/services/assessment_review_service.py:147-199 | the review of the current round was not by its submitter, and approved the row if and only if it stands approved, by its reviewer |
| Guarantees.ReplayIsTheChain | app/services/lifecycle_service.py:98-120 | a log replays if and only if it is an unbroken chain of admissible hops from REQUESTED |
| Guarantees.LogReplaysToState | app/services/lifecycle_service.py:123-206 | on every run, with any interleaving: the log chains to the state, enters AUTHORISED once per ATO, the hint is exact, and re-evaluation cannot fail |
| Guarantees.ReachableIsLive | app/services/lifecycle_service.py:294-313 | every database of a run satisfies what the fan-out laws assume |
| Guarantees.ProhibitionIsAbsorbing | app/services/lifecycle_service.py:83-107 | a prohibited current snapshot means halted, and a halted cursor never changes again |
| Guarantees.SnapshotsAreNumbered | app/services/context_classification.py:442-487 | across both writers snapshots are 1..n and exactly the newest is current |
| Guarantees.ProhibitedAnswerHalts | app/services/context_classification.py:502-511 | recorded without override, a list of answers halts a use case that was not halted if and only if the last answer to some question prohibits |
| Guarantees.GrantOpensTheGate | app/services/authorisation_service.py:99-112 | with the ATO written every gate passes, the authorisation gate included |
| Guarantees.AuthorisedStaysAuthorised | app/services/lifecycle_service.py:388-400 | re-evaluating right after authorising changes nothing |
| Guarantees.AuthorisedIsKeptIff | app/services/lifecycle_service.py:388-410 | AUTHORISED is kept if and only if the whole vector passes; otherwise held, remembering where from |
| Guarantees.ProposalsStayBare | app/services/assessment_service.py:1118-1122 | on every run a proposal has no answer, score, plan, treatment or evidence, and versions count the recorded changes |
| Guarantees.DispositionIsFinal | app/services/assessment_service.py:1124-1147 | no item becomes a proposal again, and the version pins the item |
| Guarantees.OnePatch | app/services/assessment_service.py:1089-1147 | a change raises the version by exactly one, treatment leaves provenance alone, and a patch without content leaves no trace |
| Guarantees.EveryWriteIsRecorded | app/services/assessment_service.py:195-215 | whatever a call changes, it appends exactly its own rows to the audit trail |
| Readiness.LockReachesAll | app/services/assessment_service.py:171-185 | the lock on the AIIA reaches every assessment of the use case |
| Readiness.LockedWriteIsElsewhere | app/services/assessment_service.py:1086-1087 | an authoring write that goes through went to an unlocked assessment and touched no other item |
| Readiness.ReadinessSurvives | app/services/lifecycle_gates.py:175-341 | with scope, feeders and links kept and no item new or changed, structure and treatment still pass |
| Parking.StepParksIff | app/services/assessment_review_service.py:87-91 | while the AIIA is under review or approved, any one call, its reads as old as they may be, makes a ready use case unready if and only if it is of one of five named kinds |
| Parking.UnlinkingParksIff | app/services/assessment_service.py:1415-1435 | exactly when unlinking a control makes a ready use case unready |
| Parking.FeederParksIff | app/services/assessment_service.py:557-748 | a new feeder makes it unready if and only if it brings proposals, which only model-risk ones do |
| Parking.FeederDeletionParksIff | app/services/assessment_service.py:1336-1357 | deleting a feeder makes it unready if and only if its kind is required |
| Parking.ScopeChangeParksIff | app/services/system_service.py:310-311 | changed facts about systems or data make it unready if and only if a feeder that is not there becomes required |
| Parking.PatchParksIff | app/services/assessment_service.py:1079-1181 | a patch that is written makes it unready if and only if it leaves its risk untreated |
| Parking.LateSubmissionIsReadyIff | app/services/assessment_review_service.py:83-130 | a submission that goes through leaves the use case ready if and only if it finds it ready at its commit, whatever its checks read |
| Witnesses.UnlinkingParks | app/services/assessment_service.py:1415-1435 | a run in which the only control of a mitigated risk is removed under review |
| Witnesses.FeederParks | app/services/assessment_service.py:557-748 | a run in which a proposing feeder is added under review |
| Witnesses.FeederDeletionParks | app/services/assessment_service.py:1336-1357 | a run in which a required feeder is deleted under review |
| Witnesses.ScopeChangeParks | app/services/system_service.py:310-311 | a run in which the company becomes a deployer under review |
| Witnesses.LatePatchParks | app/services/assessment_service.py:1086-1147 | a run in which a patch checked before the submission leaves a risk untreated after it |
| Witnesses.LateSubmissionIsUnready | app/services/assessment_review_service.py:83-130 | a run in which a submission checked on a ready use case commits on one that is not, and puts it under review |
| ReviewReadiness.ReadinessLasts | app/services/assessment_review_service.py:96-101 | while locked, readiness lasts over any run of calls that are none of the five |
| ReviewReadiness.LockedWritesAreRefused | app/services/assessment_service.py:171-185 | while locked every authoring write to the use case is refused with a conflict |
| ReviewReadiness.ApprovalTakesTwoHopsIff | app/services/assessment_review_service.py:213-215 | an approval takes a use case under assessment to PENDING_AUTHORISATION if and only if it is ready then, and in exactly two logged hops |
| ReviewReadiness.SubmittedThenApproved | app/services/assessment_review_service.py:83-217 | from a submission to its approval with any calls between and reads of any age: the two hops if and only if ready at the approval, which it is if the submission committed on a ready database and none of the five came since |
| ReviewReadiness.SubstanceIsAskedForIff | app/services/lifecycle_gates.py:305-341 | a treated risk may lose plan, rationale and controls unnoticed if and only if it is to be transferred or avoided |
| Witnesses.TransferNeedsNothing | app/services/lifecycle_gates.py:305-341 | a run that submits a risk to be transferred with nothing written about it |
| Coverage.FetchQualifyingLinks | app/services/coverage_service.py:182-227 | in whatever order the rows come, exactly the links of dispositioned items under an allowed governing AIIA, once each |
| CoverageLaws.QualifiesIff | app/services/coverage_service.py:182-227 | a link of an AIIA or of its feeders counts if and only if its item is disposed and the AIIA itself is approved, or drafts are included and it is a draft or needs a refresh |
| CoverageLaws.FeederStatusIsIgnored | app/services/coverage_service.py:205-217 | changing a feeder's own status changes what qualifies in no scope |
| Coverage.ApplyEvidenceSubstantiation | app/services/coverage_service.py:236-275 | every row in place: downgraded if and only if evidence is required and a satisfied claim has none |
| Coverage.BuildBreakdown | app/services/coverage_service.py:292-310 | the four sums are one tally of the rows |
| Coverage.GroupByControl | app/services/coverage_service.py:80-83 | each control with a row once, with exactly its rows in order |
| Coverage.BuildControlReads | app/services/coverage_service.py:88-111 | the addressed controls are those with a row that are in view, each once with verdict, counts and mappings |
| Coverage.BuildUnaddressed | app/services/coverage_service.py:378-408 | the other controls in view, each once |
| Coverage.BuildClauseAxis | app/services/coverage_service.py:337-370 | a clause appears exactly when some control maps to it, with all contributions in order |
| Coverage.ComputeCoverage | app/services/coverage_service.py:58-126 | refused scopes, or the matrix of exactly the qualifying links |
| CoverageLaws.ScopeIsRefusedIff | app/services/coverage_service.py:134-176 | which scopes are refused, and how, exactly |
| CoverageLaws.BreakdownIsExact | app/services/coverage_service.py:283-310 | each count is the number of qualifying links in its class, the four sum to all of them, and the verdict is theirs |
| CoverageLaws.VerdictByLinks | app/services/coverage_service.py:236-290 | a control is SATISFIED if and only if some link claims it, with evidence if required; PARTIAL if and only if not and some link claims anything |
| CoverageLaws.ControlsArePartitioned | app/services/coverage_service.py:378-408 | addressed and unaddressed controls partition the library, or the framework's part of it |
| CoverageLaws.ControlIsListedIff | app/services/coverage_service.py:88-111 | a control is listed if and only if in the library, named by a link in scope and, under a filter, mapped to the framework; with exactly its mappings there |
| CoverageLaws.ClauseIsListedIff | app/services/coverage_service.py:337-370 | a clause is listed if and only if some listed control maps to it |
| CoverageLaws.ClauseIsRollupOfLinks | app/services/coverage_service.py:337-370 | a clause verdict built from verdicts equals the roll-up of all links underneath |
| CoverageLaws.RequiringEvidence | app/services/coverage_service.py:236-275 | requiring evidence turns SATISFIED into PARTIAL exactly when no satisfied link is proven, and changes nothing else |
| CoverageLaws.SystemIsUnionOfAiias | app/services/coverage_service.py:134-176 | a link qualifies for a system if and only if it does for one of its AIIAs, and then for exactly one |
| CoverageLaws.TenantIsUnionOfSystems | app/services/coverage_service.py:134-176 | the tenant is the disjoint union of its systems |
| CoverageLaws.SystemCoverageAddsUp | app/services/coverage_service.py:134-310 | every count of a system is the sum over its AIIAs and its verdict the strongest of theirs |
| CoverageLaws.TenantCoverageAddsUp | app/services/coverage_service.py:134-310 | the same for the tenant over its systems |
| Guards.Search.FindForbiddenKey | packages/api-client/src/guards.ts:18-38 | terminates on cycles; a key found is owned by a reachable object; what was visited without finding one is clean and leads nowhere unvisited |
| Guards.AssertNoForbiddenFields | packages/api-client/src/guards.ts:40-46 | throws if and only if some object reachable from the body owns a server-owned key, and names such a key |
| Guards.ClosedUnderEdges | packages/api-client/src/guards.ts:18-38 | a visited set that no edge leaves contains everything reachable |
| Governance.AssertAssignable | app/services/governance.py:38-93 | refused to oneself, and exactly when the subject holds a conflicting role |
| Governance.Roster.AssignRole | app/routers/v1/governance_roles.py:97-148 | a grant is added if and only if the role exists, is granted by another, conflicts with nothing held and is not held already |
| Governance.GrantIsAddedIff | app/services/governance.py:38-93 | a grant is added if and only if the role exists, another grants it and the member holds neither it nor one apart from it, whatever others hold |
| Governance.Roster.RevokeRole | app/routers/v1/governance_roles.py:151-178 | the assignment goes, or was not there |
| Governance.DutiesStaySeparate | app/services/governance.py:38-93 | over any grants and revocations nobody holds two conflicting roles, one granted by themselves, or one role twice |
| Governance.SeedSeparates | alembic/versions/8b7d2f48a456_governance_role_model.py:124-160 | the nine seeded pairs separate all different roles but system owner and contributor, looked up either way round |
| Governance.OneLineOfDefence | alembic/versions/8b7d2f48a456_governance_role_model.py:124-160 | at any time a member holds first-line roles only, or one of reviewer, authoriser and auditor alone |
| Keyset.CursorRoundTrip | app/services/evidence_service.py:137-145 | a cursor is never empty and decodes to the key it was made from |
| Keyset.CursorIsAcceptedIff | app/services/evidence_service.py:140-145 | a cursor is accepted if and only if both sides of its first bar are well formed |
| Keyset.OldestFirst | app/services/evidence_service.py:156-172 | rows come oldest first, and by identifier among rows of one moment |
| Keyset.ListEvidence | app/services/evidence_service.py:148-184 | the page is the first rows beyond the cursor, with a cursor exactly when there are more; a malformed cursor is refused |
| Keyset.ListMembers | app/routers/v1/members.py:83-149 | the same page, filtered after it was cut, under the unfiltered cursor |
| Keyset.WalkAscends | app/services/evidence_service.py:156-184 | whatever is inserted or deleted between pages, a walk's keys strictly ascend: nothing is repeated |
| Keyset.WalkIsExact | app/services/evidence_service.py:148-184 | a finished walk delivers every row present throughout exactly once |
| Keyset.WalkInvents | app/services/evidence_service.py:148-184 | a walk delivers only rows that some page's table had |
| Keyset.QuietWalkIsTheTable | app/services/evidence_service.py:148-184 | on an unchanged table the pages put together are the table |
| Keyset.WalksEnd | app/services/evidence_service.py:173-184 | a walk has at most one page more than the rows that ever exist fill |
| Keyset.FilterAfterPaging | app/routers/v1/members.py:123-141 | filtering page by page equals filtering what was read |
| Keyset.FilterKeepsIff | app/routers/v1/members.py:123-141 | the filter keeps exactly the rows with the status asked for, and all without one |
| Keyset.FilterKeepsOrder | app/routers/v1/members.py:123-141 | it keeps their order |
| Keyset.MembersAreTheFilteredList | app/routers/v1/members.py:83-149 | on an unchanged table the member list is the filter of the full list |

## Left out

- Authentication, roles, row-level security, storage of files and all transport: the tenant and the acting user are parameters.
- Races of creating, linking and deleting: these calls read and write at one moment, so one that passes its checks while another commits is not modelled; amending and confirming are.
- Rollback across several commits of one request: only the approval setters commit midway, and they are separate calls here.
- Reason texts, responsible parties, actor names, audit details and timestamps other than the expiry of clearances.
- Which failing item the treatment gate names: the query has no order, so its three park codes are one.
- Overrides of a classification and who may make them: the tier of a later snapshot is a parameter of the call, arbitrary in every run.
- Which sections, facts and risks a new assessment is prefilled with: parameters, arbitrary in every run; the proposal rule for FRIA and DPIA is kept.
- Governance roles: the check and the insert of an assignment are one step, so two simultaneous assignments are not modelled.
- Read-only displays: status, queues, roll-ups of tiers, export packs and product details.
- Keyset: timestamps, identifiers and base64 are represented by decimal numbers joined by a bar; the query's order and comparison are kept.
- Coverage: codes, titles and contributing references of a control are field copies.
- Guards: property order is kept, but which of several forbidden keys is reported is not stated beyond its being owned by a reachable object.
