/** The closed vocabularies of the governance database (app/models/base.py). */
module Vocabulary {
  type Id = nat
  type User = nat

  datatype Option<+T> = None | Some(value: T)

  /** EU AI Act tiers. Only the first four are real tiers; the other two mean "not decided". */
  datatype Tier = Prohibited | High | Limited | Minimal | Unclassified | RequiresContext

  /** A real tier, the only kind that a context determination may store. */
  predicate Storable(t: Tier) {
    t.Prohibited? || t.High? || t.Limited? || t.Minimal?
  }

  datatype AssessmentType = Aiia | Fria | Dpia | ModelRisk

  datatype AssessmentStatus = Draft | InReview | Approved | NeedsRefresh

  datatype ApprovalStatus = NotStarted | UnderReview | Cleared | Rejected | Expired

  datatype CoverageStatus = Open | Partial | Satisfied

  datatype Provenance = AiSuggested | CatalogueCurated | UserConfirmed | UserAmended

  datatype ClassificationStatus = PendingReview | SignedOff | ChangesAsked | Stale

  datatype ReviewDecision = Approve | RequestChanges

  datatype TreatmentDecision = Mitigate | Accept | Transfer | Avoid

  datatype Applicability = Required | Recommended | NotApplicable

  /** Refusals: the HTTP statuses the services raise, plus the two internal errors of the engine. */
  datatype Error =
    | BadRequest          // 400
    | Forbidden           // 403
    | NotFound            // 404
    | Conflict            // 409
    | StaleIfMatch        // 412
    | Unprocessable       // 422
    | Internal            // 500
    | IllegalTransition   // ValueError in apply_transition
    | MissingRank         // KeyError in re_evaluate

  /** Whitespace that Python's str.strip removes, ASCII part. */
  predicate IsSpace(c: char) {
    c == ' ' || c == '\t' || c == '\n' || c == '\r' || c == '\U{000B}' || c == '\U{000C}'
  }

  /** `(text or "").strip()` is non-empty. */
  predicate NonBlank(text: Option<string>) {
    text.Some? && exists k | 0 <= k < |text.value| :: !IsSpace(text.value[k])
  }
}
