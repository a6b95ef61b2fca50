/**
 What the moderation workflow reads, receives and records.  The audit table stores a SHA-256 of the
 four fields of the input; the rows here hold the fields themselves.
 */
module Moderation {
  import opened Options

  datatype Department = CNTT | KINHTOE | MARKETING | NGOAINGU | LUAT | QUANLY | KYTHUAT

  /** The content of a listing that `loadModerationInput` selects. */
  datatype Input = Input(title: string, description: string, category: string, department: Option<Department>)

  /** An accepted edit: the moderated fields that the `UPDATE` statement sets. */
  datatype Edit = Edit(
    title: Option<string>,
    description: Option<string>,
    category: Option<string>,
    department: Option<Department>
  )

  function Written(before: Input, edit: Edit): Input {
    Input(
      if edit.title.Some? then edit.title.value else before.title,
      if edit.description.Some? then edit.description.value else before.description,
      if edit.category.Some? then edit.category.value else before.category,
      if edit.department.Some? then edit.department else before.department
    )
  }

  /** The decision of `shouldRemoderate`, taken on the row that the request read. */
  predicate Remoderates(read: Input, edit: Edit) {
    || (edit.title.Some? && edit.title.value != read.title)
    || (edit.description.Some? && edit.description.value != read.description)
    || (edit.category.Some? && edit.category.value != read.category)
    || (edit.department.Some? && edit.department != read.department)
  }

  datatype Risk = Low | Medium | High
  datatype Recommendation = Approve | ManualReview
  datatype Failure = Timeout | Provider | Parse | Unknown

  datatype Verdict = Verdict(risk: Risk, confidence: real, violations: seq<string>, recommendation: Recommendation)

  /** `shouldAutoApprove` for the configured minimum confidence. */
  predicate Qualifies(v: Verdict, threshold: real) {
    v.risk == Low && v.confidence >= threshold && v.violations == [] && v.recommendation == Approve
  }

  /** The answer of the AI service: a structured verdict or an evaluation error. */
  datatype Evaluation = Judgement(verdict: Verdict) | Fault(failure: Failure, message: string)

  /** A row of `listing_moderation_runs`; `applied` is its APPROVED / PENDING column. */
  datatype AuditRow =
    | SuccessRow(input: Input, verdict: Verdict, applied: bool)
    | ErrorRow(input: Input, failure: Failure, message: string)

  /** Failures that `processJob` retries; the others fail the job. */
  predicate Retryable(f: Failure) {
    f == Timeout || f == Provider
  }
}
