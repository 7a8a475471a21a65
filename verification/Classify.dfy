/** What the spool does with a file after each answer of the journal. */
module AnswerTable {
  datatype Action = Delete | Erased | Reject | RetryScope | Retry | RetryAlert

  const ACCEPTED: set<string> := {"applied", "duplicate", "late", "held", "discarded"}

  const UNAVAILABLE: set<string> := {"unavailable", "auth_unavailable", ""}

  /** The refusals that are for good. */
  predicate Permanent(code: int, reason: string) {
    || (code == 403 && reason == "policy")
    || (code == 413 && reason == "too_large")
    || (code == 422 && reason in {"schema", "future_observed_at", "duplicate_key", "snapshot_id_reused"})
  }

  /** Code 0 is a transport error. */
  function Classify(code: int, status: string, reason: string): Action {
    if code == 0 then Retry
    else if code == 200 then (if status in ACCEPTED then Delete else RetryAlert)
    else if code == 410 && reason == "erased_subject" then Erased
    else if Permanent(code, reason) then Reject
    else if code == 409 && reason == "unknown_subject" then RetryScope
    else if code == 503 then (if reason in UNAVAILABLE then Retry else RetryAlert)
    else if 500 <= code <= 599 then Retry
    else RetryAlert
  }

  // ---- What the journal says, in its own words ----

  predicate Accepting(code: int, status: string) {
    code == 200 && status in {"applied", "duplicate", "late", "held", "discarded"}
  }

  predicate Refusing(code: int, reason: string) {
    (code, reason) in {(403, "policy"), (413, "too_large"), (422, "schema"), (422, "future_observed_at"), (422, "duplicate_key"),
                       (422, "snapshot_id_reused")}
  }

  predicate Erasing(code: int, reason: string) {
    code == 410 && reason == "erased_subject"
  }

  predicate Blocking(code: int, reason: string) {
    code == 409 && reason == "unknown_subject"
  }

  /** Three kinds of answer let a file leave spool/, each in its own way; every other answer, known or not,
      keeps it, and only one of those does not hold up the other scopes. */
  lemma ClassifyMeans(code: int, status: string, reason: string)
    ensures Classify(code, status, reason).Delete? <==> Accepting(code, status)
    ensures Classify(code, status, reason).Reject? <==> Refusing(code, reason)
    ensures Classify(code, status, reason).Erased? <==> Erasing(code, reason)
    ensures Classify(code, status, reason).RetryScope? <==> Blocking(code, reason)
    ensures Classify(code, status, reason).Retry? <==>
              code == 0 || (500 <= code <= 599 && (code == 503 ==> reason in {"unavailable", "auth_unavailable", ""}))
  {}
}
