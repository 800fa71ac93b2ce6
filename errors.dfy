/**
 * The errors the claims backend raises. `DomainError` is the base class of the
 * business-rule errors and `InvalidSeverityError` extends it; the use cases raise
 * `ClaimNotFoundException`, which is a plain `Error` whose `name` is set to
 * "ClaimNotFoundException".
 */
module Errors {

  datatype Error =
    | DomainError(message: string)
    | InvalidSeverityError(value: string)
    | ClaimNotFoundException(message: string)
  {
    /** `instanceof DomainError`: true of the base class and of its subclass. */
    predicate IsDomainError() {
      DomainError? || InvalidSeverityError?
    }

    /** The `message` the error carries. */
    function Message(): string {
      match this
      case DomainError(m) => m
      case InvalidSeverityError(v) => "Invalid severity value: " + v
      case ClaimNotFoundException(m) => m
    }

    /** The `name` property: the subclass name only where the source sets it. */
    function Name(): string {
      if ClaimNotFoundException? then "ClaimNotFoundException" else "Error"
    }
  }

  /** Rule tags that prefix some business-rule messages. */
  const FinishedIsImmutable := "BR-01"
  const NoDamageChangesInReview := "BR-02"

  /** The error is a business-rule error whose message starts with the rule tag. */
  predicate TaggedWith(e: Error, tag: string) {
    e.IsDomainError() && tag <= e.Message()
  }

  /** `new ClaimNotFoundException(message)`: an empty or missing message becomes the default one. */
  function NotFound(message: string): (e: Error)
    ensures e.ClaimNotFoundException? && !e.IsDomainError()
    ensures message != "" ==> e.Message() == message
    ensures message == "" ==> e.Message() == "Claim not found."
  {
    ClaimNotFoundException(if message == "" then "Claim not found." else message)
  }

  /** The message the use cases that quote the id give their not-found errors. */
  function ClaimIdNotFound(claimId: string): (e: Error)
    ensures e.ClaimNotFoundException?
    ensures e.Message() == "Claim with ID " + claimId + " not found."
  {
    NotFound("Claim with ID " + claimId + " not found.")
  }
}
