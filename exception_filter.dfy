/**
 * The catch-all exception filter: the HTTP status and message for whatever a request
 * handler threw. Writing the response and its timestamp is not modelled.
 */
module DomainExceptionFilter {
  import opened Wrappers
  import opened Errors

  /** What can reach the filter. */
  datatype Thrown =
    | HttpException(status: int, message: string)
    | Raised(error: Error)
    /** Any other thrown object, with its `name` and `message` properties if it has them. */
    | Other(givenName: Option<string>, givenMessage: Option<string>)
    /** A thrown `null` or `undefined`: reading its `name` fails inside the filter itself. */
    | Nullish

  datatype ErrorBody = ErrorBody(statusCode: int, message: string)

  const BadRequest := 400
  const NotFoundStatus := 404
  const InternalServerError := 500
  const DefaultMessage := "Internal server error"

  function NameOf(t: Thrown): Option<string> {
    match t
    case HttpException(_, _) => Some("HttpException")
    case Raised(e) => Some(e.Name())
    case Other(n, _) => n
    case Nullish => None
  }

  function MessageOf(t: Thrown): Option<string> {
    match t
    case HttpException(_, m) => Some(m)
    case Raised(e) => Some(e.Message())
    case Other(_, m) => m
    case Nullish => None
  }

  /**
   * The status chosen by the `if` chain: HTTP exceptions first, then domain errors,
   * then the name test. A nullish value gets none: the name test throws a TypeError
   * and the filter writes no response.
   */
  function StatusFor(t: Thrown): (status: Option<int>)
    ensures status.None? <==> t.Nullish?
    ensures t.HttpException? ==> status == Some(t.status)
    ensures t.Raised? && t.error.IsDomainError() ==> status == Some(BadRequest)
    ensures t.Raised? && t.error.ClaimNotFoundException? ==> status == Some(NotFoundStatus)
    ensures t.Other? ==>
      status == Some(if t.givenName == Some("ClaimNotFoundException") then NotFoundStatus else InternalServerError)
  {
    if t.HttpException? then Some(t.status)
    else if t.Raised? && t.error.IsDomainError() then Some(BadRequest)
    else if t.Nullish? then None
    else if NameOf(t) == Some("ClaimNotFoundException") then Some(NotFoundStatus)
    else Some(InternalServerError)
  }

  /**
   * The JSON body: the status again, and the message unless it is empty or missing.
   * There is no body when the filter itself fails on a nullish value.
   */
  function Body(t: Thrown): (b: Option<ErrorBody>)
    ensures b.None? <==> t.Nullish?
    ensures b.Some? ==> Some(b.value.statusCode) == StatusFor(t) && b.value.message != ""
    ensures b.Some? && MessageOf(t).Some? && MessageOf(t).value != "" ==> b.value.message == MessageOf(t).value
    ensures b.Some? && (MessageOf(t).None? || MessageOf(t).value == "") ==> b.value.message == DefaultMessage
  {
    match StatusFor(t)
    case None => None
    case Some(status) =>
      var m := MessageOf(t);
      Some(ErrorBody(status, if m.Some? && m.value != "" then m.value else DefaultMessage))
  }

  /**
   * Every error the claims core raises is answered with a 4xx status: 404 for a
   * missing claim, 400 for any business-rule error, with the error's own message.
   */
  lemma CoreErrorsAreClientErrors(e: Error)
    requires e.Message() != ""
    ensures Body(Raised(e)) == Some(ErrorBody(if e.ClaimNotFoundException? then NotFoundStatus else BadRequest, e.Message()))
  {
  }

  /** A not-found error always has a message, so its body never shows the generic one. */
  lemma NotFoundBodyQuotesMessage(message: string)
    ensures Body(Raised(NotFound(message))) == Some(ErrorBody(NotFoundStatus, NotFound(message).Message()))
  {
  }
}
