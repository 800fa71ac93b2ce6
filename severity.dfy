/** The Severity value object: one of three strings, checked once at construction. */
module SeverityValue {
  import opened Wrappers
  import opened Errors

  datatype Severity = Low | Mid | High

  /** The string the value object holds in its `value` field. */
  function Name(s: Severity): string {
    match s
    case Low => "low"
    case Mid => "mid"
    case High => "high"
  }

  /** The list `VALID_SEVERITIES`. */
  const ValidSeverities: seq<string> := ["low", "mid", "high"]

  /**
   * `new Severity(value)` and `Severity.create(value)`, which only calls the
   * constructor: an exact, case-sensitive membership test on `ValidSeverities`.
   */
  function Create(value: string): (r: Result<Severity, Error>)
    ensures r.Success? <==> value in ValidSeverities
    ensures r.Success? ==> Name(r.value) == value
    ensures r.Failure? ==> r.error == InvalidSeverityError(value) && r.error.IsDomainError()
  {
    if value == "low" then Success(Low)
    else if value == "mid" then Success(Mid)
    else if value == "high" then Success(High)
    else Failure(InvalidSeverityError(value))
  }

  /** Every severity is accepted back from its own name, and names are distinct. */
  lemma CreateName(s: Severity)
    ensures Create(Name(s)) == Success(s)
  {
  }

  /** Case matters: "HIGH" and "Low" are not severities. */
  lemma CreateIsCaseSensitive()
    ensures Create("HIGH").Failure? && Create("Low").Failure?
    ensures Create("HIGH").error.Message() == "Invalid severity value: HIGH"
  {
  }
}
