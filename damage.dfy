/** The Damage entity: a line item validated once by its constructor and immutable afterwards. */
module DamageEntity {
  import opened Wrappers
  import opened Errors
  import opened SeverityValue

  /** The readonly fields of a damage. Prices are exact reals (see README). */
  datatype DamageRecord = DamageRecord(id: string, part: string, severity: Severity, imageUrl: string, price: real)

  /** The three checks the constructor makes; the id is not checked. */
  predicate WellFormed(r: DamageRecord) {
    r.price >= 0.0 && r.imageUrl != "" && r.part != ""
  }

  /** A damage that exists: one that came through the constructor. */
  type Damage = r: DamageRecord | WellFormed(r) witness DamageRecord("", "part", Low, "url", 0.0)

  /**
   * `new Damage(id, part, severity, imageUrl, price)`: price, then image URL, then
   * part; the first failing check is the error raised.
   */
  function NewDamage(id: string, part: string, severity: Severity, imageUrl: string, price: real): (r: Result<Damage, Error>)
    ensures r.Success? <==> price >= 0.0 && imageUrl != "" && part != ""
    ensures r.Success? ==> r.value == DamageRecord(id, part, severity, imageUrl, price)
    ensures price < 0.0 ==> r == Failure(DomainError("Price must be greater than or equal to 0."))
    ensures price >= 0.0 && imageUrl == "" ==> r == Failure(DomainError("Image URL must not be empty."))
    ensures price >= 0.0 && imageUrl != "" && part == "" ==> r == Failure(DomainError("Part must not be empty."))
    ensures r.Failure? ==> r.error.DomainError?
  {
    if price < 0.0 then Result<Damage, Error>.Failure(DomainError("Price must be greater than or equal to 0."))
    else if imageUrl == "" then Result<Damage, Error>.Failure(DomainError("Image URL must not be empty."))
    else if part == "" then Result<Damage, Error>.Failure(DomainError("Part must not be empty."))
    else Result<Damage, Error>.Success(DamageRecord(id, part, severity, imageUrl, price))
  }

  /** A zero price is accepted: only a strictly negative price is refused. */
  lemma ZeroPriceAccepted(id: string, part: string, severity: Severity, imageUrl: string)
    requires part != "" && imageUrl != ""
    ensures NewDamage(id, part, severity, imageUrl, 0.0).Success?
  {
  }

  /** Rebuilding a damage from its own fields gives the same damage back. */
  lemma NewDamageOfFields(d: Damage)
    ensures NewDamage(d.id, d.part, d.severity, d.imageUrl, d.price) == Success(d)
  {
  }
}
