/** Adding a damage to a stored claim through the claim's current strategy. */
module AddDamageUseCase {
  import opened Wrappers
  import opened Errors
  import opened SeverityValue
  import opened DamageEntity
  import opened ClaimEntity
  import opened ClaimLifecycle
  import opened ClaimRepository

  /** The request body: the severity arrives as a string. */
  datatype AddDamageInput = AddDamageInput(part: string, severity: string, imageUrl: string, price: real)

  /** A JavaScript argument value, as far as the `new Damage(...)` call needs. */
  datatype Argument = Text(text: string) | Number(number: real) | SeverityObject(severity: Severity) | Undefined

  /** `new Damage` declares five parameters: id, part, severity, imageUrl, price. */
  const DamageParameters := 5

  /** JavaScript binds arguments to parameters by position: extra arguments are ignored, missing ones are undefined. */
  function Bind(args: seq<Argument>): (params: seq<Argument>)
    ensures |params| == DamageParameters
    ensures forall i :: 0 <= i < DamageParameters ==> params[i] == (if i < |args| then args[i] else Undefined)
  {
    seq(DamageParameters, i requires 0 <= i < DamageParameters => if i < |args| then args[i] else Undefined)
  }

  /**
   * The six arguments the use case passes: the third is `dto.description`, a field
   * the add-damage request does not have, so it is undefined.
   */
  function ArgumentsAsWritten(damageId: string, dto: AddDamageInput, severity: Severity): seq<Argument> {
    [Text(damageId), Text(dto.part), Undefined, SeverityObject(severity), Text(dto.imageUrl), Number(dto.price)]
  }

  /**
   * As written, the severity parameter is undefined, the image URL parameter gets the
   * severity, the price parameter gets the image URL, and the request's price reaches
   * no parameter at all.
   */
  lemma AsWrittenCallShiftsFields(damageId: string, dto: AddDamageInput, severity: Severity)
    ensures var params := Bind(ArgumentsAsWritten(damageId, dto, severity));
      && params[2] == Undefined
      && params[3] == SeverityObject(severity)
      && params[4] == Text(dto.imageUrl)
      && Number(dto.price) !in params
  {
    var params := Bind(ArgumentsAsWritten(damageId, dto, severity));
    assert forall i :: 0 <= i < |params| ==> !params[i].Number?;
  }

  /**
   * The result the use case calls for: not found; then the severity, then the
   * damage's own checks; then whatever the claim's strategy does with the new damage.
   */
  function Expected(stored: map<string, ClaimData>, claimId: string, damageId: string, dto: AddDamageInput)
    : (r: Result<ClaimData, Error>)
    ensures claimId !in stored ==> r == Failure(ClaimIdNotFound(claimId))
    ensures claimId in stored && dto.severity !in ValidSeverities ==> r == Failure(InvalidSeverityError(dto.severity))
    ensures r.Success? ==>
      && claimId in stored && stored[claimId].status == Pending
      && Create(dto.severity).Success?
      && var before := stored[claimId].damages;
         && r.value == stored[claimId].(damages := r.value.damages)
         && |r.value.damages| == |before| + 1 && r.value.damages[..|before|] == before
         && r.value.damages[|before|] == DamageRecord(damageId, dto.part, Create(dto.severity).value, dto.imageUrl, dto.price)
    ensures claimId in stored && dto.severity in ValidSeverities
            && NewDamage(damageId, dto.part, Create(dto.severity).value, dto.imageUrl, dto.price).Failure? ==>
      r == Failure(NewDamage(damageId, dto.part, Create(dto.severity).value, dto.imageUrl, dto.price).error)
    ensures claimId in stored && stored[claimId].status == Pending && dto.severity in ValidSeverities
            && NewDamage(damageId, dto.part, Create(dto.severity).value, dto.imageUrl, dto.price).Success? ==>
      (r.Success? <==> !HasId(stored[claimId].damages, damageId))
    ensures claimId in stored && stored[claimId].status == InReview && dto.severity in ValidSeverities
            && NewDamage(damageId, dto.part, Create(dto.severity).value, dto.imageUrl, dto.price).Success? ==>
      r.Failure? && TaggedWith(r.error, NoDamageChangesInReview)
    ensures claimId in stored && stored[claimId].status == Finished && dto.severity in ValidSeverities
            && NewDamage(damageId, dto.part, Create(dto.severity).value, dto.imageUrl, dto.price).Success? ==>
      r.Failure? && TaggedWith(r.error, FinishedIsImmutable)
  {
    if claimId !in stored then Failure(ClaimIdNotFound(claimId))
    else
      var severity :- Create(dto.severity);
      var damage :- NewDamage(damageId, dto.part, severity, dto.imageUrl, dto.price);
      Step(stored[claimId], Add(damage))
  }

  /** `AddDamageUseCase.execute`, with the fresh damage id passed in. */
  method Execute(repo: Repository, claimId: string, damageId: string, dto: AddDamageInput)
    returns (r: Result<Claim, Error>)
    requires repo.Valid()
    modifies repo
    ensures repo.Valid()
    ensures r.Success? ==> fresh(r.value)
    ensures repo.Reflects(r, Expected(old(repo.claims), claimId, damageId, dto), old(repo.claims), old(repo.saved))
  {
    var claim := repo.FindById(claimId);
    if claim == null {
      return Failure(ClaimIdNotFound(claimId));
    }
    var severity :- Create(dto.severity);
    var damage :- NewDamage(damageId, dto.part, severity, dto.imageUrl, dto.price);
    var outcome := ClaimLifecycle.AddDamage(claim, damage);
    if outcome.Fail? {
      return Failure(outcome.error);
    }
    repo.Save(claim);
    r := Success(claim);
  }
}
