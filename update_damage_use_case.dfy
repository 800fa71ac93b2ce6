/** Editing a damage of a stored claim: absent fields keep their current values. */
module UpdateDamageUseCase {
  import opened Wrappers
  import opened Errors
  import opened SeverityValue
  import opened DamageEntity
  import opened ClaimEntity
  import opened ClaimLifecycle
  import opened ClaimRepository

  /** The request body; `None` is a field the request leaves out. */
  datatype DamagePatch = DamagePatch(part: Option<string>, severity: Option<Severity>,
                                     imageUrl: Option<string>, price: Option<real>)

  const OnlyWhenPending := "Damages can only be updated when claim is Pending."

  function MissingDamage(damageId: string): string {
    "Damage with ID " + damageId + " not found."
  }

  /** The replacement damage: each field from the patch when given (`??`), else the current one. */
  function Merge(damageId: string, current: Damage, patch: DamagePatch): (r: Result<Damage, Error>)
    ensures patch == DamagePatch(None, None, None, None) && current.id == damageId ==> r == Success(current)
    ensures r.Success? <==>
      patch.price.GetOr(current.price) >= 0.0 && patch.imageUrl.GetOr(current.imageUrl) != "" && patch.part.GetOr(current.part) != ""
    ensures r.Success? ==>
      && r.value.id == damageId
      && r.value.part == patch.part.GetOr(current.part)
      && r.value.severity == patch.severity.GetOr(current.severity)
      && r.value.imageUrl == patch.imageUrl.GetOr(current.imageUrl)
      && r.value.price == patch.price.GetOr(current.price)
    ensures r.Failure? ==> r.error.DomainError? && (patch.part.Some? || patch.imageUrl.Some? || patch.price.Some?)
  {
    NewDamage(damageId, patch.part.GetOr(current.part), patch.severity.GetOr(current.severity),
              patch.imageUrl.GetOr(current.imageUrl), patch.price.GetOr(current.price))
  }

  /**
   * Not found; then a status other than Pending; then an absent damage; then the
   * merged damage's own checks; then the Pending strategy's update.
   */
  function Expected(stored: map<string, ClaimData>, claimId: string, damageId: string, patch: DamagePatch)
    : (r: Result<ClaimData, Error>)
    ensures claimId !in stored ==> r == Failure(ClaimIdNotFound(claimId))
    ensures claimId in stored && stored[claimId].status != Pending ==> r == Failure(DomainError(OnlyWhenPending))
    ensures claimId in stored && stored[claimId].status == Pending && !HasId(stored[claimId].damages, damageId) ==>
      r == Failure(DomainError(MissingDamage(damageId)))
    ensures claimId in stored && stored[claimId].status == Pending && HasId(stored[claimId].damages, damageId) ==>
      var ds := stored[claimId].damages;
      var merged := Merge(damageId, ds[FindIndex(ds, damageId)], patch);
      && (merged.Failure? ==> r == Failure(merged.error))
      && (merged.Success? ==> r == Success(stored[claimId].(damages := ds[FindIndex(ds, damageId) := merged.value])))
    ensures r.Success? ==>
      var ds := stored[claimId].damages;
      var k := FindIndex(ds, damageId);
      && 0 <= k
      && Merge(damageId, ds[k], patch).Success?
      && r.value == stored[claimId].(damages := ds[k := Merge(damageId, ds[k], patch).value])
  {
    if claimId !in stored then Failure(ClaimIdNotFound(claimId))
    else
      var c := stored[claimId];
      if c.status != Pending then Failure(DomainError(OnlyWhenPending))
      else if !HasId(c.damages, damageId) then Failure(DomainError(MissingDamage(damageId)))
      else
        var updated :- Merge(damageId, c.damages[FindIndex(c.damages, damageId)], patch);
        Step(c, Update(updated))
  }

  /** An empty patch on an existing damage of a Pending claim changes nothing. */
  lemma EmptyPatchChangesNothing(stored: map<string, ClaimData>, claimId: string, damageId: string)
    requires claimId in stored && stored[claimId].status == Pending && HasId(stored[claimId].damages, damageId)
    ensures Expected(stored, claimId, damageId, DamagePatch(None, None, None, None)) == Success(stored[claimId])
  {
    var ds := stored[claimId].damages;
    var k := FindIndex(ds, damageId);
    assert ds[k := ds[k]] == ds;
  }

  /** `UpdateDamageUseCase.execute`. */
  method Execute(repo: Repository, claimId: string, damageId: string, patch: DamagePatch)
    returns (r: Result<Claim, Error>)
    requires repo.Valid()
    modifies repo
    ensures repo.Valid()
    ensures r.Success? ==> fresh(r.value)
    ensures repo.Reflects(r, Expected(old(repo.claims), claimId, damageId, patch), old(repo.claims), old(repo.saved))
  {
    var claim := repo.FindById(claimId);
    if claim == null {
      return Failure(ClaimIdNotFound(claimId));
    }
    if claim.status != Pending {
      return Failure(DomainError(OnlyWhenPending));
    }
    var damages := claim.Damages();
    var index := FindIndex(damages, damageId);
    if index == -1 {
      return Failure(DomainError(MissingDamage(damageId)));
    }
    var updated :- Merge(damageId, damages[index], patch);
    var outcome := ClaimLifecycle.UpdateDamage(claim, updated);
    if outcome.Fail? {
      return Failure(outcome.error);
    }
    repo.Save(claim);
    r := Success(claim);
  }
}
