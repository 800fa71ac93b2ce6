/** Removing a damage from a stored claim; the use case itself insists on Pending first. */
module RemoveDamageUseCase {
  import opened Wrappers
  import opened Errors
  import opened DamageEntity
  import opened ClaimEntity
  import opened ClaimLifecycle
  import opened ClaimRepository

  const OnlyWhenPending := "Damages can only be removed when claim is Pending."

  /**
   * Not found; then a status other than Pending, checked before the damages are
   * looked at; then the Pending strategy's own id check.
   */
  function Expected(stored: map<string, ClaimData>, claimId: string, damageId: string): (r: Result<ClaimData, Error>)
    ensures claimId !in stored ==> r == Failure(ClaimIdNotFound(claimId))
    ensures claimId in stored && stored[claimId].status != Pending ==> r == Failure(DomainError(OnlyWhenPending))
    ensures claimId in stored && stored[claimId].status == Pending ==>
      (r.Success? <==> HasId(stored[claimId].damages, damageId))
    ensures r.Success? ==>
      r.value == stored[claimId].(damages := WithoutId(stored[claimId].damages, damageId))
  {
    if claimId !in stored then Failure(ClaimIdNotFound(claimId))
    else if stored[claimId].status != Pending then Failure(DomainError(OnlyWhenPending))
    else Step(stored[claimId], Remove(damageId))
  }

  /** With unique ids, a successful removal drops exactly the damage with that id. */
  lemma RemovesExactlyThatDamage(stored: map<string, ClaimData>, claimId: string, damageId: string)
    requires Expected(stored, claimId, damageId).Success? && UniqueIds(stored[claimId].damages)
    ensures var ds := stored[claimId].damages;
            var k := FindIndex(ds, damageId);
            0 <= k && Expected(stored, claimId, damageId).value.damages == ds[..k] + ds[k + 1..]
  {
    var ds := stored[claimId].damages;
    RemoveUniqueId(ds, FindIndex(ds, damageId));
  }

  /** `RemoveDamageUseCase.execute`. */
  method Execute(repo: Repository, claimId: string, damageId: string) returns (r: Result<Claim, Error>)
    requires repo.Valid()
    modifies repo
    ensures repo.Valid()
    ensures r.Success? ==> fresh(r.value)
    ensures repo.Reflects(r, Expected(old(repo.claims), claimId, damageId), old(repo.claims), old(repo.saved))
  {
    var claim := repo.FindById(claimId);
    if claim == null {
      return Failure(ClaimIdNotFound(claimId));
    }
    if claim.status != Pending {
      return Failure(DomainError(OnlyWhenPending));
    }
    var outcome := ClaimLifecycle.RemoveDamage(claim, damageId);
    if outcome.Fail? {
      return Failure(outcome.error);
    }
    repo.Save(claim);
    r := Success(claim);
  }
}
