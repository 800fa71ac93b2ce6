/** Moving a stored claim to another status. */
module TransitionStatusUseCase {
  import opened Wrappers
  import opened Errors
  import opened ClaimEntity
  import opened ClaimLifecycle
  import opened ClaimRepository

  /** Not found; otherwise the strategy's transition, called even when the target is the current status. */
  function Expected(stored: map<string, ClaimData>, claimId: string, target: Status): (r: Result<ClaimData, Error>)
    ensures claimId !in stored ==> r == Failure(ClaimIdNotFound(claimId))
    ensures claimId in stored && stored[claimId].status == target ==> r.Failure? && r.error.DomainError?
    ensures claimId in stored ==>
      (r.Success? <==> Edge(stored[claimId].status, target)
                       && (target == Finished ==> FinishRules(stored[claimId].description, stored[claimId].damages).Pass?))
    ensures claimId in stored && r.Failure? ==> r.error.DomainError?
    ensures r.Success? ==> r.value == stored[claimId].(status := target)
  {
    if claimId !in stored then Failure(ClaimIdNotFound(claimId))
    else Step(stored[claimId], Transition(target))
  }

  /** `TransitionStatusUseCase.execute`. */
  method Execute(repo: Repository, claimId: string, target: Status) returns (r: Result<Claim, Error>)
    requires repo.Valid()
    modifies repo
    ensures repo.Valid()
    ensures r.Success? ==> fresh(r.value)
    ensures repo.Reflects(r, Expected(old(repo.claims), claimId, target), old(repo.claims), old(repo.saved))
  {
    var claim := repo.FindById(claimId);
    if claim == null {
      return Failure(ClaimIdNotFound(claimId));
    }
    var outcome := ClaimLifecycle.TransitionTo(claim, target);
    if outcome.Fail? {
      return Failure(outcome.error);
    }
    repo.Save(claim);
    r := Success(claim);
  }
}
