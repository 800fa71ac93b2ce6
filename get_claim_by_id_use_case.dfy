/** Reading one stored claim. */
module GetClaimByIdUseCase {
  import opened Wrappers
  import opened Errors
  import opened ClaimEntity
  import opened ClaimRepository

  /**
   * `GetClaimByIdUseCase.execute`: the stored claim, or a not-found error whose
   * message is the requested id. The repository is not modified.
   */
  method Execute(repo: Repository, id: string) returns (r: Result<Claim, Error>)
    ensures r.Failure? <==> id !in repo.claims
    ensures r.Failure? ==> r.error == NotFound(id)
    ensures r.Success? ==> r.value.Valid() && r.value.Snapshot() == repo.claims[id]
  {
    var claim := repo.FindById(id);
    if claim == null {
      return Failure(NotFound(id));
    }
    r := Success(claim);
  }
}
