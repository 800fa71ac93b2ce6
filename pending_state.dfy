/**
 * The Pending strategy: damages may be added, removed and updated, subject to id
 * checks; the claim may move on to In Review, or to Finished through the finish guard.
 */
module PendingStrategy {
  import opened Wrappers
  import opened Errors
  import opened DamageEntity
  import opened ClaimEntity

  function DuplicateId(id: string): string {
    "Damage with ID " + id + " already exists in this claim."
  }

  function MissingId(id: string): string {
    "Damage with ID " + id + " not found."
  }

  function MissingForUpdate(id: string): string {
    "Cannot update: Damage with ID " + id + " not found."
  }

  function NoTransition(target: Status): string {
    "Cannot transition from Pending to " + StatusName(target) + "."
  }

  /** An id already present is refused; a new one is appended at the end. */
  method AddDamage(claim: Claim, damage: Damage) returns (r: Outcome<Error>)
    modifies claim`damages
    ensures HasId(old(claim.damages), damage.id) ==> r == Fail(DomainError(DuplicateId(damage.id)))
    ensures !HasId(old(claim.damages), damage.id) ==> r == Pass
    ensures claim.damages == if r.Pass? then old(claim.damages) + [damage] else old(claim.damages)
  {
    var present := HasId(claim.Damages(), damage.id);
    if present {
      return Fail(DomainError(DuplicateId(damage.id)));
    }
    claim.InternalAddDamage(damage);
    r := Pass;
  }

  /** An absent id is refused; a present one is filtered out of the list. */
  method RemoveDamage(claim: Claim, damageId: string) returns (r: Outcome<Error>)
    modifies claim`damages
    ensures !HasId(old(claim.damages), damageId) ==> r == Fail(DomainError(MissingId(damageId)))
    ensures HasId(old(claim.damages), damageId) ==> r == Pass
    ensures claim.damages == if r.Pass? then WithoutId(old(claim.damages), damageId) else old(claim.damages)
  {
    var present := HasId(claim.Damages(), damageId);
    if !present {
      return Fail(DomainError(MissingId(damageId)));
    }
    claim.InternalRemoveDamage(damageId);
    r := Pass;
  }

  /** An absent id is refused; otherwise the first damage with that id is replaced in place. */
  method UpdateDamage(claim: Claim, damage: Damage) returns (r: Outcome<Error>)
    modifies claim`damages
    ensures !HasId(old(claim.damages), damage.id) ==> r == Fail(DomainError(MissingForUpdate(damage.id)))
    ensures HasId(old(claim.damages), damage.id) ==> r == Pass
    ensures claim.damages == if r.Pass? then old(claim.damages)[FindIndex(old(claim.damages), damage.id) := damage]
                             else old(claim.damages)
  {
    var index := FindIndex(claim.Damages(), damage.id);
    if index == -1 {
      return Fail(DomainError(MissingForUpdate(damage.id)));
    }
    claim.InternalUpdateDamage(damage);
    r := Pass;
  }

  /**
   * In Review is always reachable; Finished only when the finish guard passes, and a
   * failing guard leaves the status alone; Pending itself is refused.
   */
  method TransitionTo(claim: Claim, target: Status) returns (r: Outcome<Error>)
    modifies claim`status, claim`state
    ensures target == InReview ==> r == Pass
    ensures target == Finished ==> r == FinishRules(claim.description, claim.damages)
    ensures target == Pending ==> r == Fail(DomainError(NoTransition(Pending)))
    ensures r.Pass? ==> claim.status == target && claim.state == StateFor(target)
    ensures r.Fail? ==> claim.status == old(claim.status) && claim.state == old(claim.state)
  {
    if target == InReview {
      claim.InternalSetStatus(InReview, InReviewState);
      return Pass;
    }
    if target == Finished {
      r := FinishRules(claim.description, claim.damages);
      if r.Fail? {
        return;
      }
      claim.InternalSetStatus(Finished, FinishedState);
      return Pass;
    }
    r := Fail(DomainError(NoTransition(target)));
  }
}
