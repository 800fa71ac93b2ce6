/**
 * The In Review strategy (rule BR-02): every damage change is refused; the claim may
 * go back to Pending, or on to Finished through the finish guard.
 */
module InReviewStrategy {
  import opened Wrappers
  import opened Errors
  import opened DamageEntity
  import opened ClaimEntity

  const Blocked := NoDamageChangesInReview + ": Damage management is blocked while the claim is \"In Review\"."

  function NoTransition(target: Status): string {
    "Cannot transition from In Review to " + StatusName(target) + "."
  }

  /** Refused whatever the damage; the claim is not touched. */
  method AddDamage(claim: Claim, damage: Damage) returns (r: Outcome<Error>)
    ensures r == Fail(DomainError(Blocked)) && TaggedWith(r.error, NoDamageChangesInReview)
  {
    r := Fail(DomainError(Blocked));
  }

  /** Refused whatever the id; the claim is not touched. */
  method RemoveDamage(claim: Claim, damageId: string) returns (r: Outcome<Error>)
    ensures r == Fail(DomainError(Blocked)) && TaggedWith(r.error, NoDamageChangesInReview)
  {
    r := Fail(DomainError(Blocked));
  }

  /** Refused whatever the damage; the claim is not touched. */
  method UpdateDamage(claim: Claim, damage: Damage) returns (r: Outcome<Error>)
    ensures r == Fail(DomainError(Blocked)) && TaggedWith(r.error, NoDamageChangesInReview)
  {
    r := Fail(DomainError(Blocked));
  }

  /**
   * Pending is always reachable (sending a claim back for edits); Finished only when
   * the finish guard passes; In Review itself is refused.
   */
  method TransitionTo(claim: Claim, target: Status) returns (r: Outcome<Error>)
    modifies claim`status, claim`state
    ensures target == Pending ==> r == Pass
    ensures target == Finished ==> r == FinishRules(claim.description, claim.damages)
    ensures target == InReview ==> r == Fail(DomainError(NoTransition(InReview)))
    ensures r.Pass? ==> claim.status == target && claim.state == StateFor(target)
    ensures r.Fail? ==> claim.status == old(claim.status) && claim.state == old(claim.state)
  {
    if target == Pending {
      claim.InternalSetStatus(Pending, PendingState);
      return Pass;
    }
    if target == Finished {
      r := FinishRules(claim.description, claim.damages);
      if r.Fail? {
        return;
      }
      claim.InternalSetStatus(Finished, FinishedState);
      return Pass;
    }
    r := Fail(DomainError(NoTransition(target)));
  }
}
