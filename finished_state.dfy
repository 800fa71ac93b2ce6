/**
 * The Finished strategy (rule BR-01): the terminal state. Every operation raises and
 * none of them touches the claim: no method here has a `modifies` clause.
 */
module FinishedStrategy {
  import opened Wrappers
  import opened Errors
  import opened DamageEntity
  import opened ClaimEntity

  const AddBlocked := FinishedIsImmutable + ": Cannot add damage to a finished claim. The record is immutable."
  const RemoveBlocked := FinishedIsImmutable + ": Cannot remove damage from a finished claim. The record is immutable."
  const UpdateBlocked := FinishedIsImmutable + ": Cannot update damage in a finished claim. The record is immutable."

  function NoTransition(target: Status): string {
    "Cannot transition from Finished to " + StatusName(target) + ". This is a final state."
  }

  method AddDamage(claim: Claim, damage: Damage) returns (r: Outcome<Error>)
    ensures r == Fail(DomainError(AddBlocked)) && TaggedWith(r.error, FinishedIsImmutable)
  {
    r := Fail(DomainError(AddBlocked));
  }

  method RemoveDamage(claim: Claim, damageId: string) returns (r: Outcome<Error>)
    ensures r == Fail(DomainError(RemoveBlocked)) && TaggedWith(r.error, FinishedIsImmutable)
  {
    r := Fail(DomainError(RemoveBlocked));
  }

  method UpdateDamage(claim: Claim, damage: Damage) returns (r: Outcome<Error>)
    ensures r == Fail(DomainError(UpdateBlocked)) && TaggedWith(r.error, FinishedIsImmutable)
  {
    r := Fail(DomainError(UpdateBlocked));
  }

  /** No outbound transition exists, whatever the target. */
  method TransitionTo(claim: Claim, target: Status) returns (r: Outcome<Error>)
    ensures r == Fail(DomainError(NoTransition(target))) && r.error.IsDomainError()
  {
    r := Fail(DomainError(NoTransition(target)));
  }
}
