/**
 * The claim-detail page's two predicates about finishing, evaluated on the claim as
 * the API returns it.
 */
module ClaimDetail {
  import opened Wrappers
  import opened SeverityValue
  import opened DamageEntity
  import opened ClaimEntity
  import opened ClaimMapper

  predicate HasHighDamage(c: ClaimResponse) {
    exists i :: 0 <= i < |c.damages| && c.damages[i].severity == High
  }

  /** `canFinish`: the description rule is applied only when some damage is high. */
  function CanFinish(c: ClaimResponse): (ok: bool)
    ensures !HasHighDamage(c) ==> ok
    ensures HasHighDamage(c) ==> (ok <==> |c.description| > 100)
  {
    if HasHighDamage(c) then |c.description| > 100 else true
  }

  /**
   * `canTransitionToFinished`: false with no claim loaded; otherwise `CanFinish`
   * when the status picked in the dialog is Finished, true for any other pick.
   */
  function CanTransitionToFinished(claim: Option<ClaimResponse>, pendingStatus: Option<Status>): (ok: bool)
    ensures claim.None? ==> !ok
    ensures claim.Some? && pendingStatus != Some(Finished) ==> ok
    ensures claim.Some? && pendingStatus == Some(Finished) ==> ok == CanFinish(claim.value)
  {
    if claim.None? then false
    else if pendingStatus == Some(Finished) && HasHighDamage(claim.value) then |claim.value.description| > 100
    else true
  }

  /** The page sees a high damage exactly when the server's claim has one. */
  lemma HighDamageAgrees(c: ClaimData)
    ensures HasHighDamage(ToResponse(c)) <==> HasHighSeverity(c.damages)
  {
    var resp := ToResponse(c);
    if HasHighSeverity(c.damages) {
      var i :| 0 <= i < |c.damages| && c.damages[i].severity == High;
      assert resp.damages[i].severity == High;
    }
    if HasHighDamage(resp) {
      var i :| 0 <= i < |resp.damages| && resp.damages[i].severity == High;
      assert c.damages[i].severity == High;
    }
  }

  /**
   * Whenever the server's finish guard passes, the page's `canFinish` holds too: the
   * page's rule is the weaker one.
   */
  lemma ServerGuardImpliesCanFinish(c: ClaimData)
    requires FinishRules(c.description, c.damages).Pass?
    ensures CanFinish(ToResponse(c))
  {
    HighDamageAgrees(c);
  }

  /** The converse fails: a claim with no damages passes the page's test and fails the guard. */
  lemma CanFinishDoesNotImplyServerGuard(c: ClaimData)
    requires c.damages == []
    ensures CanFinish(ToResponse(c))
    ensures FinishRules(c.description, c.damages).Fail?
  {
    HighDamageAgrees(c);
  }

  /**
   * The page's finish test as the server applies it: both rules, unconditionally.
   * This is the rule the page should show when offering to finish a claim.
   */
  function CanFinishAsServer(c: ClaimResponse): (ok: bool)
    ensures ok <==> HasHighDamage(c) && |c.description| > 100
    ensures ok ==> CanFinish(c)
  {
    |c.description| > 100 && exists i :: 0 <= i < |c.damages| && c.damages[i].severity == High
  }

  /** The corrected test agrees with the server's finish guard on every claim. */
  lemma CanFinishAsServerMatchesGuard(c: ClaimData)
    ensures CanFinishAsServer(ToResponse(c)) <==> FinishRules(c.description, c.damages).Pass?
  {
    HighDamageAgrees(c);
  }
}
