/** Editing a stored claim's title and description and, optionally, moving its status. */
module UpdateClaimUseCase {
  import opened Wrappers
  import opened Errors
  import opened SeverityValue
  import opened DamageEntity
  import opened ClaimEntity
  import opened ClaimLifecycle
  import opened ClaimRepository

  /** The request body; `None` is a field the request leaves out. */
  datatype ClaimPatch = ClaimPatch(title: Option<string>, description: Option<string>, status: Option<Status>)

  /** A field given as a non-empty string replaces the current value (`if (dto.x)`). */
  function Pick(given: Option<string>, current: string): string {
    if given.Some? && given.value != "" then given.value else current
  }

  /** The claim with the title and description of the patch applied. */
  function WithFields(c: ClaimData, patch: ClaimPatch): ClaimData {
    c.(title := Pick(patch.title, c.title), description := Pick(patch.description, c.description))
  }

  /**
   * Not found (the message is the id); otherwise the fields are applied first, then
   * a transition is attempted only for a given status that differs from the current one.
   */
  function Expected(stored: map<string, ClaimData>, id: string, patch: ClaimPatch): (r: Result<ClaimData, Error>)
    ensures id !in stored ==> r == Failure(NotFound(id))
    ensures id in stored && (patch.status.None? || patch.status.value == stored[id].status) ==>
      r == Success(WithFields(stored[id], patch))
    ensures id in stored && patch.status.Some? && patch.status.value != stored[id].status ==>
      && r == Step(WithFields(stored[id], patch), Transition(patch.status.value))
      && (r.Success? <==> Edge(stored[id].status, patch.status.value)
                          && (patch.status.value == Finished ==>
                                FinishRules(Pick(patch.description, stored[id].description), stored[id].damages).Pass?))
    ensures r.Success? && patch.status.Some? ==> r.value.status == patch.status.value
    ensures r.Success? && patch.status.None? ==> r.value.status == stored[id].status
    ensures r.Success? ==>
      && r.value.title == Pick(patch.title, stored[id].title)
      && r.value.description == Pick(patch.description, stored[id].description)
      && r.value.damages == stored[id].damages
  {
    if id !in stored then Failure(NotFound(id))
    else
      var c := WithFields(stored[id], patch);
      if patch.status.Some? && patch.status.value != c.status then Step(c, Transition(patch.status.value))
      else Success(c)
  }

  /**
   * The finish guard judges the description the request brings: a short stored
   * description does not stop a request whose new description is long enough.
   */
  lemma GuardSeesNewDescription(stored: map<string, ClaimData>, id: string, description: string)
    requires id in stored && stored[id].status == Pending && HasHighSeverity(stored[id].damages)
    requires |description| > 100
    ensures Expected(stored, id, ClaimPatch(None, Some(description), Some(Finished)))
         == Success(stored[id].(description := description, status := Finished))
  {
  }

  /**
   * Finishing a Pending claim whose only damage is of low severity and whose
   * description is short is refused, on the description rule.
   */
  lemma LowSeverityShortDescriptionCannotFinish(stored: map<string, ClaimData>, id: string, d: Damage)
    requires id in stored && stored[id].status == Pending && stored[id].damages == [d] && d.severity == Low
    requires |stored[id].description| <= 100
    ensures Expected(stored, id, ClaimPatch(None, None, Some(Finished))) == Failure(DomainError(DescriptionTooShort))
  {
  }

  /** `UpdateClaimUseCase.execute`: the title and description are set on the loaded claim before the transition. */
  method Execute(repo: Repository, id: string, patch: ClaimPatch) returns (r: Result<Claim, Error>)
    requires repo.Valid()
    modifies repo
    ensures repo.Valid()
    ensures r.Success? ==> fresh(r.value)
    ensures repo.Reflects(r, Expected(old(repo.claims), id, patch), old(repo.claims), old(repo.saved))
  {
    var claim := repo.FindById(id);
    if claim == null {
      return Failure(NotFound(id));
    }
    if patch.title.Some? && patch.title.value != "" {
      claim.title := patch.title.value;
    }
    if patch.description.Some? && patch.description.value != "" {
      claim.description := patch.description.value;
    }
    if patch.status.Some? && patch.status.value != claim.status {
      var outcome := ClaimLifecycle.TransitionTo(claim, patch.status.value);
      if outcome.Fail? {
        return Failure(outcome.error);
      }
    }
    repo.Save(claim);
    r := Success(claim);
  }
}
