# Claims management core in Dafny

A model of the backend domain of the claims-management system, plus two small
pieces of its web client. A **claim** has a title, a description, a status
(Pending, In Review, Finished) and a list of **damages**. A damage has an id, a
part, a severity (low, mid or high), an image URL and a price. The claim
entity delegates every change to a **state strategy** that its status selects:

- In the Pending state, damages can be added, removed and updated, and the claim
  can move to In Review or to Finished.
- In the In Review state, damage changes are refused under rule BR-02, and the
  claim can move back to Pending or on to Finished.
- In the Finished state, everything is refused: damage changes under rule BR-01,
  and every transition because Finished is final.

Finishing a claim is guarded by two rules: the description must be longer than
100 characters, and at least one damage must have high severity.

Around the domain there are:

- the Mongo mapper, which converts between domain claims, stored documents and
  API responses;
- the application use cases: create, get by id, update, add, update and remove a
  damage, and transition the status;
- the exception filter, which turns thrown errors into HTTP responses.

On the client side, the model covers the claim-detail page's two finish
predicates and the toast service.

How the model is laid out:

- `Claim` is a class whose methods update `damages`, `status` and `state` in
  place. `Valid()` is the invariant that the strategy tag always matches the
  status.
- The three strategies are modules of methods over a `Claim`. The delegating
  operations (`ClaimLifecycle.AddDamage` and the others) dispatch on the tag.
  Each is proved against the pure function `ClaimLifecycle.Step`, which states
  what one operation does to a claim's value. The properties of the lifecycle
  are proved about `Step` and about its fold `Run` over any sequence of
  operations.
- The repository is a class holding a map from id to claim value, plus a ghost
  log of saved claims. Every use case that saves is a method whose result and
  saves are tied by `Repository.Reflects` to a pure `Expected` function, and the
  properties of that use case are proved about its `Expected`. The get-by-id use
  case saves nothing, and its method states its result directly.
- Ids, timestamps and the clock are parameters.

## Model

| member | source | states |
|---|---|---|
| SeverityValue.Create | apps/api/src/claims/domain/value-objects/severity.vo.ts:1-22 | Creation succeeds exactly for "low", "mid" and "high", and is case-sensitive. A created severity's name is the given value. Any other value fails with `InvalidSeverityError`, a domain error that quotes the value. |
| SeverityValue.CreateName | apps/api/src/claims/domain/value-objects/severity.vo.ts:9-22 | Every severity is recreated from its own name. |
| SeverityValue.CreateIsCaseSensitive | apps/api/src/claims/domain/value-objects/severity.vo.ts:13-15 | "HIGH" and "Low" are rejected, with the message "Invalid severity value: HIGH". |
| DamageEntity.NewDamage | apps/api/src/claims/domain/entities/damage.entity.ts:11-34 | A damage is created iff the price is at least 0, the image URL is non-empty and the part is non-empty. The checks run in that order, each with its own domain-error message. A created damage keeps exactly the given fields. |
| DamageEntity.ZeroPriceAccepted | apps/api/src/claims/domain/entities/damage.entity.ts:18-20 | A price of 0 is accepted. |
| DamageEntity.NewDamageOfFields | apps/api/src/claims/domain/entities/damage.entity.ts:30-34 | Rebuilding a damage from its own fields gives that damage back. |
| Errors.NotFound | apps/api/src/claims/application/exceptions/claim-not-found.exception.ts:1-6 | `ClaimNotFoundException` is not a domain error. An empty message becomes "Claim not found."; any other message is kept. |
| Errors.ClaimIdNotFound | apps/api/src/claims/application/use-cases/add-damage.use-case.ts:15-17 | The not-found error that quotes the claim id: "Claim with ID <id> not found." |
| ClaimEntity.StateFor | apps/api/src/claims/domain/entities/claim.entity.ts:47-56 | Each status maps to its own strategy, in both directions. |
| ClaimEntity.Total | apps/api/src/claims/domain/entities/claim.entity.ts:39-41 | The total of no damages is 0, and a total is never negative. |
| ClaimEntity.FindIndex | apps/api/src/claims/domain/states/pending.state.ts:29-37 | Gives the first damage with the id, or -1 exactly when no damage has it. |
| ClaimEntity.WithoutId | apps/api/src/claims/domain/entities/claim.entity.ts:78-80 | The filtered list is no longer than the input, and no damage in it has the id. |
| ClaimEntity.FinishRules | apps/api/src/claims/domain/entities/claim.entity.ts:94-108 | The guard passes iff the description is longer than 100 and some damage is high. The description rule is reported first, each rule with its own message. |
| ClaimEntity.Claim.constructor | apps/api/src/claims/domain/entities/claim.entity.ts:20-37 | Stores the fields, with Pending and no damages by default, and sets the strategy that matches the status. |
| ClaimEntity.Claim.TotalAmount | apps/api/src/claims/domain/entities/claim.entity.ts:39-41 | The total of no damages is 0, and the total is at least the price of each damage. |
| ClaimEntity.Claim.Damages | apps/api/src/claims/domain/entities/claim.entity.ts:43-45 | The getter gives the claim's damages, same length and same order. |
| ClaimEntity.Claim.InternalAddDamage | apps/api/src/claims/domain/entities/claim.entity.ts:74-76 | Appends the damage. |
| ClaimEntity.Claim.InternalRemoveDamage | apps/api/src/claims/domain/entities/claim.entity.ts:78-80 | Keeps the damages whose id differs, in order. |
| ClaimEntity.Claim.InternalUpdateDamage | apps/api/src/claims/domain/entities/claim.entity.ts:82-87 | Replaces the damage at the first index with that id, or changes nothing when no damage has it. |
| ClaimEntity.Claim.InternalSetStatus | apps/api/src/claims/domain/entities/claim.entity.ts:89-92 | Sets the status and the strategy, and nothing else. |
| ClaimEntity.WithoutIdAppend | apps/api/src/claims/domain/entities/claim.entity.ts:78-80 | Filtering distributes over concatenation. |
| ClaimEntity.WithoutAbsentId | apps/api/src/claims/domain/entities/claim.entity.ts:78-80 | Filtering out an id that no damage carries changes nothing. |
| ClaimEntity.RemoveUniqueId | apps/api/src/claims/domain/entities/claim.entity.ts:78-80 | When ids are unique, removing the id of damage i removes exactly that damage. |
| ClaimEntity.TotalAppend | apps/api/src/claims/domain/entities/claim.entity.ts:39-41 | Appending a damage adds its price to the total. |
| ClaimEntity.TotalConcat | apps/api/src/claims/domain/entities/claim.entity.ts:39-41 | The total of a concatenation is the sum of the totals. |
| ClaimEntity.TotalReplace | apps/api/src/claims/domain/entities/claim.entity.ts:39-41 | Replacing a damage changes the total by the difference in price. |
| ClaimEntity.TotalRemove | apps/api/src/claims/domain/entities/claim.entity.ts:39-41 | Removing a damage subtracts its price from the total. |
| PendingStrategy.AddDamage | apps/api/src/claims/domain/states/pending.state.ts:10-19 | A duplicate id fails with a domain error and changes nothing. Otherwise the damage is appended. |
| PendingStrategy.RemoveDamage | apps/api/src/claims/domain/states/pending.state.ts:21-27 | An unknown id fails and changes nothing. Otherwise the damages with that id are filtered out. |
| PendingStrategy.UpdateDamage | apps/api/src/claims/domain/states/pending.state.ts:29-37 | An unknown id fails and changes nothing. Otherwise the damage with that id is replaced in place. |
| PendingStrategy.TransitionTo | apps/api/src/claims/domain/states/pending.state.ts:39-53 | Moving to In Review always succeeds. Moving to Finished succeeds iff the finish guard passes. Moving to Pending fails. A failure leaves the status and the strategy as they were. |
| InReviewStrategy.AddDamage | apps/api/src/claims/domain/states/in-review.state.ts:13-17 | Always fails with a BR-02 domain error. |
| InReviewStrategy.RemoveDamage | apps/api/src/claims/domain/states/in-review.state.ts:19-23 | Always fails with a BR-02 domain error. |
| InReviewStrategy.UpdateDamage | apps/api/src/claims/domain/states/in-review.state.ts:25-29 | Always fails with a BR-02 domain error. |
| InReviewStrategy.TransitionTo | apps/api/src/claims/domain/states/in-review.state.ts:31-46 | Moving back to Pending succeeds. Moving to Finished succeeds iff the guard passes. Moving to In Review fails. A failure leaves the status as it was. |
| FinishedStrategy.AddDamage | apps/api/src/claims/domain/states/finished.state.ts:10-14 | Always fails with a BR-01 domain error. |
| FinishedStrategy.RemoveDamage | apps/api/src/claims/domain/states/finished.state.ts:16-20 | Always fails with a BR-01 domain error. |
| FinishedStrategy.UpdateDamage | apps/api/src/claims/domain/states/finished.state.ts:22-26 | Always fails with a BR-01 domain error. |
| FinishedStrategy.TransitionTo | apps/api/src/claims/domain/states/finished.state.ts:29-33 | Every transition fails with a domain error naming the target. |
| ClaimLifecycle.Step | apps/api/src/claims/domain/entities/claim.entity.ts:58-72 | Only the status and the damages ever change, and failures are domain errors. Damage operations succeed only in Pending. A transition succeeds iff the diagram has that edge and, when the target is Finished, the guard passes; it then sets the status and keeps the damages. |
| ClaimLifecycle.AddDamage | apps/api/src/claims/domain/entities/claim.entity.ts:58-60 | Delegates to the current strategy. The outcome and the new claim are those `Step` gives for an add, and the strategy stays in step with the status. |
| ClaimLifecycle.RemoveDamage | apps/api/src/claims/domain/entities/claim.entity.ts:62-64 | As above, for a removal. |
| ClaimLifecycle.UpdateDamage | apps/api/src/claims/domain/entities/claim.entity.ts:66-68 | As above, for an update. |
| ClaimLifecycle.TransitionTo | apps/api/src/claims/domain/entities/claim.entity.ts:70-72 | As above, for a transition. |
| ClaimLifecycle.EdgesOfTheDiagram | apps/api/src/claims/domain/states/pending.state.ts:39-53 | No edge leaves Finished, and no edge loops back to its own status. Only In Review leads back to Pending. |
| ClaimLifecycle.FinishedRefusesEverything | apps/api/src/claims/domain/states/finished.state.ts:10-33 | Every operation on a finished claim fails; the damage operations fail with BR-01. |
| ClaimLifecycle.FinishedIsFinal | apps/api/src/claims/domain/states/finished.state.ts:10-33 | No sequence of operations changes a finished claim. |
| ClaimLifecycle.InReviewFreezesDamages | apps/api/src/claims/domain/states/in-review.state.ts:13-29 | No operation changes the damages of a claim in review; the damage operations fail with BR-02. |
| ClaimLifecycle.BackToPendingReenablesChanges | apps/api/src/claims/domain/states/in-review.state.ts:31-36 | After going back to Pending, a new damage can be added again. |
| ClaimLifecycle.UniqueAfterDrop | apps/api/src/claims/domain/states/pending.state.ts:21-27 | Removing one damage keeps the ids unique. |
| ClaimLifecycle.StepKeepsIdsUnique | apps/api/src/claims/domain/states/pending.state.ts:10-37 | Every operation keeps the damage ids unique. |
| ClaimLifecycle.RunKeepsIdsUnique | apps/api/src/claims/domain/states/pending.state.ts:10-37 | Any sequence of operations keeps the damage ids unique. |
| ClaimLifecycle.TotalAfterStep | apps/api/src/claims/domain/entities/claim.entity.ts:39-41 | A successful add raises the total by the new price. A removal lowers it by the removed price. An update changes it by the difference. A transition leaves it unchanged. |
| ClaimMapper.DamagesToDomain | apps/api/src/claims/infrastructure/persistence/mappers/claim.mapper.ts:27-36 | Loading the stored damages succeeds iff every one is a valid damage, and keeps their order and fields. |
| ClaimMapper.ToDomain | apps/api/src/claims/infrastructure/persistence/mappers/claim.mapper.ts:26-47 | Loading succeeds iff every stored damage is valid; a failure is a domain error. A loaded claim keeps the document's id, title, description, status and timestamps, and its damages in order with their fields. |
| ClaimMapper.ToPersistence | apps/api/src/claims/infrastructure/persistence/mappers/claim.mapper.ts:49-68 | The stored document carries every damage, and its total is the sum of the prices. |
| ClaimMapper.ToResponse | apps/api/src/claims/infrastructure/persistence/mappers/claim.mapper.ts:70-87 | The response copies the id, title, description, status and damages in order, and carries the total. |
| ClaimMapper.LoadAfterSave | apps/api/src/claims/infrastructure/persistence/mappers/claim.mapper.ts:26-68 | Loading what was saved gives back the same claim. |
| ClaimMapper.SaveAfterLoad | apps/api/src/claims/infrastructure/persistence/mappers/claim.mapper.ts:26-68 | A document whose damages are all valid loads, and saving it again reproduces it, with a recomputed total. |
| ClaimMapper.StoredTotalIgnored | apps/api/src/claims/infrastructure/persistence/mappers/claim.mapper.ts:26-47 | The stored total plays no part in loading. |
| ClaimMapper.MissingDamagesLoadEmpty | apps/api/src/claims/infrastructure/persistence/mappers/claim.mapper.ts:27 | A document without damages loads with an empty list. |
| ClaimMapper.InvalidStoredDamageFailsLoad | apps/api/src/claims/infrastructure/persistence/mappers/claim.mapper.ts:27-36 | One invalid stored damage makes the whole load fail with a domain error. |
| ClaimRepository.Repository.constructor | apps/api/src/claims/infrastructure/persistence/mongo-claim.repository.ts:15-20 | Starts from a store whose keys are the claims' ids, with nothing saved yet. |
| ClaimRepository.Repository.FindById | apps/api/src/claims/infrastructure/persistence/mongo-claim.repository.ts:29-36 | Returns null iff the id is absent. Otherwise it returns a fresh, valid claim equal to the stored one. |
| ClaimRepository.Repository.Save | apps/api/src/claims/infrastructure/persistence/mongo-claim.repository.ts:22-27 | Upserts the claim under its id and leaves every other claim unchanged. |
| CreateClaimUseCase.BuildDamages | apps/api/src/claims/application/use-cases/create-claim.use-case.ts:14-22 | Building the damages succeeds iff every input is acceptable, and keeps their order, fields and ids. |
| CreateClaimUseCase.Expected | apps/api/src/claims/application/use-cases/create-claim.use-case.ts:11-35 | Creation succeeds iff every damage entry is acceptable; a failure is a domain error. A new claim is Pending, with the given id, title and description. `createdAt` and `updatedAt` are each set from their own clock reading. Damage i is built from entry i with fresh id i; without a damage list the claim has none. |
| CreateClaimUseCase.InitialIdsUnique | apps/api/src/claims/application/use-cases/create-claim.use-case.ts:14-22 | Distinct generated ids give a claim whose damage ids are unique. |
| CreateClaimUseCase.Execute | apps/api/src/claims/application/use-cases/create-claim.use-case.ts:11-35 | The result and the single save are those of `Expected`. |
| GetClaimByIdUseCase.Execute | apps/api/src/claims/application/use-cases/get-claim-by-id.use-case.ts:13-19 | Fails with a not-found error quoting the id iff the claim is absent. Otherwise it returns the stored claim. |
| AddDamageUseCase.Expected | apps/api/src/claims/application/use-cases/add-damage.use-case.ts:12-36 | Checks, in order: not found, then an invalid severity, then the damage's own checks, whose error is passed through. Otherwise the claim's strategy decides. A Pending claim accepts the damage iff its id is new, and appends a damage with the request's fields. In Review fails with BR-02 and Finished with BR-01. |
| AddDamageUseCase.AsWrittenCallShiftsFields | apps/api/src/claims/application/use-cases/add-damage.use-case.ts:20-27 | With the six arguments as written, the severity parameter is undefined. The image URL parameter gets the severity object, the price parameter gets the image URL, and the request's price reaches no parameter. |
| AddDamageUseCase.Execute | apps/api/src/claims/application/use-cases/add-damage.use-case.ts:12-36 | The result and the save happen exactly when `Expected` succeeds. |
| UpdateDamageUseCase.Merge | apps/api/src/claims/application/use-cases/update-damage.use-case.ts:34-40 | Missing fields keep their current values, and an empty patch gives back the same damage. The merge succeeds iff the merged price is at least 0 and the merged image URL and part are non-empty; a failure is a domain error. |
| UpdateDamageUseCase.Expected | apps/api/src/claims/application/use-cases/update-damage.use-case.ts:12-47 | Not found, then not Pending, then unknown damage, each with its own error. For a Pending claim holding the damage, a failing merge's error is passed through. Otherwise the merged damage replaces the old one in place and nothing else changes. |
| UpdateDamageUseCase.EmptyPatchChangesNothing | apps/api/src/claims/application/use-cases/update-damage.use-case.ts:29-42 | An empty patch on a pending claim succeeds and leaves the claim as it was. |
| UpdateDamageUseCase.Execute | apps/api/src/claims/application/use-cases/update-damage.use-case.ts:12-47 | The result and the save are those of `Expected`. |
| RemoveDamageUseCase.Expected | apps/api/src/claims/application/use-cases/remove-damage.use-case.ts:10-28 | Not found, then not Pending, each with its own error. Otherwise the pending strategy's removal applies. |
| RemoveDamageUseCase.RemovesExactlyThatDamage | apps/api/src/claims/application/use-cases/remove-damage.use-case.ts:10-28 | With unique ids, a successful removal drops exactly the damage with that id and keeps the rest in order. |
| RemoveDamageUseCase.Execute | apps/api/src/claims/application/use-cases/remove-damage.use-case.ts:10-28 | The result and the save are those of `Expected`. |
| TransitionStatusUseCase.Expected | apps/api/src/claims/application/use-cases/transition-status.use-case.ts:9-21 | Not found fails. For a stored claim the transition succeeds iff the state diagram has that edge and, when the target is Finished, the finish guard passes. Any other failure is a domain error, including a transition to the current status. A success sets the status to the target and changes nothing else. |
| TransitionStatusUseCase.Execute | apps/api/src/claims/application/use-cases/transition-status.use-case.ts:9-21 | The result and the save are those of `Expected`. |
| UpdateClaimUseCase.Expected | apps/api/src/claims/application/use-cases/update-claim.use-case.ts:13-32 | Not found fails. The title and description are applied before any transition. Without a status, or with the current one, the update always succeeds and keeps the status. With a different status, the update is the lifecycle's transition of the patched claim. It succeeds iff the diagram has that edge and, for Finished, the guard passes on the patched description; the status is then the requested one. |
| UpdateClaimUseCase.GuardSeesNewDescription | apps/api/src/claims/application/use-cases/update-claim.use-case.ts:22-28 | A long new description sent together with Finished lets a pending claim with a high damage finish. |
| UpdateClaimUseCase.LowSeverityShortDescriptionCannotFinish | apps/api/src/claims/domain/entities/claim.entity.ts:94-108 | A pending claim with one low damage and a short description cannot be finished through an update. |
| UpdateClaimUseCase.Execute | apps/api/src/claims/application/use-cases/update-claim.use-case.ts:13-32 | The result and the save are those of `Expected`. |
| DomainExceptionFilter.StatusFor | apps/api/src/claims/infrastructure/filters/domain-exceptions.filter.ts:17-25 | An HTTP exception keeps its own status. A domain error, including an invalid severity, gives 400. Any other thrown object named "ClaimNotFoundException" gives 404, and any other object gives 500. A thrown `null` or `undefined` gets no status, because reading its `name` throws inside the filter. |
| DomainExceptionFilter.Body | apps/api/src/claims/infrastructure/filters/domain-exceptions.filter.ts:19-31 | There is a body iff the thrown value is not nullish. The body repeats the status and carries the error's message. When the message is empty or missing, it carries "Internal server error" instead. |
| DomainExceptionFilter.CoreErrorsAreClientErrors | apps/api/src/claims/infrastructure/filters/domain-exceptions.filter.ts:17-31 | Every error the core raises gets a 4xx answer with its own message: 404 for a missing claim and 400 otherwise. |
| DomainExceptionFilter.NotFoundBodyQuotesMessage | apps/api/src/claims/application/exceptions/claim-not-found.exception.ts:1-6 | A not-found error always gets 404 with its own message. |
| ClaimDetail.CanTransitionToFinished | apps/client/src/app/features/claims/pages/claim-detail/claim-detail.component.ts:171-182 | False with no claim loaded, and true for any target other than Finished. For Finished it is `canFinish`. |
| ClaimDetail.CanFinish | apps/client/src/app/features/claims/pages/claim-detail/claim-detail.component.ts:184-190 | Without a high damage, `canFinish` holds whatever the description. With one, it holds iff the description is longer than 100. |
| ClaimDetail.HighDamageAgrees | apps/client/src/app/features/claims/pages/claim-detail/claim-detail.component.ts:185 | The page sees a high damage iff the server's claim has one. |
| ClaimDetail.ServerGuardImpliesCanFinish | apps/client/src/app/features/claims/pages/claim-detail/claim-detail.component.ts:184-190 | Whenever the server's finish guard passes, `canFinish` holds. |
| ClaimDetail.CanFinishDoesNotImplyServerGuard | apps/client/src/app/features/claims/pages/claim-detail/claim-detail.component.ts:184-190 | A claim without damages passes `canFinish` but fails the server's guard. |
| ClaimDetail.CanFinishAsServer | apps/client/src/app/features/claims/pages/claim-detail/claim-detail.component.ts:184-190 | The corrected test holds iff some damage is high and the description is longer than 100. It implies `canFinish`. |
| ClaimDetail.CanFinishAsServerMatchesGuard | apps/api/src/claims/domain/entities/claim.entity.ts:94-108 | The corrected test agrees with the server's finish guard on every claim. |
| ToastService.WithoutToast | apps/client/src/app/core/services/toast.service.ts:37-39 | Removal never lengthens the list, and no remaining toast has the id. |
| ToastService.WithoutUnknownToast | apps/client/src/app/core/services/toast.service.ts:38 | Removing an id that no toast has leaves the list unchanged. |
| ToastService.WithoutToastMembers | apps/client/src/app/core/services/toast.service.ts:38 | A toast survives removal iff it was there and has another id. |
| ToastService.WithoutKeepsOrder | apps/client/src/app/core/services/toast.service.ts:38 | Removal keeps the ids strictly increasing. |
| ToastService.Toasts.constructor | apps/client/src/app/core/services/toast.service.ts:15-16 | The counter starts at 0 with no toasts. |
| ToastService.Toasts.Show | apps/client/src/app/core/services/toast.service.ts:18-27 | Uses the current counter as the id and then increments it. Appends the toast, with kind Info by default, and leaves the earlier toasts unchanged. Ids stay strictly increasing and below the counter. |
| ToastService.Toasts.ShowSuccess | apps/client/src/app/core/services/toast.service.ts:29-31 | `show` with the success kind. |
| ToastService.Toasts.ShowError | apps/client/src/app/core/services/toast.service.ts:33-35 | `show` with the error kind. |
| ToastService.Toasts.Remove | apps/client/src/app/core/services/toast.service.ts:37-39 | Drops exactly the toasts with the id and keeps the invariant. |

## Left out

- Persistence I/O, Mongoose, the `lean()` documents and `ObjectId`s are out of scope. The repository is a map of claim values; `findAll` and `delete` are not part of this model.
- Controllers, DTO class-validator decorators, NestJS modules and `main.ts` are out of scope. `CreateClaimUseCase.SeveritiesValidated` stands for the DTO's enum check on damage severities.
- Random UUIDs and the clock become parameters (`claimId`, `damageIds`, `damageId`). The create use case takes two clock readings, `createdNow` and `updatedNow`, one for each of the constructor's two `new Date()` defaults (claim.entity.ts:26-27). The model does not relate the two readings to each other.
- Prices are mathematical reals. JavaScript floating-point rounding in sums is not modelled.
- Description length counts characters, whereas JavaScript counts UTF-16 code units. The two differ only outside the Basic Multilingual Plane.
- ClaimMapper.DamagesToDomain: stored statuses and severities are typed by their enums, so a stored string outside an enum cannot be represented. The claim schema restricts `status`. The damage schema does not restrict `severity`, and the source would load such a damage without a check.
- The source types a damage's severity as the `Severity` value object (damage.entity.ts:7). The create and update use cases and the mapper instead put `SeverityEnum` strings there, and the finish guard compares it with a string (claim.entity.ts:100-102). Only the add-damage use case passes a `Severity` object, and an object never equals the string "high". The model uses one enumeration `SeverityValue.Severity` for all of these, so the mismatch between object and string is not modelled.
- The constructor keeps the caller's array as its private list (claim.entity.ts:33), so a caller that later mutates that array changes the claim. The model stores the damages as a sequence value, so this aliasing is not modelled. The `damages` getter returns a copy in the source (claim.entity.ts:43-45), as `ClaimEntity.Claim.Damages` does.
- AddDamageUseCase.Expected: the damage is built from the request's five fields as intended. The source's call (add-damage.use-case.ts:20-27) passes `dto.description`, a field the add-damage request does not declare, as the third of six arguments. That shifts the severity, image URL and price and drops `dto.price`; see Findings and `AddDamageUseCase.AsWrittenCallShiftsFields`.
- ClaimEntity.WithoutId: the contract states only the length bound and that the id is gone. Exactly which damages survive is stated in `ClaimEntity.RemoveUniqueId` and `ClaimEntity.WithoutAbsentId`.
- The toast service's auto-dismiss timer (`setTimeout`) and Angular signals are left out. The rest of the claim-detail component, the store and the HTTP repositories are UI and network code.
- `domain-error.ts`, `claim-status.enum.ts` and the state interface file are not part of this model. Their content is reflected in `Errors.Error`, `ClaimEntity.Status` and the three strategy modules.
- update-claim.use-case.spec.ts:89-98 expects a claim with one low damage and a short description to finish. The entity's guard rejects that claim, and the model follows the entity (`UpdateClaimUseCase.LowSeverityShortDescriptionCannotFinish`).
- add-damage.use-case.spec.ts:80-83 expects adding a damage to an In Review claim to fail with "Damages can only be added when claim is Pending". The code raises the BR-02 message of in-review.state.ts:14-16 instead, and the model follows the code (`AddDamageUseCase.Expected`, `InReviewStrategy.AddDamage`).

## Findings

| source | as written | input that shows it | evidently intended | confidence | as-written member | corrected member |
|---|---|---|---|---|---|---|
| apps/client/src/app/features/claims/pages/claim-detail/claim-detail.component.ts:184-190 | `canFinish` applies the description rule only when some damage is high, and is true otherwise | a claim with no damages and a short description: the page allows finishing it, and the server's finish guard rejects it | the page's test is the server's two unconditional rules: a description longer than 100 and a high damage | medium, not executed | ClaimDetail.CanFinishDoesNotImplyServerGuard | ClaimDetail.CanFinishAsServerMatchesGuard |
| apps/api/src/claims/application/use-cases/add-damage.use-case.ts:20-27 | `new Damage` gets six arguments, with `dto.description` third; the constructor declares five parameters, and the request has no `description` | any add-damage request: severity is undefined, the image URL is the severity object, the price is the image URL string, and the request's price is dropped | the five fields in the constructor's order: id, part, severity, image URL, price | high, not executed | AddDamageUseCase.AsWrittenCallShiftsFields | AddDamageUseCase.Expected |
