/** Creating a claim, Pending, with optional initial damages. */
module CreateClaimUseCase {
  import opened Wrappers
  import opened Errors
  import opened SeverityValue
  import opened DamageEntity
  import opened ClaimEntity
  import opened ClaimRepository

  /** One entry of the request's damage list; the severity arrives as a string. */
  datatype DamageInput = DamageInput(part: string, severity: string, imageUrl: string, price: real)

  /** The request body; a null or missing damage list is `None`. */
  datatype CreateClaimInput = CreateClaimInput(title: string, description: string, damages: Option<seq<DamageInput>>)

  /** The request validation has accepted every severity (it checks them against the enum). */
  predicate SeveritiesValidated(inputs: seq<DamageInput>) {
    forall i :: 0 <= i < |inputs| ==> inputs[i].severity in ValidSeverities
  }

  /** The entry passes the checks `new Damage` makes. */
  predicate Acceptable(input: DamageInput) {
    input.price >= 0.0 && input.imageUrl != "" && input.part != ""
  }

  /**
   * The `map` that builds the damages: the i-th entry becomes a damage with the i-th
   * fresh id, its fields copied; the first entry the entity refuses is raised.
   */
  function BuildDamages(inputs: seq<DamageInput>, ids: seq<string>): (r: Result<seq<Damage>, Error>)
    requires |ids| == |inputs| && SeveritiesValidated(inputs)
    ensures r.Success? <==> forall i :: 0 <= i < |inputs| ==> Acceptable(inputs[i])
    ensures r.Success? ==> |r.value| == |inputs|
    ensures r.Success? ==> forall i :: 0 <= i < |inputs| ==>
      r.value[i] == DamageRecord(ids[i], inputs[i].part, Create(inputs[i].severity).value,
                                 inputs[i].imageUrl, inputs[i].price)
    ensures r.Failure? ==> r.error.DomainError?
  {
    if inputs == [] then Success([])
    else
      var first := inputs[0];
      match NewDamage(ids[0], first.part, Create(first.severity).value, first.imageUrl, first.price)
      case Failure(e) => Failure(e)
      case Success(d) =>
        assert SeveritiesValidated(inputs[1..]) by {
          forall i | 0 <= i < |inputs| - 1 ensures inputs[1..][i].severity in ValidSeverities {
            assert inputs[1..][i] == inputs[i + 1];
          }
        }
        match BuildDamages(inputs[1..], ids[1..])
        case Failure(e) =>
          assert exists i :: 0 <= i < |inputs[1..]| && !Acceptable(inputs[1..][i]);
          Failure(e)
        case Success(ds) =>
          assert forall i :: 1 <= i < |inputs| ==> inputs[i] == inputs[1..][i - 1] && ids[i] == ids[1..][i - 1];
          Success([d] + ds)
  }

  /**
   * The claim the use case builds: always Pending. The two timestamps are two
   * separate clock readings, one per constructor default.
   */
  function Expected(claimId: string, damageIds: seq<string>, dto: CreateClaimInput, createdNow: int, updatedNow: int): (r: Result<ClaimData, Error>)
    requires |damageIds| == |dto.damages.GetOr([])| && SeveritiesValidated(dto.damages.GetOr([]))
    ensures r.Success? ==> r.value.status == Pending && r.value.id == claimId
    ensures r.Success? ==> r.value.title == dto.title && r.value.description == dto.description
    ensures dto.damages.None? ==> r.Success? && r.value.damages == []
    ensures r.Success? <==> forall i :: 0 <= i < |dto.damages.GetOr([])| ==> Acceptable(dto.damages.GetOr([])[i])
    ensures r.Failure? ==> r.error.DomainError?
    ensures r.Success? ==> r.value.createdAt == createdNow && r.value.updatedAt == updatedNow
    ensures r.Success? ==>
      var inputs := dto.damages.GetOr([]);
      && |r.value.damages| == |inputs|
      && forall i :: 0 <= i < |inputs| ==>
           r.value.damages[i] == DamageRecord(damageIds[i], inputs[i].part, Create(inputs[i].severity).value,
                                              inputs[i].imageUrl, inputs[i].price)
  {
    var ds :- BuildDamages(dto.damages.GetOr([]), damageIds);
    Success(ClaimData(claimId, dto.title, dto.description, Pending, ds, createdNow, updatedNow))
  }

  /** With one distinct fresh id per entry, the new claim's damage ids are unique. */
  lemma InitialIdsUnique(claimId: string, damageIds: seq<string>, dto: CreateClaimInput, createdNow: int, updatedNow: int)
    requires |damageIds| == |dto.damages.GetOr([])| && SeveritiesValidated(dto.damages.GetOr([]))
    requires forall i, j :: 0 <= i < j < |damageIds| ==> damageIds[i] != damageIds[j]
    requires Expected(claimId, damageIds, dto, createdNow, updatedNow).Success?
    ensures UniqueIds(Expected(claimId, damageIds, dto, createdNow, updatedNow).value.damages)
  {
    var ds := Expected(claimId, damageIds, dto, createdNow, updatedNow).value.damages;
    forall i, j | 0 <= i < j < |ds| ensures ds[i].id != ds[j].id {
      assert ds[i].id == damageIds[i] && ds[j].id == damageIds[j];
    }
  }

  /**
   * `CreateClaimUseCase.execute`, with the fresh claim id, one fresh id per damage
   * entry and the clock reading passed in. An entry the entity refuses stops the call
   * before anything is saved.
   */
  method Execute(repo: Repository, claimId: string, damageIds: seq<string>, dto: CreateClaimInput, createdNow: int, updatedNow: int)
    returns (r: Result<Claim, Error>)
    requires repo.Valid()
    requires |damageIds| == |dto.damages.GetOr([])| && SeveritiesValidated(dto.damages.GetOr([]))
    modifies repo
    ensures repo.Valid()
    ensures r.Success? ==> fresh(r.value)
    ensures repo.Reflects(r, Expected(claimId, damageIds, dto, createdNow, updatedNow), old(repo.claims), old(repo.saved))
  {
    var damages :- BuildDamages(dto.damages.GetOr([]), damageIds);
    var claim := new Claim(claimId, dto.title, dto.description, Pending, damages, createdAt := createdNow, updatedAt := updatedNow);
    repo.Save(claim);
    r := Success(claim);
  }
}
