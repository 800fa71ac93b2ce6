/**
 * The persistence mapper: a claim's value to and from the stored document, and to the
 * API response. Timestamps are carried through unchanged.
 */
module ClaimMapper {
  import opened Wrappers
  import opened Errors
  import opened SeverityValue
  import opened DamageEntity
  import opened ClaimEntity

  /** A stored damage; `docId` is the document's `_id`. */
  datatype RawDamage = RawDamage(docId: string, part: string, severity: Severity, imageUrl: string, price: real)

  /** A stored claim; a missing or null damage list is `None`. */
  datatype RawClaim = RawClaim(
    docId: string,
    title: string,
    description: string,
    status: Status,
    damages: Option<seq<RawDamage>>,
    totalAmount: real,
    createdAt: int,
    updatedAt: int)

  /** A damage as the API returns it. */
  datatype DamageResponse = DamageResponse(id: string, part: string, severity: Severity, imageUrl: string, price: real)

  /** A claim as the API returns it. */
  datatype ClaimResponse = ClaimResponse(
    id: string,
    title: string,
    description: string,
    status: Status,
    totalAmount: real,
    damages: seq<DamageResponse>,
    createdAt: int,
    updatedAt: int)

  /** A stored damage passes the checks `new Damage` makes. */
  predicate Loadable(d: RawDamage) {
    d.price >= 0.0 && d.imageUrl != "" && d.part != ""
  }

  /** The `map` of `toDomain` over the stored damages: each goes through `new Damage`; the first refusal is raised. */
  function DamagesToDomain(rs: seq<RawDamage>): (r: Result<seq<Damage>, Error>)
    ensures r.Success? <==> forall i :: 0 <= i < |rs| ==> Loadable(rs[i])
    ensures r.Success? ==> |r.value| == |rs|
    ensures r.Success? ==> forall i :: 0 <= i < |rs| ==>
      r.value[i] == DamageRecord(rs[i].docId, rs[i].part, rs[i].severity, rs[i].imageUrl, rs[i].price)
    ensures r.Failure? ==> r.error.DomainError?
  {
    if rs == [] then Success([])
    else
      match NewDamage(rs[0].docId, rs[0].part, rs[0].severity, rs[0].imageUrl, rs[0].price)
      case Failure(e) => Failure(e)
      case Success(d) =>
        match DamagesToDomain(rs[1..])
        case Failure(e) =>
          assert exists i :: 0 <= i < |rs[1..]| && !Loadable(rs[1..][i]);
          Failure(e)
        case Success(ds) =>
          assert forall i :: 1 <= i < |rs| ==> rs[i] == rs[1..][i - 1];
          Success([d] + ds)
  }

  /**
   * `toDomain`: the damages are re-validated, and the stored total is not read: the
   * claim computes its own.
   */
  function ToDomain(raw: RawClaim): (r: Result<ClaimData, Error>)
    ensures r.Success? <==> forall i :: 0 <= i < |raw.damages.GetOr([])| ==> Loadable(raw.damages.GetOr([])[i])
    ensures r.Failure? ==> r.error.DomainError?
    ensures r.Success? ==>
      && (r.value.id, r.value.title, r.value.description, r.value.status) == (raw.docId, raw.title, raw.description, raw.status)
      && (r.value.createdAt, r.value.updatedAt) == (raw.createdAt, raw.updatedAt)
      && |r.value.damages| == |raw.damages.GetOr([])|
      && forall i :: 0 <= i < |r.value.damages| ==>
           var d := raw.damages.GetOr([])[i];
           r.value.damages[i] == DamageRecord(d.docId, d.part, d.severity, d.imageUrl, d.price)
  {
    var ds :- DamagesToDomain(raw.damages.GetOr([]));
    Success(ClaimData(raw.docId, raw.title, raw.description, raw.status, ds, raw.createdAt, raw.updatedAt))
  }

  function DamageToRaw(d: Damage): RawDamage {
    RawDamage(d.id, d.part, d.severity, d.imageUrl, d.price)
  }

  /** `toPersistence`: the total written is the claim's computed sum. */
  function ToPersistence(c: ClaimData): (raw: RawClaim)
    ensures raw.totalAmount == Total(c.damages)
    ensures raw.damages.Some? && |raw.damages.value| == |c.damages|
  {
    RawClaim(c.id, c.title, c.description, c.status, Some(seq(|c.damages|, i requires 0 <= i < |c.damages| => DamageToRaw(c.damages[i]))),
             Total(c.damages), c.createdAt, c.updatedAt)
  }

  /** `toResponse`: the damages in order, and the computed total. */
  function ToResponse(c: ClaimData): (resp: ClaimResponse)
    ensures |resp.damages| == |c.damages|
    ensures forall i :: 0 <= i < |c.damages| ==>
      resp.damages[i] == DamageResponse(c.damages[i].id, c.damages[i].part, c.damages[i].severity,
                                        c.damages[i].imageUrl, c.damages[i].price)
    ensures resp.totalAmount == Total(c.damages)
    ensures (resp.id, resp.title, resp.description, resp.status) == (c.id, c.title, c.description, c.status)
  {
    ClaimResponse(c.id, c.title, c.description, c.status, Total(c.damages),
                  seq(|c.damages|, i requires 0 <= i < |c.damages| =>
                    DamageResponse(c.damages[i].id, c.damages[i].part, c.damages[i].severity,
                                   c.damages[i].imageUrl, c.damages[i].price)),
                  c.createdAt, c.updatedAt)
  }

  /** Saving a claim and loading it back gives the same claim: same fields, same damages in order. */
  lemma LoadAfterSave(c: ClaimData)
    ensures ToDomain(ToPersistence(c)) == Success(c)
  {
    var rs := ToPersistence(c).damages.value;
    var r := DamagesToDomain(rs);
    assert forall i :: 0 <= i < |rs| ==> Loadable(rs[i]) by {
      forall i | 0 <= i < |rs| ensures Loadable(rs[i]) {
        assert rs[i] == DamageToRaw(c.damages[i]);
      }
    }
    assert r.value == c.damages;
  }

  /**
   * Loading a stored claim whose damages all validate and saving it again keeps its
   * id, title, description, status, timestamps and damages; only the total is
   * rewritten (as the computed sum) and a missing list becomes an empty one.
   */
  lemma SaveAfterLoad(raw: RawClaim)
    requires forall d :: d in raw.damages.GetOr([]) ==> Loadable(d)
    ensures ToDomain(raw).Success?
    ensures ToPersistence(ToDomain(raw).value)
         == raw.(damages := Some(raw.damages.GetOr([])), totalAmount := ToPersistence(ToDomain(raw).value).totalAmount)
  {
    var rs := raw.damages.GetOr([]);
    assert forall i :: 0 <= i < |rs| ==> Loadable(rs[i]) by {
      forall i | 0 <= i < |rs| ensures Loadable(rs[i]) {
        assert rs[i] in rs;
      }
    }
    var c := ToDomain(raw).value;
    assert ToPersistence(c).damages.value == rs;
  }

  /** The stored total plays no part in loading. */
  lemma StoredTotalIgnored(raw: RawClaim, t: real)
    ensures ToDomain(raw.(totalAmount := t)) == ToDomain(raw)
  {
  }

  /** A null or missing damage list loads as no damages. */
  lemma MissingDamagesLoadEmpty(raw: RawClaim)
    requires raw.damages.None?
    ensures ToDomain(raw).Success? && ToDomain(raw).value.damages == []
  {
  }

  /** One stored damage that fails the entity's checks makes the whole load fail. */
  lemma InvalidStoredDamageFailsLoad(raw: RawClaim, i: int)
    requires raw.damages.Some? && 0 <= i < |raw.damages.value| && !Loadable(raw.damages.value[i])
    ensures ToDomain(raw).Failure? && ToDomain(raw).error.DomainError?
  {
  }
}
