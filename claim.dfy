/**
 * The Claim aggregate: its status, the strategy object that status selects, its
 * damage list, the derived total and the raw mutators the strategies call.
 */
module ClaimEntity {
  import opened Wrappers
  import opened Errors
  import opened SeverityValue
  import opened DamageEntity

  datatype Status = Pending | InReview | Finished

  /** The string values of the `ClaimStatus` enum, as messages and documents show them. */
  function StatusName(s: Status): string {
    match s
    case Pending => "Pending"
    case InReview => "In Review"
    case Finished => "Finished"
  }

  /** The strategy object a claim delegates its operations to. */
  datatype State = PendingState | InReviewState | FinishedState

  /**
   * `mapStatusToState`: the strategy for a status, chosen by a plain switch with
   * Pending as the default; no transition and no guard runs.
   */
  function StateFor(s: Status): (st: State)
    ensures st == InReviewState <==> s == InReview
    ensures st == FinishedState <==> s == Finished
    ensures st == PendingState <==> s == Pending
  {
    match s
    case InReview => InReviewState
    case Finished => FinishedState
    case _ => PendingState
  }

  /** Everything a claim holds: what is persisted and what the use cases observe. */
  datatype ClaimData = ClaimData(
    id: string,
    title: string,
    description: string,
    status: Status,
    damages: seq<Damage>,
    createdAt: int,
    updatedAt: int)

  /** `totalAmount`: the prices added up from the left, as `reduce` with seed 0 does. */
  function Total(ds: seq<Damage>): (t: real)
    ensures ds == [] ==> t == 0.0
    ensures t >= 0.0
  {
    if ds == [] then 0.0 else Total(ds[..|ds| - 1]) + ds[|ds| - 1].price
  }

  /** `damages.some(d => d.id === id)`. */
  predicate HasId(ds: seq<Damage>, id: string) {
    exists i :: 0 <= i < |ds| && ds[i].id == id
  }

  /** No two damages of the list share an id. */
  ghost predicate UniqueIds(ds: seq<Damage>) {
    forall i, j :: 0 <= i < j < |ds| ==> ds[i].id != ds[j].id
  }

  /** `damages.some(d => d.severity === SeverityEnum.HIGH)`. */
  predicate HasHighSeverity(ds: seq<Damage>) {
    exists i :: 0 <= i < |ds| && ds[i].severity == High
  }

  /** `damages.findIndex(d => d.id === id)`: the first match, or -1. */
  function FindIndex(ds: seq<Damage>, id: string): (k: int)
    ensures -1 <= k < |ds|
    ensures k == -1 <==> !HasId(ds, id)
    ensures k >= 0 ==> ds[k].id == id && forall j :: 0 <= j < k ==> ds[j].id != id
  {
    if ds == [] then -1
    else if ds[0].id == id then 0
    else
      var k := FindIndex(ds[1..], id);
      assert forall j :: 0 <= j < |ds| - 1 ==> ds[1..][j] == ds[j + 1];
      if k == -1 then -1 else k + 1
  }

  /** `damages.filter(d => d.id !== id)`. */
  function WithoutId(ds: seq<Damage>, id: string): (r: seq<Damage>)
    ensures |r| <= |ds|
    ensures forall i :: 0 <= i < |r| ==> r[i].id != id
  {
    if ds == [] then []
    else (if ds[0].id == id then [] else [ds[0]]) + WithoutId(ds[1..], id)
  }

  const DescriptionTooShort := "Claim description must exceed 100 characters to be finished."
  const NoHighSeverity := "Claim must have at least one high severity damage to be finished."

  /**
   * `validateFinishRules`: the description must be longer than 100 characters and
   * some damage must be of high severity; the description rule is checked first.
   */
  function FinishRules(description: string, ds: seq<Damage>): (r: Outcome<Error>)
    ensures r.Pass? <==> |description| > 100 && HasHighSeverity(ds)
    ensures |description| <= 100 ==> r == Fail(DomainError(DescriptionTooShort))
    ensures |description| > 100 && !HasHighSeverity(ds) ==> r == Fail(DomainError(NoHighSeverity))
  {
    if |description| <= 100 then Fail(DomainError(DescriptionTooShort))
    else if !HasHighSeverity(ds) then Fail(DomainError(NoHighSeverity))
    else Pass
  }

  class Claim {
    const id: string
    var title: string
    var description: string
    var status: Status
    /** The private `_damages` list. */
    var damages: seq<Damage>
    /** The private strategy object. */
    var state: State
    const createdAt: int
    const updatedAt: int

    /** The status and the strategy object agree. */
    ghost predicate Valid()
      reads this
    {
      state == StateFor(status)
    }

    /** The claim's value. */
    function Snapshot(): ClaimData
      reads this
    {
      ClaimData(id, title, description, status, damages, createdAt, updatedAt)
    }

    /**
     * The strategy is derived from the given status, with no guard run: a claim
     * can be built directly in any status.
     */
    constructor(id: string, title: string, description: string, status: Status := Pending,
                damages: seq<Damage> := [], createdAt: int, updatedAt: int)
      ensures Valid()
      ensures Snapshot() == ClaimData(id, title, description, status, damages, createdAt, updatedAt)
    {
      this.id := id;
      this.title := title;
      this.description := description;
      this.status := status;
      this.damages := damages;
      this.createdAt := createdAt;
      this.updatedAt := updatedAt;
      this.state := StateFor(status);
    }

    /** The `totalAmount` getter, recomputed on every read. */
    function TotalAmount(): (t: real)
      reads this
      ensures damages == [] ==> t == 0.0
      ensures forall k :: 0 <= k < |damages| ==> damages[k].price <= t
    {
      forall k | 0 <= k < |damages| ensures damages[k].price <= Total(damages) {
        TotalRemove(damages, k);
      }
      Total(damages)
    }

    /** The `damages` getter; a sequence is a value, so the caller gets a copy. */
    function Damages(): (ds: seq<Damage>)
      reads this
      ensures |ds| == |damages| && forall i :: 0 <= i < |ds| ==> ds[i] == damages[i]
    {
      damages
    }

    method InternalAddDamage(d: Damage)
      modifies this`damages
      ensures damages == old(damages) + [d]
    {
      damages := damages + [d];
    }

    method InternalRemoveDamage(damageId: string)
      modifies this`damages
      ensures damages == WithoutId(old(damages), damageId)
    {
      damages := WithoutId(damages, damageId);
    }

    method InternalUpdateDamage(d: Damage)
      modifies this`damages
      ensures var k := FindIndex(old(damages), d.id);
              damages == if k == -1 then old(damages) else old(damages)[k := d]
    {
      var index := FindIndex(damages, d.id);
      if index > -1 {
        damages := damages[index := d];
      }
    }

    method InternalSetStatus(s: Status, st: State)
      modifies this`status, this`state
      ensures status == s && state == st
    {
      status := s;
      state := st;
    }
  }

  /** The filter distributes over concatenation. */
  lemma {:induction false} WithoutIdAppend(a: seq<Damage>, b: seq<Damage>, id: string)
    ensures WithoutId(a + b, id) == WithoutId(a, id) + WithoutId(b, id)
  {
    if a != [] {
      var head := if a[0].id == id then [] else [a[0]];
      assert (a + b)[0] == a[0];
      assert (a + b)[1..] == a[1..] + b;
      assert WithoutId(a + b, id) == head + WithoutId(a[1..] + b, id);
      assert WithoutId(a, id) == head + WithoutId(a[1..], id);
      WithoutIdAppend(a[1..], b, id);
    } else {
      assert a + b == b;
    }
  }

  /** Filtering out an id the list does not hold keeps the list as it is. */
  lemma {:induction false} WithoutAbsentId(ds: seq<Damage>, id: string)
    requires !HasId(ds, id)
    ensures WithoutId(ds, id) == ds
  {
    if ds != [] {
      assert !HasId(ds[1..], id) by {
        forall i | 0 <= i < |ds| - 1 ensures ds[1..][i].id != id {
          assert ds[1..][i] == ds[i + 1];
        }
      }
      WithoutAbsentId(ds[1..], id);
    }
  }

  /** Filtering out the id of `x` from `pre + [x] + post` when only `x` carries it. */
  lemma WithoutOnlyHolder(pre: seq<Damage>, x: Damage, post: seq<Damage>)
    requires !HasId(pre, x.id) && !HasId(post, x.id)
    ensures WithoutId(pre + [x] + post, x.id) == pre + post
  {
    WithoutIdAppend(pre + [x], post, x.id);
    WithoutIdAppend(pre, [x], x.id);
    assert WithoutId([x], x.id) == [];
    WithoutAbsentId(pre, x.id);
    WithoutAbsentId(post, x.id);
  }

  /**
   * With unique ids, filtering out the id of the damage at `i` removes exactly that
   * damage and keeps the others in order.
   */
  lemma RemoveUniqueId(ds: seq<Damage>, i: int)
    requires UniqueIds(ds) && 0 <= i < |ds|
    ensures WithoutId(ds, ds[i].id) == ds[..i] + ds[i + 1..]
  {
    var pre, post := ds[..i], ds[i + 1..];
    assert ds == pre + [ds[i]] + post;
    assert !HasId(pre, ds[i].id) by {
      forall j | 0 <= j < |pre| ensures pre[j].id != ds[i].id {
        assert pre[j] == ds[j];
      }
    }
    assert !HasId(post, ds[i].id) by {
      forall j | 0 <= j < |post| ensures post[j].id != ds[i].id {
        assert post[j] == ds[i + 1 + j];
      }
    }
    WithoutOnlyHolder(pre, ds[i], post);
  }

  /** Appending adds the new price to the total. */
  lemma TotalAppend(ds: seq<Damage>, d: Damage)
    ensures Total(ds + [d]) == Total(ds) + d.price
  {
    assert (ds + [d])[..|ds|] == ds;
  }

  /** The total is additive over concatenation. */
  lemma {:induction false} TotalConcat(a: seq<Damage>, b: seq<Damage>)
    ensures Total(a + b) == Total(a) + Total(b)
  {
    if b == [] {
      assert a + b == a;
    } else {
      var b' := b[..|b| - 1];
      assert a + b == (a + b') + [b[|b| - 1]];
      assert b == b' + [b[|b| - 1]];
      TotalAppend(a + b', b[|b| - 1]);
      TotalAppend(b', b[|b| - 1]);
      TotalConcat(a, b');
    }
  }

  /** Replacing the damage at `k` changes the total by the new price minus the old one. */
  lemma TotalReplace(ds: seq<Damage>, k: int, d: Damage)
    requires 0 <= k < |ds|
    ensures Total(ds[k := d]) == Total(ds) - ds[k].price + d.price
  {
    assert ds == ds[..k] + [ds[k]] + ds[k + 1..];
    assert ds[k := d] == ds[..k] + [d] + ds[k + 1..];
    TotalConcat(ds[..k] + [ds[k]], ds[k + 1..]);
    TotalConcat(ds[..k] + [d], ds[k + 1..]);
    TotalAppend(ds[..k], ds[k]);
    TotalAppend(ds[..k], d);
  }

  /** Removing the damage at `k` takes its price off the total. */
  lemma TotalRemove(ds: seq<Damage>, k: int)
    requires 0 <= k < |ds|
    ensures Total(ds[..k] + ds[k + 1..]) == Total(ds) - ds[k].price
  {
    var pre, head, post := ds[..k], ds[..k + 1], ds[k + 1..];
    assert head + post == ds;
    assert head[..|head| - 1] == pre;
    TotalConcat(head, post);
    TotalConcat(pre, post);
  }
}
