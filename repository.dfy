/**
 * The repository the use cases depend on, as an abstract store of claim values keyed
 * by id. Loading builds a new Claim object from the stored value, as rehydration
 * does; saving upserts the claim's current value under its id.
 */
module ClaimRepository {
  import opened Wrappers
  import opened Errors
  import opened ClaimEntity

  class Repository {
    var claims: map<string, ClaimData>
    /** Every value passed to `save`, in order. */
    ghost var saved: seq<ClaimData>

    /** Each claim is stored under its own id. */
    ghost predicate Valid()
      reads this
    {
      forall k :: k in claims ==> claims[k].id == k
    }

    constructor(initial: map<string, ClaimData>)
      requires forall k :: k in initial ==> initial[k].id == k
      ensures Valid() && claims == initial && saved == []
    {
      claims := initial;
      saved := [];
    }

    /** `findById`: a fresh claim rebuilt from the stored value, or null. */
    method FindById(id: string) returns (c: Claim?)
      ensures (c != null) == (id in claims)
      ensures c != null ==> fresh(c) && c.Valid() && c.Snapshot() == claims[id]
    {
      if id !in claims {
        return null;
      }
      var d := claims[id];
      c := new Claim(d.id, d.title, d.description, d.status, d.damages, createdAt := d.createdAt, updatedAt := d.updatedAt);
    }

    /** `save`: an upsert by id. */
    method Save(c: Claim)
      requires Valid()
      modifies this
      ensures Valid()
      ensures claims == old(claims)[c.id := c.Snapshot()]
      ensures saved == old(saved) + [c.Snapshot()]
    {
      claims := claims[c.id := c.Snapshot()];
      saved := saved + [c.Snapshot()];
    }

    /**
     * A use case's effect, given the result its logic calls for: on failure the
     * error and nothing saved; on success the returned claim holds the expected
     * value, which was saved exactly once.
     */
    ghost predicate Reflects(r: Result<Claim, Error>, expected: Result<ClaimData, Error>,
                             claims0: map<string, ClaimData>, saved0: seq<ClaimData>)
      reads this, if r.Success? then {r.value} else {}
    {
      && r.Success? == expected.Success?
      && (r.Failure? ==> r.error == expected.error && claims == claims0 && saved == saved0)
      && (r.Success? ==>
            && r.value.Valid()
            && r.value.Snapshot() == expected.value
            && claims == claims0[expected.value.id := expected.value]
            && saved == saved0 + [expected.value])
    }
  }
}
