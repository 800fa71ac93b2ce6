/** The front end's toast queue: a counter for ids and the list of visible toasts. */
module ToastService {

  datatype ToastType = Success | Error | Info

  datatype Toast = Toast(id: nat, message: string, kind: ToastType)

  /** The toasts in strictly increasing id order. */
  ghost predicate IdsIncreasing(ts: seq<Toast>) {
    forall i, j :: 0 <= i < j < |ts| ==> ts[i].id < ts[j].id
  }

  /** `toasts.filter(t => t.id !== id)`. */
  function WithoutToast(ts: seq<Toast>, id: nat): (r: seq<Toast>)
    ensures |r| <= |ts|
    ensures forall i :: 0 <= i < |r| ==> r[i].id != id
  {
    if ts == [] then []
    else (if ts[0].id == id then [] else [ts[0]]) + WithoutToast(ts[1..], id)
  }

  /** Removing an id no toast carries changes nothing. */
  lemma {:induction false} WithoutUnknownToast(ts: seq<Toast>, id: nat)
    requires forall i :: 0 <= i < |ts| ==> ts[i].id != id
    ensures WithoutToast(ts, id) == ts
  {
    if ts != [] {
      assert forall i :: 0 <= i < |ts| - 1 ==> ts[1..][i] == ts[i + 1];
      WithoutUnknownToast(ts[1..], id);
    }
  }

  /** `remove` drops exactly the toasts with that id. */
  lemma {:induction false} WithoutToastMembers(ts: seq<Toast>, id: nat, t: Toast)
    ensures t in WithoutToast(ts, id) <==> t in ts && t.id != id
  {
    if ts != [] {
      WithoutToastMembers(ts[1..], id, t);
      assert ts == [ts[0]] + ts[1..];
    }
  }

  /** A lower bound on the ids survives the filter. */
  lemma {:induction false} WithoutKeepsBound(ts: seq<Toast>, id: nat, bound: int)
    requires forall i :: 0 <= i < |ts| ==> bound < ts[i].id
    ensures forall k :: 0 <= k < |WithoutToast(ts, id)| ==> bound < WithoutToast(ts, id)[k].id
  {
    if ts != [] {
      WithoutKeepsBound(ts[1..], id, bound);
    }
  }

  lemma TailIncreasing(ts: seq<Toast>)
    requires ts != [] && IdsIncreasing(ts)
    ensures IdsIncreasing(ts[1..])
    ensures forall m :: 0 <= m < |ts[1..]| ==> ts[0].id < ts[1..][m].id
  {
    var tail := ts[1..];
    forall i, j | 0 <= i < j < |tail| ensures tail[i].id < tail[j].id {
      assert tail[i] == ts[i + 1] && tail[j] == ts[j + 1];
    }
    forall m | 0 <= m < |tail| ensures ts[0].id < tail[m].id {
      assert tail[m] == ts[m + 1];
    }
  }

  lemma ConsIncreasing(t: Toast, rest: seq<Toast>)
    requires IdsIncreasing(rest)
    requires forall k :: 0 <= k < |rest| ==> t.id < rest[k].id
    ensures IdsIncreasing([t] + rest)
  {
    var r := [t] + rest;
    forall i, j | 0 <= i < j < |r| ensures r[i].id < r[j].id {
      assert r[j] == rest[j - 1];
      if i > 0 {
        assert r[i] == rest[i - 1];
      }
    }
  }

  /** Filtering keeps the survivors in their order, so the ids stay increasing. */
  lemma {:induction false} WithoutKeepsOrder(ts: seq<Toast>, id: nat)
    requires IdsIncreasing(ts)
    ensures IdsIncreasing(WithoutToast(ts, id))
  {
    if ts != [] {
      var rest := WithoutToast(ts[1..], id);
      TailIncreasing(ts);
      WithoutKeepsOrder(ts[1..], id);
      if ts[0].id != id {
        WithoutKeepsBound(ts[1..], id, ts[0].id);
        ConsIncreasing(ts[0], rest);
      }
    }
  }

  class Toasts {
    var nextId: nat
    var toasts: seq<Toast>

    /** Every toast has an id already handed out, in increasing order. */
    ghost predicate Valid()
      reads this
    {
      IdsIncreasing(toasts) && forall i :: 0 <= i < |toasts| ==> toasts[i].id < nextId
    }

    constructor()
      ensures Valid() && nextId == 0 && toasts == []
    {
      nextId := 0;
      toasts := [];
    }

    /** `show`: takes the next id and appends the toast; the auto-dismiss timer is not modelled. */
    method Show(message: string, kind: ToastType := Info) returns (id: nat)
      requires Valid()
      modifies this
      ensures Valid()
      ensures id == old(nextId) && nextId == old(nextId) + 1
      ensures toasts == old(toasts) + [Toast(id, message, kind)]
    {
      id := nextId;
      nextId := nextId + 1;
      toasts := toasts + [Toast(id, message, kind)];
    }

    /** `success`: `show` with the success kind. */
    method ShowSuccess(message: string) returns (id: nat)
      requires Valid()
      modifies this
      ensures Valid()
      ensures id == old(nextId) && nextId == old(nextId) + 1
      ensures toasts == old(toasts) + [Toast(id, message, Success)]
    {
      id := Show(message, Success);
    }

    /** `error`: `show` with the error kind. */
    method ShowError(message: string) returns (id: nat)
      requires Valid()
      modifies this
      ensures Valid()
      ensures id == old(nextId) && nextId == old(nextId) + 1
      ensures toasts == old(toasts) + [Toast(id, message, Error)]
    {
      id := Show(message, Error);
    }

    /** `remove`: the toasts with that id go, the others stay in order. */
    method Remove(id: nat)
      requires Valid()
      modifies this`toasts
      ensures Valid()
      ensures toasts == WithoutToast(old(toasts), id)
    {
      var before := toasts;
      WithoutKeepsOrder(before, id);
      toasts := WithoutToast(before, id);
      forall k | 0 <= k < |toasts| ensures toasts[k].id < nextId {
        WithoutToastMembers(before, id, toasts[k]);
      }
    }
  }
}
