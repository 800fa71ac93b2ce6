/**
 * The claim's lifecycle: the operations a Claim delegates to its current strategy
 * (`addDamage`, `removeDamage`, `updateDamage`, `transitionTo`), the function `Step`
 * that says what one operation does to a claim's value, and what follows from it
 * over any sequence of operations.
 */
module ClaimLifecycle {
  import opened Wrappers
  import opened Errors
  import opened SeverityValue
  import opened DamageEntity
  import opened ClaimEntity
  import PendingStrategy
  import InReviewStrategy
  import FinishedStrategy

  /** A call on the Claim aggregate. */
  datatype Op =
    | Add(damage: Damage)
    | Remove(damageId: string)
    | Update(damage: Damage)
    | Transition(target: Status)

  /** The state diagram: the status changes the lifecycle allows, guards aside. */
  predicate Edge(from: Status, to: Status) {
    || (from == Pending && to == InReview)
    || (from == Pending && to == Finished)
    || (from == InReview && to == Pending)
    || (from == InReview && to == Finished)
  }

  /** What one operation does to a claim in the strategy its status selects. */
  function Step(c: ClaimData, op: Op): (r: Result<ClaimData, Error>)
    ensures r.Success? ==> r.value == c.(status := r.value.status, damages := r.value.damages)
    ensures r.Failure? ==> r.error.DomainError?
    ensures !op.Transition? && r.Success? ==> c.status == Pending && r.value.status == Pending
    ensures op.Transition? ==>
      (r.Success? <==> Edge(c.status, op.target)
                       && (op.target == Finished ==> FinishRules(c.description, c.damages).Pass?))
    ensures op.Transition? && r.Success? ==> r.value.status == op.target && r.value.damages == c.damages
  {
    match StateFor(c.status)
    case PendingState =>
      (match op
       case Add(d) =>
         if HasId(c.damages, d.id) then Failure(DomainError(PendingStrategy.DuplicateId(d.id)))
         else Success(c.(damages := c.damages + [d]))
       case Remove(id) =>
         if !HasId(c.damages, id) then Failure(DomainError(PendingStrategy.MissingId(id)))
         else Success(c.(damages := WithoutId(c.damages, id)))
       case Update(d) =>
         if !HasId(c.damages, d.id) then Failure(DomainError(PendingStrategy.MissingForUpdate(d.id)))
         else Success(c.(damages := c.damages[FindIndex(c.damages, d.id) := d]))
       case Transition(t) =>
         if t == InReview then Success(c.(status := InReview))
         else if t == Finished then
           (match FinishRules(c.description, c.damages)
            case Fail(e) => Failure(e)
            case Pass => Success(c.(status := Finished)))
         else Failure(DomainError(PendingStrategy.NoTransition(t))))
    case InReviewState =>
      (match op
       case Transition(t) =>
         if t == Pending then Success(c.(status := Pending))
         else if t == Finished then
           (match FinishRules(c.description, c.damages)
            case Fail(e) => Failure(e)
            case Pass => Success(c.(status := Finished)))
         else Failure(DomainError(InReviewStrategy.NoTransition(t)))
       case _ => Failure(DomainError(InReviewStrategy.Blocked)))
    case FinishedState =>
      (match op
       case Add(_) => Failure(DomainError(FinishedStrategy.AddBlocked))
       case Remove(_) => Failure(DomainError(FinishedStrategy.RemoveBlocked))
       case Update(_) => Failure(DomainError(FinishedStrategy.UpdateBlocked))
       case Transition(t) => Failure(DomainError(FinishedStrategy.NoTransition(t))))
  }

  /** The claim after the operation: an operation that raises leaves it as it was. */
  function After(c: ClaimData, op: Op): ClaimData {
    match Step(c, op)
    case Success(c') => c'
    case Failure(_) => c
  }

  /** The claim after each operation in turn, whether it raised or not. */
  function Run(c: ClaimData, ops: seq<Op>): ClaimData
    decreases |ops|
  {
    if ops == [] then c else Run(After(c, ops[0]), ops[1..])
  }

  function OutcomeOf(r: Result<ClaimData, Error>): Outcome<Error> {
    match r
    case Success(_) => Pass
    case Failure(e) => Fail(e)
  }

  /** `Claim.addDamage`: delegated to the current strategy. */
  method AddDamage(claim: Claim, damage: Damage) returns (r: Outcome<Error>)
    requires claim.Valid()
    modifies claim
    ensures claim.Valid()
    ensures r == OutcomeOf(Step(old(claim.Snapshot()), Add(damage)))
    ensures claim.Snapshot() == After(old(claim.Snapshot()), Add(damage))
  {
    match claim.state
    case PendingState => r := PendingStrategy.AddDamage(claim, damage);
    case InReviewState => r := InReviewStrategy.AddDamage(claim, damage);
    case FinishedState => r := FinishedStrategy.AddDamage(claim, damage);
  }

  /** `Claim.removeDamage`: delegated to the current strategy. */
  method RemoveDamage(claim: Claim, damageId: string) returns (r: Outcome<Error>)
    requires claim.Valid()
    modifies claim
    ensures claim.Valid()
    ensures r == OutcomeOf(Step(old(claim.Snapshot()), Remove(damageId)))
    ensures claim.Snapshot() == After(old(claim.Snapshot()), Remove(damageId))
  {
    match claim.state
    case PendingState => r := PendingStrategy.RemoveDamage(claim, damageId);
    case InReviewState => r := InReviewStrategy.RemoveDamage(claim, damageId);
    case FinishedState => r := FinishedStrategy.RemoveDamage(claim, damageId);
  }

  /** `Claim.updateDamage`: delegated to the current strategy. */
  method UpdateDamage(claim: Claim, damage: Damage) returns (r: Outcome<Error>)
    requires claim.Valid()
    modifies claim
    ensures claim.Valid()
    ensures r == OutcomeOf(Step(old(claim.Snapshot()), Update(damage)))
    ensures claim.Snapshot() == After(old(claim.Snapshot()), Update(damage))
  {
    match claim.state
    case PendingState => r := PendingStrategy.UpdateDamage(claim, damage);
    case InReviewState => r := InReviewStrategy.UpdateDamage(claim, damage);
    case FinishedState => r := FinishedStrategy.UpdateDamage(claim, damage);
  }

  /** `Claim.transitionTo`: delegated to the current strategy. */
  method TransitionTo(claim: Claim, target: Status) returns (r: Outcome<Error>)
    requires claim.Valid()
    modifies claim
    ensures claim.Valid()
    ensures r == OutcomeOf(Step(old(claim.Snapshot()), Transition(target)))
    ensures claim.Snapshot() == After(old(claim.Snapshot()), Transition(target))
  {
    match claim.state
    case PendingState => r := PendingStrategy.TransitionTo(claim, target);
    case InReviewState => r := InReviewStrategy.TransitionTo(claim, target);
    case FinishedState => r := FinishedStrategy.TransitionTo(claim, target);
  }

  /** Finished has no way out, and no status can be re-entered from itself. */
  lemma EdgesOfTheDiagram(from: Status, to: Status)
    ensures Edge(from, to) ==> from != Finished && from != to
    ensures Edge(from, to) ==> to != Pending || from == InReview
  {
  }

  /** Once Finished, every operation raises: BR-01 for damage changes, and no transition. */
  lemma FinishedRefusesEverything(c: ClaimData, op: Op)
    requires c.status == Finished
    ensures Step(c, op).Failure?
    ensures !op.Transition? ==> TaggedWith(Step(c, op).error, FinishedIsImmutable)
  {
  }

  /** Once Finished, no sequence of operations changes anything about the claim. */
  lemma {:induction false} FinishedIsFinal(c: ClaimData, ops: seq<Op>)
    requires c.status == Finished
    ensures Run(c, ops) == c
    decreases |ops|
  {
    if ops != [] {
      FinishedRefusesEverything(c, ops[0]);
      FinishedIsFinal(c, ops[1..]);
    }
  }

  /** While In Review, damage changes raise BR-02 and no operation changes the damages. */
  lemma InReviewFreezesDamages(c: ClaimData, op: Op)
    requires c.status == InReview
    ensures After(c, op).damages == c.damages
    ensures !op.Transition? ==> TaggedWith(Step(c, op).error, NoDamageChangesInReview)
  {
  }

  /** Sending an In Review claim back to Pending re-enables damage changes. */
  lemma BackToPendingReenablesChanges(c: ClaimData, d: Damage)
    requires c.status == InReview && !HasId(c.damages, d.id)
    ensures Step(c, Transition(Pending)) == Success(c.(status := Pending))
    ensures Step(After(c, Transition(Pending)), Add(d)).Success?
    ensures After(After(c, Transition(Pending)), Add(d)).damages == c.damages + [d]
  {
  }

  /** Dropping one element of a list with unique ids leaves the ids unique. */
  lemma UniqueAfterDrop(ds: seq<Damage>, k: int)
    requires UniqueIds(ds) && 0 <= k < |ds|
    ensures UniqueIds(ds[..k] + ds[k + 1..])
  {
    var r := ds[..k] + ds[k + 1..];
    forall i, j | 0 <= i < j < |r| ensures r[i].id != r[j].id {
      var i' := if i < k then i else i + 1;
      var j' := if j < k then j else j + 1;
      assert r[i] == ds[i'] && r[j] == ds[j'];
    }
  }

  /** No operation can make two damages share an id. */
  lemma StepKeepsIdsUnique(c: ClaimData, op: Op)
    requires UniqueIds(c.damages)
    ensures UniqueIds(After(c, op).damages)
  {
    var r := Step(c, op);
    if r.Success? && !op.Transition? {
      var ds := c.damages;
      match op {
        case Add(d) =>
          assert r.value.damages == ds + [d];
        case Remove(id) =>
          var k := FindIndex(ds, id);
          RemoveUniqueId(ds, k);
          UniqueAfterDrop(ds, k);
        case Update(d) =>
          var k := FindIndex(ds, d.id);
          var ds' := ds[k := d];
          assert forall i :: 0 <= i < |ds'| ==> ds'[i].id == ds[i].id;
      }
    }
  }

  /** Damage ids stay unique across any sequence of operations. */
  lemma {:induction false} RunKeepsIdsUnique(c: ClaimData, ops: seq<Op>)
    requires UniqueIds(c.damages)
    ensures UniqueIds(Run(c, ops).damages)
    decreases |ops|
  {
    if ops != [] {
      StepKeepsIdsUnique(c, ops[0]);
      RunKeepsIdsUnique(After(c, ops[0]), ops[1..]);
    }
  }

  /**
   * The derived total follows every successful operation: an added price is added,
   * a removed damage's price is taken off, an update changes it by new minus old,
   * and a transition leaves it alone.
   */
  lemma TotalAfterStep(c: ClaimData, op: Op)
    requires UniqueIds(c.damages) && Step(c, op).Success?
    ensures op.Add? ==> Total(After(c, op).damages) == Total(c.damages) + op.damage.price
    ensures op.Remove? ==>
      var k := FindIndex(c.damages, op.damageId);
      0 <= k && Total(After(c, op).damages) == Total(c.damages) - c.damages[k].price
    ensures op.Update? ==>
      var k := FindIndex(c.damages, op.damage.id);
      0 <= k && Total(After(c, op).damages) == Total(c.damages) - c.damages[k].price + op.damage.price
    ensures op.Transition? ==> Total(After(c, op).damages) == Total(c.damages)
  {
    var ds := c.damages;
    match op {
      case Add(d) => TotalAppend(ds, d);
      case Remove(id) =>
        var k := FindIndex(ds, id);
        RemoveUniqueId(ds, k);
        TotalRemove(ds, k);
      case Update(d) =>
        TotalReplace(ds, FindIndex(ds, d.id), d);
      case Transition(_) =>
    }
  }
}
