/** A bounded count of requests and bytes, and the permits charged against it. */
module Budgets {
  /** The pair every budget keeps under its mutex. */
  datatype BudgetState = BudgetState(requests: nat, bytes: nat) {

    predicate Admits(limits: BudgetState, more: nat) {
      requests < limits.requests && bytes + more <= limits.bytes
    }

    predicate Within(limits: BudgetState) {
      requests <= limits.requests && bytes <= limits.bytes
    }

    function Plus(other: BudgetState): BudgetState {
      BudgetState(requests + other.requests, bytes + other.bytes)
    }

    /** As the source subtracts: never below zero. */
    function Minus(other: BudgetState): BudgetState {
      BudgetState(SaturatingSub(requests, other.requests), SaturatingSub(bytes, other.bytes))
    }
  }

  function SaturatingSub(a: nat, b: nat): nat {
    if a < b then 0 else a - b
  }

  class Budget {
    const limits: BudgetState
    var requests: nat
    var bytes: nat

    constructor (limits: BudgetState)
      ensures this.limits == limits && State() == BudgetState(0, 0)
    {
      this.limits := limits;
      requests, bytes := 0, 0;
    }

    function State(): BudgetState
      reads this
    {
      BudgetState(requests, bytes)
    }

    method HasCapacity(more: nat) returns (has: bool)
      ensures has == State().Admits(limits, more)
    {
      has := requests < limits.requests && bytes + more <= limits.bytes;
    }

    /** The locked half of admission: both limits are tested before either counter moves. */
    method TryAcquire(more: nat) returns (granted: bool)
      modifies this
      ensures granted == old(State()).Admits(limits, more)
      ensures State() == if granted then old(State()).Plus(BudgetState(1, more)) else old(State())
      ensures granted ==> State().Within(limits)
    {
      if requests >= limits.requests || bytes + more > limits.bytes {
        return false;
      }
      requests := requests + 1;
      bytes := bytes + more;
      return true;
    }

    /** Returning one permit. */
    method Release(held: nat)
      modifies this
      ensures State() == old(State()).Minus(BudgetState(1, held))
    {
      requests := if requests < 1 then 0 else requests - 1;
      bytes := if bytes < held then 0 else bytes - held;
    }
  }

  /** One permit; its charge can grow and shrink while it is held. */
  class BudgetPermit {
    const budget: Budget
    var bytes: nat

    constructor (budget: Budget, bytes: nat)
      ensures this.budget == budget && this.bytes == bytes
    {
      this.budget := budget;
      this.bytes := bytes;
    }

    method TryExtendBytes(more: nat) returns (extended: bool)
      modifies this, budget
      ensures extended == (old(budget.bytes) + more <= budget.limits.bytes)
      ensures budget.requests == old(budget.requests)
      ensures extended ==> bytes == old(bytes) + more && budget.bytes == old(budget.bytes) + more
      ensures !extended ==> bytes == old(bytes) && budget.bytes == old(budget.bytes)
    {
      var total := budget.bytes + more;
      if total > budget.limits.bytes {
        return false;
      }
      budget.bytes := total;
      bytes := bytes + more;
      return true;
    }

    method ShrinkBytes(less: nat)
      requires less <= bytes
      modifies this, budget
      ensures bytes == old(bytes) - less
      ensures budget.requests == old(budget.requests)
      ensures budget.bytes == SaturatingSub(old(budget.bytes), less)
    {
      bytes := bytes - less;
      budget.bytes := if budget.bytes < less then 0 else budget.bytes - less;
    }
  }
}
