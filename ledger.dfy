/** The resource ledger a player keeps: the affordability test, the deduction
    a payment makes and the credit an income makes, as functions of values. */
module Ledger {
  import opened Formulas

  /** A ledger holds a quantity for every resource kind. */
  predicate IsLedger(m: Amounts)
  {
    forall r: Resource :: r in m
  }

  predicate NonNegative(m: Amounts)
  {
    forall r :: r in m ==> m[r] >= 0.0
  }

  /** Every listed cost fits what the ledger holds; unlisted kinds are not
      constrained. */
  predicate Affordable(costs: Amounts, ledger: Amounts)
    requires IsLedger(ledger)
  {
    forall r :: r in costs ==> costs[r] <= ledger[r]
  }

  /** The ledger after paying `costs`. */
  function Deduct(ledger: Amounts, costs: Amounts): (after: Amounts)
    requires IsLedger(ledger)
    ensures IsLedger(after)
  {
    map r | r in ledger :: if r in costs then ledger[r] - costs[r] else ledger[r]
  }

  /** The ledger after receiving `rates` for `hours` hours. */
  function Credit(ledger: Amounts, rates: Amounts, hours: real): (after: Amounts)
    requires IsLedger(ledger)
    ensures IsLedger(after)
  {
    map r | r in ledger :: if r in rates then ledger[r] + rates[r] * hours else ledger[r]
  }

  /** One entry of a credited ledger. */
  lemma CreditAt(ledger: Amounts, rates: Amounts, hours: real, r: Resource)
    requires IsLedger(ledger)
    ensures Credit(ledger, rates, hours)[r] == ledger[r] + (if r in rates then rates[r] * hours else 0.0)
  {
  }

  /** A payment is affordable exactly when it leaves none of the listed
      resources below zero. */
  lemma AffordableIffNoDeficit(costs: Amounts, ledger: Amounts)
    requires IsLedger(ledger)
    ensures Affordable(costs, ledger) <==> forall r :: r in costs ==> Deduct(ledger, costs)[r] >= 0.0
  {
  }

  /** Paying what one can afford keeps a non-negative ledger non-negative;
      each listed resource drops by its cost and every other one stays. */
  lemma PayKeepsNonNegative(costs: Amounts, ledger: Amounts)
    requires IsLedger(ledger) && NonNegative(ledger) && Affordable(costs, ledger)
    ensures NonNegative(Deduct(ledger, costs))
    ensures forall r :: r in costs ==> Deduct(ledger, costs)[r] == ledger[r] - costs[r]
    ensures forall r :: r !in costs ==> Deduct(ledger, costs)[r] == ledger[r]
  {
  }

  /** Crediting back what was paid (for one hour) restores the ledger. */
  lemma RefundRestores(costs: Amounts, ledger: Amounts)
    requires IsLedger(ledger)
    ensures Credit(Deduct(ledger, costs), costs, 1.0) == ledger
  {
  }

  /** A non-negative income over a non-negative time never lowers a resource. */
  lemma CreditNeverLowers(ledger: Amounts, rates: Amounts, hours: real)
    requires IsLedger(ledger) && NonNegative(rates) && hours >= 0.0
    ensures forall r :: Credit(ledger, rates, hours)[r] >= ledger[r]
    ensures NonNegative(ledger) ==> NonNegative(Credit(ledger, rates, hours))
  {
    forall r | r in rates
      ensures rates[r] * hours >= 0.0
    {
    }
  }
}
