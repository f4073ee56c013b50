/** A player's aggregates as functions of its buildings' levels: the energy
    each building counts for and the income each building yields. The
    player's incremental bookkeeping is proved against these sums. */
module Aggregates {
  import opened Formulas
  import opened Sums
  import opened Ledger

  /** No producer of the catalog can count for negative energy, so a
      player's energy output is never negative. */
  predicate CatalogOk(types: map<string, BuildingType>)
  {
    forall t :: t in types ==> EnergyOk(types[t])
  }

  /** No income curve of the catalog drains a resource. */
  predicate NoDrain(types: map<string, BuildingType>)
  {
    forall t :: t in types ==> IncomeOk(types[t])
  }

  /** Whether a building of type `kind` takes part in the balance aggregate
      (every type with an energy curve) or in the output aggregate
      (producers only). */
  predicate Counts(kind: BuildingType, producersOnly: bool)
  {
    if producersOnly then IsProducer(kind) else kind.energy.Some?
  }

  /** The energy of each building, keyed like `levels`, that takes part in
      the chosen aggregate. */
  ghost function Contributions(types: map<string, BuildingType>, levels: map<string, nat>, producersOnly: bool): map<string, real>
  {
    map t | t in levels && t in types && Counts(types[t], producersOnly) :: EnergyAt(types[t], levels[t])
  }

  /** What the buildings keyed in `keys` add to resource `r` over `hours`
      hours when production runs at `factor`. */
  ghost function IncomeOver(types: map<string, BuildingType>, levels: map<string, nat>, keys: set<string>,
                            factor: real, hours: real, r: Resource): map<string, real>
  {
    map t | t in keys && t in levels && t in types && types[t].income.Some? && r in types[t].income.value.initial
      :: RateAt(types[t].income.value, levels[t], factor)[r] * hours
  }

  /** Changing one building's level changes an aggregate by taking the old
      contribution out and putting the new one in, which is what
      `adjustEnergy` does incrementally. */
  lemma ContributionsAfterLevelChange(types: map<string, BuildingType>, levels: map<string, nat>,
                                      t: string, level: nat, producersOnly: bool)
    requires t in types
    ensures Sum(Contributions(types, levels[t := level], producersOnly)) ==
              Sum(Contributions(types, levels, producersOnly))
              - (if t in levels && Counts(types[t], producersOnly) then EnergyAt(types[t], levels[t]) else 0.0)
              + (if Counts(types[t], producersOnly) then EnergyAt(types[t], level) else 0.0)
  {
    var before := Contributions(types, levels, producersOnly);
    var after := Contributions(types, levels[t := level], producersOnly);
    if Counts(types[t], producersOnly) {
      assert after == before[t := EnergyAt(types[t], level)];
      SumUpdate(before, t, EnergyAt(types[t], level));
    } else {
      assert after == before;
    }
  }

  /** The two energy aggregates a player keeps, `energyBalance` over every
      building with an energy curve and `energyOutput` over producers only,
      equal the sums of the contributions at the recorded levels. */
  ghost predicate Balanced(types: map<string, BuildingType>, levels: map<string, nat>, balance: real, output: real)
  {
    && balance == Sum(Contributions(types, levels, false))
    && output == Sum(Contributions(types, levels, true))
  }

  /** Setting building `t` to `level` while taking its old energy out of
      both aggregates and putting its new energy in (the output only for a
      producer) keeps the aggregates balanced: the incremental bookkeeping of
      `adjustEnergy` agrees with the sums. */
  lemma BalancedAfterLevelChange(types: map<string, BuildingType>, levels: map<string, nat>,
                                 balance: real, output: real, t: string, level: nat)
    requires Balanced(types, levels, balance, output) && t in types
    ensures var before := if t in levels then EnergyAt(types[t], levels[t]) else 0.0;
            var after := EnergyAt(types[t], level);
            Balanced(types, levels[t := level],
                     balance - before + after,
                     if IsProducer(types[t]) then output - before + after else output)
  {
    ContributionsAfterLevelChange(types, levels, t, level, false);
    ContributionsAfterLevelChange(types, levels, t, level, true);
  }

  /** The output aggregate is non-negative: no producer contributes negative
      energy. */
  lemma OutputNonNegative(types: map<string, BuildingType>, levels: map<string, nat>)
    requires CatalogOk(types)
    ensures Sum(Contributions(types, levels, true)) >= 0.0
  {
    var m := Contributions(types, levels, true);
    forall t | t in m
      ensures m[t] >= 0.0
    {
      ProducerEnergyNonNegative(types[t], levels[t]);
    }
    SumNonNegative(m);
  }

  /** Taking one more building into the income adds exactly its own income
      (nothing for a building without an income curve listing `r`). */
  lemma IncomeAddKey(types: map<string, BuildingType>, levels: map<string, nat>, keys: set<string>,
                     factor: real, hours: real, r: Resource, t: string)
    requires t !in keys && t in levels && t in types
    ensures Sum(IncomeOver(types, levels, keys + {t}, factor, hours, r)) ==
              Sum(IncomeOver(types, levels, keys, factor, hours, r))
              + (if types[t].income.Some? && r in types[t].income.value.initial
                 then RateAt(types[t].income.value, levels[t], factor)[r] * hours else 0.0)
  {
    var before := IncomeOver(types, levels, keys, factor, hours, r);
    var after := IncomeOver(types, levels, keys + {t}, factor, hours, r);
    if types[t].income.Some? && r in types[t].income.value.initial {
      var v := RateAt(types[t].income.value, levels[t], factor)[r] * hours;
      forall u
        ensures (u in after <==> u in before[t := v]) && (u in after ==> after[u] == before[t := v][u])
      {
        if u != t {
          assert u in after <==> u in before;
        }
      }
      SameEntries(after, before[t := v]);
      SumUpdate(before, t, v);
    } else {
      assert after == before;
    }
  }

  /** Income over a non-negative time at a non-negative factor is never
      negative. */
  lemma IncomeNonNegative(types: map<string, BuildingType>, levels: map<string, nat>, keys: set<string>,
                          factor: real, hours: real, r: Resource)
    requires NoDrain(types) && factor >= 0.0 && hours >= 0.0
    ensures Sum(IncomeOver(types, levels, keys, factor, hours, r)) >= 0.0
  {
    var m := IncomeOver(types, levels, keys, factor, hours, r);
    forall t | t in m
      ensures m[t] >= 0.0
    {
      var income := types[t].income.value;
      RateNonNegative(income, levels[t], factor);
      var rate := RateAt(income, levels[t], factor)[r];
      assert rate >= 0.0;
      assert rate * hours >= 0.0;
    }
    SumNonNegative(m);
  }

  /** The ledger one tick of `hours` hours later: the default income first,
      then the income of every building at `factor`. */
  ghost function TickResult(types: map<string, BuildingType>, levels: map<string, nat>, defaultRate: Amounts,
                            ledger: Amounts, factor: real, hours: real): (after: Amounts)
    requires IsLedger(ledger)
    ensures IsLedger(after)
  {
    var withDefault := Credit(ledger, defaultRate, hours);
    map r | r in withDefault :: withDefault[r] + Sum(IncomeOver(types, levels, levels.Keys, factor, hours, r))
  }

  /** With no draining income curve, a non-negative default rate and a
      non-negative factor, a tick never lowers any resource. */
  lemma TickNeverLowers(types: map<string, BuildingType>, levels: map<string, nat>, defaultRate: Amounts,
                        ledger: Amounts, factor: real, hours: real)
    requires NoDrain(types) && NonNegative(defaultRate) && factor >= 0.0 && hours >= 0.0
    requires IsLedger(ledger)
    ensures forall r :: TickResult(types, levels, defaultRate, ledger, factor, hours)[r] >= ledger[r]
  {
    CreditNeverLowers(ledger, defaultRate, hours);
    forall r
      ensures TickResult(types, levels, defaultRate, ledger, factor, hours)[r] >= ledger[r]
    {
      IncomeNonNegative(types, levels, levels.Keys, factor, hours, r);
    }
  }

  /** A ledger that holds the default income and the income of every building
      is the ledger `TickResult` describes. */
  lemma TickComplete(types: map<string, BuildingType>, levels: map<string, nat>, defaultRate: Amounts,
                     ledger: Amounts, factor: real, hours: real, after: Amounts)
    requires IsLedger(ledger) && IsLedger(after)
    requires forall r :: after[r] == Credit(ledger, defaultRate, hours)[r]
                                     + Sum(IncomeOver(types, levels, levels.Keys, factor, hours, r))
    ensures after == TickResult(types, levels, defaultRate, ledger, factor, hours)
  {
    var expected := TickResult(types, levels, defaultRate, ledger, factor, hours);
    forall r
      ensures after[r] == expected[r]
    {
    }
    SameEntries(after, expected);
  }

  /** Crediting one more building's income to a ledger that already holds the
      income of the buildings keyed in `keys` yields the ledger that holds the
      income of `keys + {t}`. */
  lemma IncomeStep(types: map<string, BuildingType>, levels: map<string, nat>, keys: set<string>,
                   factor: real, hours: real, t: string, base: Amounts, before: Amounts, after: Amounts)
    requires t !in keys && t in levels && t in types
    requires IsLedger(base) && IsLedger(before)
    requires forall r :: before[r] == base[r] + Sum(IncomeOver(types, levels, keys, factor, hours, r))
    requires after == if types[t].income.Some?
                      then Credit(before, RateAt(types[t].income.value, levels[t], factor), hours)
                      else before
    ensures IsLedger(after)
    ensures forall r :: after[r] == base[r] + Sum(IncomeOver(types, levels, keys + {t}, factor, hours, r))
  {
    forall r
      ensures after[r] == base[r] + Sum(IncomeOver(types, levels, keys + {t}, factor, hours, r))
    {
      IncomeStepAt(types, levels, keys, factor, hours, t, base, before, after, r);
    }
  }

  /** `IncomeStep` for one resource. */
  lemma IncomeStepAt(types: map<string, BuildingType>, levels: map<string, nat>, keys: set<string>,
                     factor: real, hours: real, t: string, base: Amounts, before: Amounts, after: Amounts,
                     r: Resource)
    requires t !in keys && t in levels && t in types
    requires IsLedger(base) && IsLedger(before)
    requires before[r] == base[r] + Sum(IncomeOver(types, levels, keys, factor, hours, r))
    requires after == if types[t].income.Some?
                      then Credit(before, RateAt(types[t].income.value, levels[t], factor), hours)
                      else before
    ensures after[r] == base[r] + Sum(IncomeOver(types, levels, keys + {t}, factor, hours, r))
  {
    IncomeAddKey(types, levels, keys, factor, hours, r, t);
    if types[t].income.Some? {
      CreditAt(before, RateAt(types[t].income.value, levels[t], factor), hours, r);
    }
  }
}
