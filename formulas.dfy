/** The building catalog and the per-building formulas of the economy:
    upgrade cost, income rate, energy contribution and the factor by which an
    energy deficit throttles income. Quantities are reals; the source's
    floating-point `Math.pow` becomes `Pow` over a natural exponent. */
module Formulas {

  datatype Option<+T> = None | Some(value: T)

  /** The resource kinds of the game. The source keys its resource maps by
      name; a fixed enumeration makes every ledger total. */
  datatype Resource = Metal | Crystal | Deuterium

  /** A per-resource quantity map: a cost, a rate or a ledger. */
  type Amounts = map<Resource, real>

  /** A geometric curve over resources: `initial` per resource, growing by the
      factor `base` per level. */
  datatype Curve = Curve(initial: Amounts, base: real)

  /** The energy curve of a building type; a positive `initial` marks a
      producer, any other value a consumer. */
  datatype EnergyCurve = EnergyCurve(initial: real, base: real)

  /** An entry of the building catalog. */
  datatype BuildingType = BuildingType(cost: Curve, income: Option<Curve>, energy: Option<EnergyCurve>)

  /** `base` raised to the natural power `n`. */
  function Pow(base: real, n: nat): real
  {
    if n == 0 then 1.0 else base * Pow(base, n - 1)
  }

  lemma {:induction false} PowPositive(base: real, n: nat)
    requires base > 0.0
    ensures Pow(base, n) > 0.0
  {
    if n > 0 {
      PowPositive(base, n - 1);
    }
  }

  lemma {:induction false} PowAtLeastOne(base: real, n: nat)
    requires base >= 1.0
    ensures Pow(base, n) >= 1.0
  {
    if n > 0 {
      PowAtLeastOne(base, n - 1);
    }
  }

  lemma {:induction false} PowNonNegative(base: real, n: nat)
    requires base >= 0.0
    ensures Pow(base, n) >= 0.0
  {
    if n > 0 {
      PowNonNegative(base, n - 1);
    }
  }

  predicate IsProducer(kind: BuildingType)
  {
    kind.energy.Some? && kind.energy.value.initial > 0.0
  }

  /** A producer's energy curve grows by a non-negative base, so a producer
      never counts for negative energy. */
  predicate EnergyOk(kind: BuildingType)
  {
    IsProducer(kind) ==> kind.energy.value.base >= 0.0
  }

  /** An income curve that never drains a resource: non-negative initial
      amounts and a non-negative base. */
  predicate IncomeOk(kind: BuildingType)
  {
    kind.income.Some? ==>
      && kind.income.value.base >= 0.0
      && forall r :: r in kind.income.value.initial ==> kind.income.value.initial[r] >= 0.0
  }

  /** Cost of upgrading a building of level `level` to `level + 1`:
      `initial * base^(level - 1)` for each resource of the initial cost. */
  function UpgradeCostAt(cost: Curve, level: nat): (c: Amounts)
    requires level >= 1
    ensures c.Keys == cost.initial.Keys
  {
    map r | r in cost.initial :: cost.initial[r] * Pow(cost.base, level - 1)
  }

  /** Hourly income of a building of level `level`:
      `initial * level * base^level * factor` for each resource of the curve. */
  function RateAt(income: Curve, level: nat, factor: real): (rates: Amounts)
    ensures rates.Keys == income.initial.Keys
  {
    map r | r in income.initial :: income.initial[r] * level as real * Pow(income.base, level) * factor
  }

  /** Energy contribution of a building of level `level`:
      `initial * level * base^level`, and 0 for a type without an energy curve. */
  function EnergyAt(kind: BuildingType, level: nat): real
  {
    match kind.energy
    case None => 0.0
    case Some(e) => e.initial * level as real * Pow(e.base, level)
  }

  /** Fraction of nominal income a player's buildings receive. Nothing is
      produced without any energy output; with a surplus everything runs at
      full rate; in a deficit the output is shared in proportion to the total
      demand `energyOutput - energyBalance`, so the factor times that demand
      is exactly the output. */
  function RateEnergyFactor(energyOutput: real, energyBalance: real): (f: real)
    requires energyOutput >= 0.0
    ensures 0.0 <= f <= 1.0
    ensures energyOutput == 0.0 ==> f == 0.0
    ensures energyOutput > 0.0 && energyBalance >= 0.0 ==> f == 1.0
    ensures energyOutput > 0.0 && energyBalance < 0.0 ==>
              0.0 < f < 1.0 && f * (energyOutput - energyBalance) == energyOutput
  {
    if energyOutput == 0.0 then 0.0
    else if energyBalance < 0.0 then energyOutput / (energyOutput + (-1.0) * energyBalance)
    else 1.0
  }

  /** The upgrade cost has the resource kinds of the initial cost, and the
      first upgrade (from level 1) costs exactly the initial cost. */
  lemma UpgradeCostFirstLevel(cost: Curve)
    ensures UpgradeCostAt(cost, 1) == cost.initial
  {
  }

  /** Each level multiplies every component of the upgrade cost by `base`. */
  lemma UpgradeCostGrowth(cost: Curve, level: nat, r: Resource)
    requires level >= 1 && r in cost.initial
    ensures UpgradeCostAt(cost, level + 1)[r] == UpgradeCostAt(cost, level)[r] * cost.base
  {
    var a, b, p := cost.initial[r], cost.base, Pow(cost.base, level - 1);
    var next := UpgradeCostAt(cost, level + 1)[r];
    assert Pow(b, level) == b * p;
    assert next == a * (b * p);
    assert a * (b * p) == (a * p) * b;
    assert UpgradeCostAt(cost, level)[r] == a * p;
  }

  /** With a base of at least 1 and a non-negative initial cost, higher levels
      never cost less: `upgradeCost` is monotone in the level. */
  lemma {:induction false} UpgradeCostMonotone(cost: Curve, low: nat, high: nat, r: Resource)
    requires 1 <= low <= high && r in cost.initial
    requires cost.base >= 1.0 && cost.initial[r] >= 0.0
    ensures UpgradeCostAt(cost, low)[r] <= UpgradeCostAt(cost, high)[r]
    decreases high - low
  {
    if low < high {
      UpgradeCostMonotone(cost, low, high - 1, r);
      UpgradeCostGrowth(cost, high - 1, r);
      var c := UpgradeCostAt(cost, high - 1)[r];
      PowAtLeastOne(cost.base, high - 2);
      assert c >= 0.0;
      assert c * cost.base >= c * 1.0;
    }
  }

  /** Income is never negative for a curve with non-negative initial amounts
      and base at a non-negative factor. */
  lemma RateNonNegative(income: Curve, level: nat, factor: real)
    requires income.base >= 0.0 && factor >= 0.0
    requires forall r :: r in income.initial ==> income.initial[r] >= 0.0
    ensures forall r :: r in income.initial ==> RateAt(income, level, factor)[r] >= 0.0
  {
    PowNonNegative(income.base, level);
    var p := Pow(income.base, level);
    forall r | r in income.initial
      ensures RateAt(income, level, factor)[r] >= 0.0
    {
      var a := income.initial[r] * level as real;
      assert a >= 0.0;
      assert a * p >= 0.0;
      assert a * p * factor >= 0.0;
    }
  }

  /** The factor scales the nominal (fully powered) rate linearly. */
  lemma RateScalesWithFactor(income: Curve, level: nat, factor: real, r: Resource)
    requires r in income.initial
    ensures RateAt(income, level, factor)[r] == factor * RateAt(income, level, 1.0)[r]
  {
  }

  /** A producer never contributes negative energy when its base is
      non-negative. */
  lemma ProducerEnergyNonNegative(kind: BuildingType, level: nat)
    requires EnergyOk(kind)
    ensures IsProducer(kind) ==> EnergyAt(kind, level) >= 0.0
  {
    if IsProducer(kind) {
      var e := kind.energy.value;
      PowNonNegative(e.base, level);
      var a := e.initial * level as real;
      assert a >= 0.0;
      assert a * Pow(e.base, level) >= 0.0;
    }
  }

  /** A producer at a level of at least 1 with a positive base contributes
      strictly positive energy. */
  lemma ProducerEnergyPositive(kind: BuildingType, level: nat)
    requires level >= 1 && (kind.energy.Some? ==> kind.energy.value.base > 0.0)
    ensures IsProducer(kind) ==> EnergyAt(kind, level) > 0.0
  {
    if IsProducer(kind) {
      var e := kind.energy.value;
      PowPositive(e.base, level);
      var a := e.initial * level as real;
      assert a > 0.0;
      assert a * Pow(e.base, level) > 0.0;
    }
  }
}
