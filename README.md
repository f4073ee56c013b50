# OGame economy engine in Dafny

This project models the economy engine of `ogame.js`: a `Universe` of
players, each `Player` owning a resource ledger, at most one `Building` per
building type of the catalog, and two energy aggregates (`energyOutput`, the
energy of all producers, and `energyBalance`, output minus consumption).
Players pay for upgrades from their ledger, buildings grow by one level per
upgrade, and every tick credits each player the default income plus the
income of its buildings, throttled by the energy factor when the player runs
an energy deficit.

Layout:

- `formulas.dfy` (module `Formulas`): the catalog datatypes and the
  per-building formulas: upgrade cost, income rate, energy contribution and
  the energy factor. These are pure functions with lemmas about them.
- `ledger.dfy` (module `Ledger`): the ledger as a value. It covers
  affordability, the deduction a payment makes and the credit an income
  makes.
- `sums.dfy` (module `Sums`): the sum of the values of a finite map, with
  the update lemmas the energy bookkeeping needs.
- `aggregates.dfy` (module `Aggregates`): a player's energy aggregates and
  tick income, defined from scratch from the building levels. These are the
  specifications the incremental code is proved against.
- `ogame.dfy` (module `Ogame`): the classes `Building`, `Player` and
  `Universe` with the source's fields and methods. The loops of the source
  are `while` loops with invariants.

The central results are these:
- `Player.Valid` is established by the `Player` constructor and preserved
  by `Player.Upgrade` and `Player.Tick`, and so by `Universe.AddPlayer` and
  `Universe.Tick`. A payment on its own keeps it whenever the ledger stays
  total (`Player.StillValid`). `Building.Upgrade` and
  `Building.AdjustEnergy` on their own do not update the player's recorded
  levels; `Player.Raise` does both. The invariant says that the
  incrementally maintained `energyBalance` and `energyOutput` always equal
  the sums of the buildings' energies over all buildings with an energy
  curve, and over producers only. It also says that each building's energy
  is the energy of its level.
- Resources never drop below zero when the catalog has no draining income
  curve and the default rate is non-negative: an upgrade keeps a
  non-negative ledger non-negative (`Player.Upgrade`), and under those
  conditions a tick never lowers a resource (`Player.Tick`,
  `Aggregates.TickNeverLowers`). A catalog with a negative income, such as
  a building that burns deuterium, may drive a resource below zero, as in
  the source.
- A tick credits exactly the default income plus each building's throttled
  income (`Player.Tick`, `Aggregates.TickResult`).
- A payment either fails and changes nothing, or deducts exactly the listed
  costs (`Player.Pay`, `Player.Upgrade`).

Behaviour follows the code of `ogame.js`. Where a description of the
system differs, the code wins:
- A new building starts at level 1 (`ogame.js:95`). There is no level 0,
  no `upgrading` flag, and no upgrade timer or construction time. An
  upgrade takes effect at once.
- `addPlayer` replaces a player already registered under the same name
  instead of failing.
- The default income is credited by `Player.tick` itself, not by a
  separate per-player timer.

## Model

| member | source | states |
|---|---|---|
| Formulas.RateEnergyFactor | ogame.js:163-173 | the factor lies in [0, 1]; it is 0 without energy output and 1 with output and a non-negative balance; in a deficit it lies strictly between 0 and 1, and times the total demand (output minus balance) it gives exactly the output |
| Formulas.UpgradeCostAt | ogame.js:123-133 | the upgrade cost lists exactly the resources of the initial cost |
| Formulas.RateAt | ogame.js:175-190 | the rate lists exactly the resources of the income curve |
| Formulas.UpgradeCostFirstLevel | ogame.js:123-133 | at level 1 the upgrade cost equals the initial cost |
| Formulas.UpgradeCostGrowth | ogame.js:123-133 | each level multiplies every cost component by the base |
| Formulas.UpgradeCostMonotone | ogame.js:123-133 | with a base of at least 1 and a non-negative initial cost, a higher level never costs less |
| Formulas.RateNonNegative | ogame.js:175-190 | every component of the rate is non-negative for a curve with non-negative initial amounts and base at a non-negative factor |
| Formulas.RateScalesWithFactor | ogame.js:175-190 | the throttled rate is the factor times the fully powered rate |
| Formulas.ProducerEnergyNonNegative | ogame.js:107-121 | a producer whose energy base is non-negative never contributes negative energy |
| Formulas.ProducerEnergyPositive | ogame.js:107-121 | a producer at level >= 1 with a positive energy base contributes positive energy |
| Ledger.Deduct | ogame.js:58-60 | paying keeps the ledger total over the resource kinds |
| Ledger.Credit | ogame.js:81-83 | crediting income keeps the ledger total over the resource kinds |
| Ledger.AffordableIffNoDeficit | ogame.js:44-62 | costs are affordable exactly when paying them leaves no listed resource negative |
| Ledger.PayKeepsNonNegative | ogame.js:54-62 | an affordable payment keeps the ledger non-negative, lowers each listed resource by its cost and leaves the others alone |
| Ledger.RefundRestores | ogame.js:54-62 | crediting back exactly what was paid restores the ledger (the inverse of a payment) |
| Ledger.CreditNeverLowers | ogame.js:81-83 | a non-negative income over a non-negative time never lowers a resource and keeps a non-negative ledger non-negative |
| Aggregates.ContributionsAfterLevelChange | ogame.js:107-121 | changing one building's level changes an energy aggregate by removing the old contribution and adding the new one |
| Aggregates.BalancedAfterLevelChange | ogame.js:107-121 | the subtract-old, add-new update of `adjustEnergy` keeps both aggregates equal to the sums over the buildings, and the output changes only for a producer |
| Aggregates.OutputNonNegative | ogame.js:107-121 | when no producer of the catalog has a negative energy base, the output aggregate is non-negative |
| Aggregates.IncomeAddKey | ogame.js:85-87 | taking one more building into a tick adds exactly that building's income for the resource, and nothing for a building without income in it |
| Aggregates.IncomeNonNegative | ogame.js:192-200 | with no draining income curve in the catalog, the buildings' income over a non-negative time at a non-negative factor is non-negative |
| Aggregates.TickResult | ogame.js:77-88 | the ledger after a tick, the default income plus every building's income, is again total |
| Aggregates.TickNeverLowers | ogame.js:77-88 | with no draining income curve and a non-negative default rate, a tick never lowers any resource |
| Aggregates.TickComplete | ogame.js:77-88 | a ledger holding the default income plus every building's income is exactly the tick result |
| Aggregates.IncomeStep | ogame.js:85-87 | crediting one more building's income extends the set of buildings already credited by that building |
| Ogame.Building.constructor | ogame.js:92-99 | a new building is at level 1 with the energy of level 1, and that energy enters the player's balance (and its output for a producer) |
| Ogame.Building.Upgrade | ogame.js:101-105 | the level goes up by one; the energy becomes that of the new level (a type without an energy curve keeps its energy); a building whose energy was that of its level still has the energy of its level; the aggregates lose the old energy and gain the new one |
| Ogame.Building.AdjustEnergy | ogame.js:107-121 | the energy is recomputed for the current level, the balance shifts by new minus old, the output does the same only for a producer, and a type without an energy curve changes nothing |
| Ogame.Building.UpgradeCost | ogame.js:123-133 | the cost is `initial[r] * base^(level-1)` for each resource of the initial cost, and only those |
| Ogame.Building.Rate | ogame.js:175-190 | the rate is `initial[r] * level * base^level * factor` for each resource of the income curve, at the player's current energy factor |
| Ogame.Building.Tick | ogame.js:192-200 | a building with an income curve credits its rate for one tick to its player; any other building changes nothing |
| Ogame.Player.constructor | ogame.js:31-42 | a new player has no buildings, the starting resources, the configured default rate, zero energy, and is valid |
| Ogame.Player.AfterTick | ogame.js:77-88 | the ledger one tick later is total |
| Ogame.Player.EnergyOutputNonNegative | ogame.js:107-121 | a valid player's energy output is never negative |
| Ogame.Player.CanAfford | ogame.js:44-52 | true exactly when every listed cost is at most the held amount; unlisted resources are unconstrained |
| Ogame.Player.Pay | ogame.js:54-62 | fails with `CantAfford` and changes nothing exactly when the costs are not affordable; otherwise deducts every listed cost |
| Ogame.Player.Receive | ogame.js:81-83 | the ledger receives each listed rate times the hours |
| Ogame.Player.Upgrade | ogame.js:64-75 | an owned type is paid at its pre-upgrade cost and rises one level; an unowned catalog type is paid at its initial cost and gains exactly one new level-1 building; an unknown type fails; a failure changes nothing; other buildings keep their levels; the player stays valid; a non-negative ledger stays non-negative |
| Ogame.Player.StillValid | ogame.js:54-62 | a payment that keeps the ledger total keeps the player valid |
| Ogame.Player.Raise | ogame.js:66-70 | the owned building gains one level, the recorded levels follow, the other buildings keep theirs, and the aggregates stay equal to the sums |
| Ogame.Player.Raised | ogame.js:101-121 | raising one building by a level, with its energy re-entered at the new level, the aggregates moved by new minus old energy and every other building untouched, keeps the player valid |
| Ogame.Player.Construct | ogame.js:72-73 | exactly one fresh building at level 1 is added under the type, and the aggregates stay equal to the sums |
| Ogame.Player.Untouched | ogame.js:24-26 | a player whose fields and buildings are untouched stays valid and would tick to the same ledger |
| Ogame.Player.Tick | ogame.js:77-88 | the ledger becomes the tick result: the default rate for one tick plus every income building's throttled rate for one tick; the player stays valid; with no draining income curve and a non-negative default rate, no resource goes down |
| Ogame.Universe.constructor | ogame.js:6-10 | a new universe has no players |
| Ogame.Universe.AddPlayer | ogame.js:19-21 | a fresh player seeded from the configuration is registered under the name, replacing any earlier one, and every other player stays |
| Ogame.Universe.Tick | ogame.js:23-27 | every player's ledger becomes the tick result of its state before the tick, and all players stay valid |
| Ogame.Universe.TickPlayer | ogame.js:24-26 | one player ticks to its target while the players still to tick keep their pending results |
| Ogame.Universe.TickedOne | ogame.js:24-26 | after one player has ticked and nobody else was touched, the tick has progressed past that player |

## Left out

- The HTTP servers, view rendering and static files are not part of this model. Neither are `Universe.run` with its `setInterval` timer (`ogame.js:15-17`) or the driver script at the end of `ogame.js`. `Universe.Tick` is an ordinary method for the caller to invoke.
- `console.log` output is left out.
- `rateDelta` and `energyDelta` (`ogame.js:135-159`) are left out. They are telemetry helpers, and `rateDelta` subtracts a number from a map, so its result has no meaning to state.
- `config.json` is not part of this model. The configuration is a parameter of `Universe`, and resource kinds are a fixed enumeration (`Metal`, `Crystal`, `Deuterium`).
- Every ledger holds all three kinds. The source's quirk of treating a cost in a resource the player lacks as affordable (a comparison with `undefined`) therefore cannot arise.
- Quantities are mathematical reals. The source's IEEE floating point is left out, including the rounding of `Math.pow` and of the tick length in hours.
- `Ogame.Player.constructor`: the source stores the configuration's `startingResources` object itself, so every player created from one configuration shares, and mutates, one ledger object. The model gives each player its own copy, as a ledger value.
- `Ogame.Player.Upgrade`: the source throws a `TypeError` when asked to build a type missing from the catalog. The model returns `UnknownBuildingType` instead.
- `Ogame.Universe.constructor`: requires a configuration that gives a starting amount for every resource kind and has no producer (a type whose energy curve has a positive initial value) with a negative energy base. The first follows from the fixed enumeration of resource kinds above. The second keeps every player's energy output non-negative; a negative output is where the source's `rateEnergyFactor` could divide by zero or return a meaningless factor. Income curves and the default rate may be negative.
- `Ogame.Player.constructor`: requires the same two conditions of its catalog and parameters, for the same reasons.
- `Formulas.RateEnergyFactor`: requires a non-negative energy output. A valid player always has one (`Ogame.Player.EnergyOutputNonNegative`). With a negative output the source could divide by zero.
- The ghost `key` of a building and the ghost `levels` map of a player are proof bookkeeping only. They record the catalog key each building is stored under and its current level.
