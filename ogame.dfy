/** The simulation engine: a universe of players, each owning a resource
    ledger, at most one building per building type, and the energy aggregates
    of those buildings. All operations run when called; the timer that drives
    `Universe.Tick` in the source is left to the caller. */
module Ogame {
  import opened Formulas
  import opened Ledger
  import opened Sums
  import opened Aggregates

  /** Milliseconds between two ticks of the universe. */
  const TickLength: real := 1000.0

  /** The length of one tick in hours, the factor that turns an hourly rate
      into the amount credited per tick. */
  const TickLengthInHours: real := TickLength / 1000.0 / 3600.0

  datatype Params = Params(defaultResourceRate: Amounts, startingResources: Amounts)

  /** The game configuration: the building catalog and the player parameters. */
  datatype Config = Config(buildingTypes: map<string, BuildingType>, params: Params)

  /** The failures the source signals by throwing. */
  datatype Error =
    | CantAfford            // `pay` on costs the player cannot afford
    | UnknownBuildingType   // `upgrade` of a type missing from the catalog

  datatype Status = Ok | Failed(error: Error)

  /** One step of a universe tick: player `name` ticks next, the players in
      `todo` (including it) have not ticked yet, and `target` is the ledger
      each player is to end with. */
  datatype TickStep = TickStep(name: string, todo: set<string>, target: map<string, Amounts>)

  /** The starting resources list every resource kind. */
  predicate ParamsOk(params: Params)
  {
    IsLedger(params.startingResources)
  }

  predicate ConfigOk(config: Config)
  {
    CatalogOk(config.buildingTypes) && ParamsOk(config.params)
  }

  class Building {
    const kind: BuildingType
    const player: Player
    /** The catalog key the building was bought under. */
    ghost const key: string
    var level: nat
    /** The energy this building currently counts for in its player's
        aggregates. */
    var energy: real

    /** A new building starts at level 1 and enters its energy into the
        player's aggregates. */
    constructor (kind: BuildingType, player: Player, ghost key: string)
      modifies player`energyOutput, player`energyBalance
      ensures this.kind == kind && this.player == player && this.key == key
      ensures level == 1 && energy == EnergyAt(kind, 1)
      ensures player.energyBalance == old(player.energyBalance) + energy
      ensures player.energyOutput == old(player.energyOutput) + (if IsProducer(kind) then energy else 0.0)
    {
      this.kind := kind;
      this.player := player;
      this.key := key;
      level := 1;
      energy := 0.0;
      new;
      AdjustEnergy();
    }

    /** Raises the level by one and re-enters the energy at the new level. */
    method Upgrade()
      modifies this`level, this`energy, player`energyOutput, player`energyBalance
      ensures level == old(level) + 1
      ensures kind.energy.Some? ==> energy == EnergyAt(kind, level)
      ensures kind.energy.None? ==> energy == old(energy)
      ensures old(energy) == EnergyAt(kind, old(level)) ==> energy == EnergyAt(kind, level)
      ensures player.energyBalance == old(player.energyBalance) - old(energy) + energy
      ensures player.energyOutput ==
                if IsProducer(kind) then old(player.energyOutput) - old(energy) + energy
                else old(player.energyOutput)
    {
      level := level + 1;
      AdjustEnergy();
    }

    /** Takes the building's old energy out of the player's aggregates,
        recomputes it for the current level and puts the new value back in;
        only producers take part in the output aggregate. */
    method AdjustEnergy()
      modifies this`energy, player`energyOutput, player`energyBalance
      ensures kind.energy.Some? ==> energy == EnergyAt(kind, level)
      ensures kind.energy.None? ==> energy == old(energy)
      ensures player.energyBalance == old(player.energyBalance) - old(energy) + energy
      ensures player.energyOutput ==
                if IsProducer(kind) then old(player.energyOutput) - old(energy) + energy
                else old(player.energyOutput)
    {
      if kind.energy.Some? {
        var e := kind.energy.value;
        if e.initial > 0.0 {
          player.energyOutput := player.energyOutput - energy;
        }
        player.energyBalance := player.energyBalance - energy;
        energy := e.initial * level as real * Pow(e.base, level);
        player.energyBalance := player.energyBalance + energy;
        if e.initial > 0.0 {
          player.energyOutput := player.energyOutput + energy;
        }
      }
    }

    /** The cost of the next upgrade, computed at the current level. */
    method UpgradeCost() returns (cost: Amounts)
      requires level >= 1
      ensures cost == UpgradeCostAt(kind.cost, level)
    {
      var initial := kind.cost.initial;
      var base := kind.cost.base;
      cost := map[];
      var todo := initial.Keys;
      while todo != {}
        invariant todo <= initial.Keys
        invariant cost.Keys == initial.Keys - todo
        invariant forall r :: r in cost ==> cost[r] == initial[r] * Pow(base, level - 1)
        decreases todo
      {
        var r :| r in todo;
        cost := cost[r := initial[r] * Pow(base, level - 1)];
        todo := todo - {r};
      }
      assert cost.Keys == UpgradeCostAt(kind.cost, level).Keys;
      assert forall r :: r in cost ==> cost[r] == UpgradeCostAt(kind.cost, level)[r];
    }

    /** The hourly income of the building at its level, throttled by the
        player's energy factor. */
    method Rate() returns (rates: Amounts)
      requires kind.income.Some? && player.energyOutput >= 0.0
      ensures rates == RateAt(kind.income.value, level, RateEnergyFactor(player.energyOutput, player.energyBalance))
    {
      var initial := kind.income.value.initial;
      var base := kind.income.value.base;
      rates := map[];
      var todo := initial.Keys;
      while todo != {}
        invariant todo <= initial.Keys
        invariant rates.Keys == initial.Keys - todo
        invariant forall r :: r in rates ==>
                    rates[r] == initial[r] * level as real * Pow(base, level)
                                * RateEnergyFactor(player.energyOutput, player.energyBalance)
        decreases todo
      {
        var r :| r in todo;
        rates := rates[r := initial[r] * level as real * Pow(base, level)
                            * RateEnergyFactor(player.energyOutput, player.energyBalance)];
        todo := todo - {r};
      }
      ghost var expected := RateAt(kind.income.value, level, RateEnergyFactor(player.energyOutput, player.energyBalance));
      assert rates.Keys == expected.Keys;
      assert forall r :: r in rates ==> rates[r] == expected[r];
    }

    /** One tick of production: a building with an income curve credits its
        rate for one tick to its player; any other building does nothing. */
    method Tick()
      requires IsLedger(player.resources) && player.energyOutput >= 0.0
      modifies player`resources
      ensures player.resources ==
                if kind.income.Some?
                then Credit(old(player.resources),
                            RateAt(kind.income.value, level, RateEnergyFactor(player.energyOutput, player.energyBalance)),
                            TickLengthInHours)
                else old(player.resources)
    {
      if kind.income.Some? {
        var resourceRates := Rate();
        player.Receive(resourceRates, TickLengthInHours);
      }
    }
  }

  class Player {
    const name: string
    var buildings: map<string, Building>
    const buildingTypes: map<string, BuildingType>
    const defaultResourceRate: Amounts
    var resources: Amounts
    var energyOutput: real
    var energyBalance: real
    /** The level of each owned building, by building type: the bookkeeping
        the energy aggregates are specified against. */
    ghost var levels: map<string, nat>

    /** The player's invariant: its buildings are well formed, the ledger is
        total, and the energy aggregates equal the sums of
        the buildings' contributions at their current levels (every type with
        an energy curve for the balance, producers only for the output). */
    ghost predicate Valid()
      reads this, buildings.Values
    {
      && BuildingsValid()
      && IsLedger(resources)
      && Balanced(buildingTypes, levels, energyBalance, energyOutput)
    }

    /** Each building belongs to this player, has the catalog type of its key,
        the level recorded for its key (at least 1) and the energy of that
        level; distinct keys hold distinct buildings. */
    ghost predicate BuildingsValid()
      reads this`buildings, this`levels, buildings.Values
    {
      && CatalogOk(buildingTypes)
      && levels.Keys == buildings.Keys
      && (forall t :: t in buildings ==>
            && t in buildingTypes
            && buildings[t].player == this
            && buildings[t].key == t
            && buildings[t].kind == buildingTypes[t]
            && buildings[t].level == levels[t] >= 1
            && buildings[t].energy == EnergyAt(buildings[t].kind, levels[t]))
    }

    /** The ledger one tick later: the default income for one tick plus one
        tick of every building's income at the current energy factor. */
    ghost function AfterTick(): (after: Amounts)
      requires Valid()
      reads this, buildings.Values
      ensures IsLedger(after)
    {
      EnergyOutputNonNegative();
      TickResult(buildingTypes, levels, defaultResourceRate, resources,
                 RateEnergyFactor(energyOutput, energyBalance), TickLengthInHours)
    }

    /** The output aggregate is never negative. */
    lemma EnergyOutputNonNegative()
      requires Valid()
      ensures energyOutput >= 0.0
    {
      OutputNonNegative(buildingTypes, levels);
    }

    /** A new player: no buildings, a copy of the starting resources and no
        energy. */
    constructor (name: string, buildingTypes: map<string, BuildingType>, params: Params)
      requires CatalogOk(buildingTypes) && ParamsOk(params)
      ensures Valid()
      ensures this.name == name && this.buildingTypes == buildingTypes
      ensures defaultResourceRate == params.defaultResourceRate
      ensures resources == params.startingResources
      ensures buildings == map[]
      ensures energyOutput == 0.0 && energyBalance == 0.0
    {
      this.name := name;
      buildings := map[];
      this.buildingTypes := buildingTypes;
      defaultResourceRate := params.defaultResourceRate;
      resources := params.startingResources;
      energyOutput := 0.0;
      energyBalance := 0.0;
      levels := map[];
      new;
      assert Contributions(buildingTypes, levels, false) == map[];
      assert Contributions(buildingTypes, levels, true) == map[];
    }

    /** Whether every listed cost fits the current resources. */
    method CanAfford(costs: Amounts) returns (affordable: bool)
      requires IsLedger(resources)
      ensures affordable == Affordable(costs, resources)
    {
      var todo := costs.Keys;
      while todo != {}
        invariant todo <= costs.Keys
        invariant forall r :: r in costs && r !in todo ==> costs[r] <= resources[r]
        decreases todo
      {
        var r :| r in todo;
        if costs[r] > resources[r] {
          return false;
        }
        todo := todo - {r};
      }
      return true;
    }

    /** Pays `costs`: fails without touching anything when they cannot be
        afforded, and otherwise deducts every listed cost. */
    method Pay(costs: Amounts) returns (status: Status)
      requires IsLedger(resources)
      modifies this`resources
      ensures status == if Affordable(costs, old(resources)) then Ok else Failed(CantAfford)
      ensures resources == if status.Ok? then Deduct(old(resources), costs) else old(resources)
    {
      var affordable := CanAfford(costs);
      if !affordable {
        return Failed(CantAfford);
      }
      var todo := costs.Keys;
      while todo != {}
        invariant todo <= costs.Keys
        invariant IsLedger(resources)
        invariant forall r :: resources[r] ==
                    if r in costs && r !in todo then old(resources)[r] - costs[r] else old(resources)[r]
        decreases todo
      {
        var r :| r in todo;
        resources := resources[r := resources[r] - costs[r]];
        todo := todo - {r};
      }
      status := Ok;
    }

    /** Credits `rates` for `hours` hours to every listed resource. */
    method Receive(rates: Amounts, hours: real)
      requires IsLedger(resources)
      modifies this`resources
      ensures resources == Credit(old(resources), rates, hours)
    {
      var todo := rates.Keys;
      while todo != {}
        invariant todo <= rates.Keys
        invariant IsLedger(resources)
        invariant forall r :: resources[r] ==
                    if r in rates && r !in todo then old(resources)[r] + rates[r] * hours else old(resources)[r]
        decreases todo
      {
        var r :| r in todo;
        resources := resources[r := resources[r] + rates[r] * hours];
        todo := todo - {r};
      }
      ghost var expected := Credit(old(resources), rates, hours);
      assert resources.Keys == expected.Keys;
      assert forall r :: r in resources ==> resources[r] == expected[r];
    }

    /** The central transition. An owned building is upgraded for its current
        upgrade cost; an unowned catalog type is bought for its initial cost and
        built at level 1. A failed payment changes nothing. */
    method Upgrade(buildingType: string) returns (status: Status)
      requires Valid()
      modifies this, buildings.Values
      ensures Valid()
      ensures buildingType in old(buildings) ==>
                var building := old(buildings)[buildingType];
                var cost := UpgradeCostAt(building.kind.cost, old(building.level));
                && buildings == old(buildings)
                && status == (if Affordable(cost, old(resources)) then Ok else Failed(CantAfford))
                && resources == (if status.Ok? then Deduct(old(resources), cost) else old(resources))
                && building.level == (if status.Ok? then old(building.level) + 1 else old(building.level))
      ensures buildingType !in old(buildings) && buildingType !in buildingTypes ==>
                && status == Failed(UnknownBuildingType)
                && buildings == old(buildings)
                && resources == old(resources)
      ensures buildingType !in old(buildings) && buildingType in buildingTypes ==>
                var cost := buildingTypes[buildingType].cost.initial;
                && status == (if Affordable(cost, old(resources)) then Ok else Failed(CantAfford))
                && resources == (if status.Ok? then Deduct(old(resources), cost) else old(resources))
                && (status.Failed? ==> buildings == old(buildings))
                && (status.Ok? ==>
                      && buildingType in buildings
                      && fresh(buildings[buildingType])
                      && buildings == old(buildings)[buildingType := buildings[buildingType]]
                      && buildings[buildingType].level == 1)
      ensures forall t :: t in old(buildings) && t != buildingType ==>
                buildings[t].level == old(buildings[t].level)
      ensures status.Failed? ==> unchanged(this) && unchanged(old(buildings).Values)
      ensures old(NonNegative(resources)) ==> NonNegative(resources)
    {
      if buildingType in buildings {
        var building := buildings[buildingType];
        var cost := building.UpgradeCost();
        status := Pay(cost);
        if status.Ok? {
          if NonNegative(old(resources)) {
            PayKeepsNonNegative(cost, old(resources));
          }
          StillValid();
          Raise(buildingType);
        }
      } else if buildingType !in buildingTypes {
        status := Failed(UnknownBuildingType);
      } else {
        status := Pay(buildingTypes[buildingType].cost.initial);
        if status.Ok? {
          if NonNegative(old(resources)) {
            PayKeepsNonNegative(buildingTypes[buildingType].cost.initial, old(resources));
          }
          StillValid();
          var building := Construct(buildingType);
        }
      }
    }

    /** A payment keeps the invariant whenever the ledger stays total:
        nothing else of the invariant reads the ledger. */
    twostate lemma StillValid()
      requires old(Valid()) && IsLedger(resources)
      requires unchanged(this`buildings, this`levels, this`energyOutput, this`energyBalance)
      requires unchanged(old(buildings).Values)
      ensures Valid()
    {
      assert BuildingsValid();
    }

    /** The owned-building half of `Upgrade`, once paid: the building's level
        goes up by one and the aggregates follow its new energy. */
    method Raise(buildingType: string)
      requires Valid() && buildingType in buildings
      modifies this`energyOutput, this`energyBalance, this`levels, buildings[buildingType]
      ensures Valid()
      ensures levels == old(levels)[buildingType := old(levels)[buildingType] + 1]
      ensures buildings[buildingType].level == old(buildings[buildingType].level) + 1
      ensures forall t :: t in buildings && t != buildingType ==> buildings[t].level == old(buildings[t].level)
    {
      var building := buildings[buildingType];
      levels := levels[buildingType := levels[buildingType] + 1];
      building.Upgrade();
      Raised(buildingType);
    }

    /** Raising the building under `t` by one level, with its energy
        re-entered at the new level, the aggregates moved by new minus old
        energy and every other building untouched, keeps the player valid
        once the recorded level follows. */
    twostate lemma Raised(t: string)
      requires old(Valid()) && t in old(buildings)
      requires buildings == old(buildings) && resources == old(resources)
      requires levels == old(levels)[t := old(levels)[t] + 1]
      requires buildings[t].level == old(buildings[t].level) + 1
      requires buildings[t].energy == EnergyAt(buildings[t].kind, buildings[t].level)
      requires energyBalance == old(energyBalance) - old(buildings[t].energy) + buildings[t].energy
      requires energyOutput ==
                 if IsProducer(buildings[t].kind) then old(energyOutput) - old(buildings[t].energy) + buildings[t].energy
                 else old(energyOutput)
      requires forall u :: u in buildings && u != t ==> unchanged(buildings[u])
      ensures Valid()
    {
      assert old(buildings[t].energy) == EnergyAt(buildingTypes[t], old(levels)[t]);
      assert buildings[t].energy == EnergyAt(buildingTypes[t], old(levels)[t] + 1);
      BalancedAfterLevelChange(buildingTypes, old(levels), old(energyBalance), old(energyOutput), t, old(levels)[t] + 1);
      RaisedBuildings(t);
    }

    /** The part of `Raised` about the buildings alone. */
    twostate lemma RaisedBuildings(t: string)
      requires old(BuildingsValid()) && t in old(buildings)
      requires buildings == old(buildings) && levels == old(levels)[t := old(levels)[t] + 1]
      requires buildings[t].level == old(buildings[t].level) + 1
      requires buildings[t].energy == EnergyAt(buildings[t].kind, buildings[t].level)
      requires forall u :: u in buildings && u != t ==> unchanged(buildings[u])
      ensures BuildingsValid()
    {
    }

    /** The unowned-type half of `Upgrade`, once paid: a new building of the
        catalog type at level 1 joins the player and its energy the aggregates. */
    method Construct(buildingType: string) returns (building: Building)
      requires Valid() && buildingType !in buildings && buildingType in buildingTypes
      modifies this`buildings, this`energyOutput, this`energyBalance, this`levels
      ensures Valid()
      ensures fresh(building) && building.level == 1
      ensures buildings == old(buildings)[buildingType := building]
      ensures levels == old(levels)[buildingType := 1]
    {
      BalancedAfterLevelChange(buildingTypes, levels, energyBalance, energyOutput, buildingType, 1);
      levels := levels[buildingType := 1];
      building := new Building(buildingTypes[buildingType], this, buildingType);
      buildings := buildings[buildingType := building];
    }

    /** A player whose own fields and buildings are untouched stays valid
        and would tick to the same ledger. */
    twostate lemma Untouched()
      requires old(Valid()) && unchanged(this) && unchanged(old(buildings).Values)
      ensures Valid() && AfterTick() == old(AfterTick())
    {
      assert BuildingsValid();
    }

    /** One tick of income: the default rate for one tick, then the production
        of every building, each credited to the ledger. */
    method Tick()
      requires Valid()
      modifies this`resources
      ensures Valid()
      ensures resources == old(AfterTick())
      ensures NoDrain(buildingTypes) && NonNegative(defaultResourceRate) ==>
                forall r :: resources[r] >= old(resources[r])
    {
      EnergyOutputNonNegative();
      ghost var factor := RateEnergyFactor(energyOutput, energyBalance);
      ghost var start := resources;
      Receive(defaultResourceRate, TickLengthInHours);
      ghost var withDefault := resources;
      var todo := buildings.Keys;
      ghost var done: set<string> := {};
      while todo != {}
        invariant todo !! done && todo + done == levels.Keys
        invariant IsLedger(resources)
        invariant forall r :: resources[r] ==
                    withDefault[r] + Sum(IncomeOver(buildingTypes, levels, done, factor, TickLengthInHours, r))
        decreases todo
      {
        var t :| t in todo;
        var building := buildings[t];
        ghost var before := resources;
        building.Tick();
        IncomeStep(buildingTypes, levels, done, factor, TickLengthInHours, t, withDefault, before, resources);
        done := done + {t};
        todo := todo - {t};
      }
      assert done == levels.Keys;
      TickComplete(buildingTypes, levels, defaultResourceRate, start, factor, TickLengthInHours, resources);
      if NoDrain(buildingTypes) && NonNegative(defaultResourceRate) {
        TickNeverLowers(buildingTypes, levels, defaultResourceRate, start, factor, TickLengthInHours);
      }
      StillValid();
    }
  }

  class Universe {
    const config: Config
    var players: map<string, Player>

    /** Every building of every player. */
    ghost function Buildings(): set<Building>
      reads this, players.Values
    {
      set p, b | p in players.Values && b in p.buildings.Values :: b
    }

    /** Every registered player is valid, registered under its own name (so
        distinct names hold distinct players) and set up from this universe's
        configuration. */
    ghost predicate Valid()
      reads this, players.Values, Buildings()
    {
      && ConfigOk(config)
      && (forall n :: n in players ==>
            && players[n].Valid()
            && players[n].name == n
            && players[n].buildingTypes == config.buildingTypes
            && players[n].defaultResourceRate == config.params.defaultResourceRate)
    }

    constructor (config: Config)
      requires ConfigOk(config)
      ensures Valid()
      ensures this.config == config && players == map[]
    {
      this.config := config;
      players := map[];
    }

    /** Registers a new player under `name`, seeded from the configuration; a
        player already registered under that name is replaced. */
    method AddPlayer(name: string)
      requires Valid()
      modifies this
      ensures Valid()
      ensures players.Keys == old(players.Keys) + {name}
      ensures fresh(players[name])
      ensures players[name].resources == config.params.startingResources
      ensures players[name].buildings == map[]
      ensures players[name].energyOutput == 0.0 && players[name].energyBalance == 0.0
      ensures forall n :: n in old(players) && n != name ==> players[n] == old(players[n])
    {
      var player := new Player(name, config.buildingTypes, config.params);
      players := players[name := player];
    }

    /** One tick of the universe: every player receives one tick of income. */
    method Tick()
      requires Valid()
      modifies players.Values`resources
      ensures Valid()
      ensures forall n :: n in players ==> players[n].resources == old(players[n].AfterTick())
    {
      ghost var target := map n | n in players :: players[n].AfterTick();
      var todo := players.Keys;
      while todo != {}
        invariant TickInProgress(todo, target)
        decreases todo
      {
        var n :| n in todo;
        var player := players[n];
        assert player in old(players).Values;
        TickPlayer(n, player, todo, target);
        todo := todo - {n};
      }
    }

    /** Midway through `Tick`: the players named in `todo` are still to tick
        and would tick to `target`; every other player already holds its
        `target` ledger; all players are valid. */
    ghost predicate TickInProgress(todo: set<string>, target: map<string, Amounts>)
      reads this, players.Values, Buildings()
    {
      && todo <= players.Keys
      && target.Keys == players.Keys
      && (forall n :: n in players ==> players[n].Valid() && players[n].name == n)
      && (forall n :: n in players && n !in todo ==> players[n].resources == target[n])
      && (forall n :: n in todo ==> players[n].AfterTick() == target[n])
    }

    /** One player's part of `Tick`: that player receives one tick of income
        and leaves the players still to tick as they were. */
    method TickPlayer(name: string, player: Player, todo: set<string>, ghost target: map<string, Amounts>)
      requires name in todo && name in players && players[name] == player
      requires TickInProgress(todo, target)
      modifies player`resources
      ensures TickInProgress(todo - {name}, target)
    {
      assert player.AfterTick() == target[name];
      player.Tick();
      assert player.resources == target[name];
      TickedOne(TickStep(name, todo, target));
    }

    /** After player `step.name` has ticked to its target, with no other
        player and no building touched, the tick has progressed past it. */
    twostate lemma TickedOne(step: TickStep)
      requires step.name in step.todo && step.name in players
      requires old(TickInProgress(step.todo, step.target))
      requires unchanged(this)
      requires forall n :: n in players && n != step.name ==>
                 unchanged(players[n]) && unchanged(old(players[n].buildings.Values))
      requires players[step.name].Valid() && players[step.name].resources == step.target[step.name]
      ensures TickInProgress(step.todo - {step.name}, step.target)
    {
      var rest := step.todo - {step.name};
      forall n | n in players && n != step.name
        ensures players[n].Valid() && players[n].name == n
        ensures n !in rest ==> players[n].resources == step.target[n]
        ensures n in rest ==> players[n].AfterTick() == step.target[n]
      {
        players[n].Untouched();
      }
    }
  }
}
