/** The strategy registry (backend/app/core/strategy_manager.py): a fixed
    table from name to strategy instance, built once at construction, with
    a lookup that answers None for an unknown name and a listing of the
    names in insertion order. The broker service handed to each strategy is
    left out; the registered SMA crossover carries its default windows. */
module StrategyManager {
  import opened Series
  import SmaCrossover

  /** The strategies the registry can hold. */
  datatype Strategy =
    | SmaCrossoverStrategy(params: SmaCrossover.Params)
    | AdaptiveStrategy

  /** A registry: its entries in insertion order, as a Python dict keeps them. */
  datatype Manager = Manager(strategies: seq<(string, Strategy)>)

  /** The registry's table as `__init__` builds it. */
  function New(): (m: Manager)
    ensures |m.strategies| == 2
  {
    Manager([("sma_crossover", SmaCrossoverStrategy(SmaCrossover.Defaults)),
             ("adaptive_strategy", AdaptiveStrategy)])
  }

  /** The names of a list of entries, in order. */
  function Keys(entries: seq<(string, Strategy)>): (ks: seq<string>)
    ensures |ks| == |entries|
    ensures forall i :: 0 <= i < |entries| ==> ks[i] == entries[i].0
  {
    if entries == [] then [] else Keys(entries[..|entries| - 1]) + [entries[|entries| - 1].0]
  }

  /** `dict.get` on a list of entries: the value of the last entry with that
      name (a later assignment to a dict key overwrites an earlier one), or
      None. */
  function Find(entries: seq<(string, Strategy)>, name: string): (r: Option<Strategy>)
  {
    if entries == [] then None
    else if entries[|entries| - 1].0 == name then Some(entries[|entries| - 1].1)
    else Find(entries[..|entries| - 1], name)
  }

  /** `get_strategy`. */
  function GetStrategy(m: Manager, name: string): (r: Option<Strategy>)
  {
    Find(m.strategies, name)
  }

  /** `get_available_strategies`. */
  function GetAvailableStrategies(m: Manager): (names: seq<string>)
  {
    Keys(m.strategies)
  }

  /** A lookup finds something exactly when the name is among the entries,
      and what it finds is registered under that name. */
  lemma {:induction false} FindIff(entries: seq<(string, Strategy)>, name: string)
    ensures Find(entries, name).Some? <==> name in Keys(entries)
    ensures Find(entries, name).Some? ==> (name, Find(entries, name).value) in entries
  {
    if entries != [] {
      var init := entries[..|entries| - 1];
      FindIff(init, name);
      assert Keys(entries) == Keys(init) + [entries[|entries| - 1].0];
      if Find(entries, name).Some? && entries[|entries| - 1].0 != name {
        assert (name, Find(entries, name).value) in init;
      }
    }
  }

  /** With distinct names, the lookup of the i-th name gives the i-th
      strategy. */
  lemma {:induction false} FindDistinct(entries: seq<(string, Strategy)>, i: nat)
    requires i < |entries|
    requires forall j, k :: 0 <= j < k < |entries| ==> entries[j].0 != entries[k].0
    ensures Find(entries, entries[i].0) == Some(entries[i].1)
  {
    if i < |entries| - 1 {
      var init := entries[..|entries| - 1];
      assert entries[|entries| - 1].0 != entries[i].0;
      assert init[i] == entries[i];
      FindDistinct(init, i);
    }
  }

  /** The registry holds exactly "sma_crossover" and "adaptive_strategy", in
      that order. */
  lemma AvailableStrategiesExact()
    ensures GetAvailableStrategies(New()) == ["sma_crossover", "adaptive_strategy"]
  {
  }

  /** Each registered name resolves to its instance: the SMA crossover with
      its default windows and the adaptive placeholder. */
  lemma GetRegistered()
    ensures GetStrategy(New(), "sma_crossover") == Some(SmaCrossoverStrategy(SmaCrossover.Defaults))
    ensures GetStrategy(New(), "adaptive_strategy") == Some(AdaptiveStrategy)
  {
    FindDistinct(New().strategies, 0);
    FindDistinct(New().strategies, 1);
  }

  /** A name resolves exactly when it is listed, so every listed name
      resolves and every other name gives None. */
  lemma GetStrategyIffListed(name: string)
    ensures GetStrategy(New(), name).Some? <==> name in GetAvailableStrategies(New())
    ensures GetStrategy(New(), name).None? <==> name != "sma_crossover" && name != "adaptive_strategy"
  {
    FindIff(New().strategies, name);
    AvailableStrategiesExact();
  }
}
