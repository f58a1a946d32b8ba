/**
 * `src/components/StrategySelection.tsx`: seven strategies in three tiers and
 * a selection of at most three of them.
 */
module StrategySelection {
  import opened Wrappers
  import opened SelectionRules
  import StrategyItem
  import AnalysisApi
  import TradingSymbols

  /** The strategies offered, in display order. */
  const Strategies: seq<StrategyItem.StrategyData> := [
    StrategyItem.StrategyData("Breakout Strategy", 2, 68, "Medium", "free"),
    StrategyItem.StrategyData("Fibonacci Retracement", 2, 72, "Low", "free"),
    StrategyItem.StrategyData("Trend Following", 2, 75, "Low", "free"),
    StrategyItem.StrategyData("ICT Concept", 5, 81, "Medium", "pro"),
    StrategyItem.StrategyData("SMC Strategy", 5, 79, "Medium", "pro"),
    StrategyItem.StrategyData("Advanced SMC", 8, 84, "High", "max"),
    StrategyItem.StrategyData("Custom Strategy Builder", 10, 86, "Variable", "max")
  ]

  /** `strategies.filter(s => s.tier === tier)`. */
  function InTier(list: seq<StrategyItem.StrategyData>, tier: string): (r: seq<StrategyItem.StrategyData>)
    ensures |r| <= |list|
    ensures forall i :: 0 <= i < |r| ==> r[i].tier == tier
  {
    if list == [] then []
    else if list[0].tier == tier then [list[0]] + InTier(list[1..], tier)
    else InTier(list[1..], tier)
  }

  lemma {:induction false} InTierAppend(a: seq<StrategyItem.StrategyData>, b: seq<StrategyItem.StrategyData>, tier: string)
    ensures InTier(a + b, tier) == InTier(a, tier) + InTier(b, tier)
  {
    if a == [] {
      assert a + b == b;
    } else {
      assert (a + b)[0] == a[0] && (a + b)[1..] == a[1..] + b;
      InTierAppend(a[1..], b, tier);
    }
  }

  lemma {:induction false} InTierCount(list: seq<StrategyItem.StrategyData>, tier: string)
    ensures (forall i :: 0 <= i < |list| ==> list[i].tier == tier) ==> InTier(list, tier) == list
    ensures (forall i :: 0 <= i < |list| ==> list[i].tier != tier) ==> InTier(list, tier) == []
  {
    if list != [] {
      InTierCount(list[1..], tier);
      assert forall i :: 0 <= i < |list| - 1 ==> list[1..][i] == list[i + 1];
    }
  }

  lemma TierBlocks()
    ensures Strategies == Strategies[..3] + (Strategies[3..5] + Strategies[5..])
    ensures forall i :: 0 <= i < 3 ==> Strategies[..3][i].tier == "free"
    ensures forall i :: 0 <= i < 2 ==> Strategies[3..5][i].tier == "pro"
    ensures forall i :: 0 <= i < 2 ==> Strategies[5..][i].tier == "max"
    ensures |Strategies[5..]| == 2
  {
  }

  /** Filtering a block of a single tier keeps all of it or none of it. */
  function Block(list: seq<StrategyItem.StrategyData>, blockTier: string, tier: string): seq<StrategyItem.StrategyData> {
    if blockTier == tier then list else []
  }

  lemma BlockFilter(list: seq<StrategyItem.StrategyData>, blockTier: string, tier: string)
    requires forall i :: 0 <= i < |list| ==> list[i].tier == blockTier
    ensures InTier(list, tier) == Block(list, blockTier, tier)
  {
    InTierCount(list, tier);
  }

  /** Filtering three blocks, each of a single tier, keeps the blocks of that tier. */
  lemma TierCount(tier: string, a: seq<StrategyItem.StrategyData>, b: seq<StrategyItem.StrategyData>,
                  c: seq<StrategyItem.StrategyData>, ta: string, tb: string, tc: string)
    requires forall i :: 0 <= i < |a| ==> a[i].tier == ta
    requires forall i :: 0 <= i < |b| ==> b[i].tier == tb
    requires forall i :: 0 <= i < |c| ==> c[i].tier == tc
    ensures InTier(a + (b + c), tier) == Block(a, ta, tier) + (Block(b, tb, tier) + Block(c, tc, tier))
  {
    InTierAppend(a, b + c, tier);
    InTierAppend(b, c, tier);
    BlockFilter(a, ta, tier);
    BlockFilter(b, tb, tier);
    BlockFilter(c, tc, tier);
  }

  /** The three tier filters split the seven strategies 3 / 2 / 2, with nothing left over. */
  lemma TierPartition()
    ensures |InTier(Strategies, "free")| == 3
    ensures |InTier(Strategies, "pro")| == 2
    ensures |InTier(Strategies, "max")| == 2
    ensures forall i :: 0 <= i < |Strategies| ==>
      Strategies[i].tier == "free" || Strategies[i].tier == "pro" || Strategies[i].tier == "max"
  {
    TierBlocks();
    var a, b, c := Strategies[..3], Strategies[3..5], Strategies[5..];
    TierCount("free", a, b, c, "free", "pro", "max");
    assert InTier(Strategies, "free") == a + ([] + []);
    TierCount("pro", a, b, c, "free", "pro", "max");
    assert InTier(Strategies, "pro") == [] + (b + []);
    TierCount("max", a, b, c, "free", "pro", "max");
    assert InTier(Strategies, "max") == [] + ([] + c);
  }

  /** Where each of the first six strategies sits in the API's strategy switch. */
  lemma StrategyCasePositions()
    ensures Strategies[0].name == AnalysisApi.StrategyCases[0].0
    ensures Strategies[1].name == AnalysisApi.StrategyCases[4].0
    ensures Strategies[2].name == AnalysisApi.StrategyCases[5].0
    ensures Strategies[3].name == AnalysisApi.StrategyCases[1].0
    ensures Strategies[4].name == AnalysisApi.StrategyCases[3].0
    ensures Strategies[5].name == AnalysisApi.StrategyCases[2].0
    ensures Strategies[6].name !in TradingSymbols.Keys(AnalysisApi.StrategyCases)
  {
  }

  /**
   * Every strategy but the custom builder is sent as its own API code; the
   * custom builder has none and is sent as "breakout".
   */
  lemma StrategyApiCodes()
    ensures AnalysisApi.FormatStrategyForApi(Strategies[0].name) == "breakout"
    ensures AnalysisApi.FormatStrategyForApi(Strategies[1].name) == "fibonacci"
    ensures AnalysisApi.FormatStrategyForApi(Strategies[2].name) == "trend_following"
    ensures AnalysisApi.FormatStrategyForApi(Strategies[3].name) == "ict"
    ensures AnalysisApi.FormatStrategyForApi(Strategies[4].name) == "smc"
    ensures AnalysisApi.FormatStrategyForApi(Strategies[5].name) == "advanced_smc"
    ensures AnalysisApi.FormatStrategyForApi(Strategies[6].name) == "breakout"
  {
    StrategyCasePositions();
    AnalysisApi.StrategyNameCode(0);
    AnalysisApi.StrategyNameCode(4);
    AnalysisApi.StrategyNameCode(5);
    AnalysisApi.StrategyNameCode(1);
    AnalysisApi.StrategyNameCode(3);
    AnalysisApi.StrategyNameCode(2);
    AnalysisApi.UnknownStrategyIsBreakout(Strategies[6].name);
  }

  /** The item props this component passes for one strategy. */
  function ItemPropsFor(selected: seq<string>, s: StrategyItem.StrategyData): StrategyItem.ItemProps {
    StrategyItem.ItemProps(Some(s), Some(s.name in selected), Some(IsDisabled(selected, s.name)), true,
      None, None, None, None, None, false)
  }

  /** The component's state: the selected strategy names. */
  class Selection {
    var selected: seq<string>

    predicate Valid()
      reads this
    {
      CappedSelection(selected)
    }

    constructor ()
      ensures selected == [] && Valid()
    {
      selected := [];
    }

    /** `toggleStrategy(name)`. */
    method Toggle(name: string)
      requires Valid()
      modifies this
      ensures selected == ToggleCapped(old(selected), name)
      ensures Valid()
    {
      ToggleCappedKeeps(selected, name);
      if |selected| < MaxStrategies || name in selected {
        if name in selected {
          selected := Without(selected, name);
        } else {
          selected := selected + [name];
        }
      }
    }

    /**
     * A click on the card of `s`: the card ignores it when disabled, and
     * otherwise calls `onSelect(s.name)`, which is `toggleStrategy`.
     */
    method ClickCard(s: StrategyItem.StrategyData)
      requires Valid()
      modifies this
      ensures selected == ToggleCapped(old(selected), s.name)
      ensures Valid()
    {
      var action := StrategyItem.OnCardClick(ItemPropsFor(selected, s));
      ToggleCappedCases(selected, s.name);
      if action.CallOnSelect? {
        Toggle(action.name);
      }
    }
  }
}
