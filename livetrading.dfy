/**
 * The selection state of the page `src/pages/LiveTrading.tsx`: pair,
 * timeframe, AI models, strategies (at most three) and the analysis text.
 */
module LiveTradingPage {
  import opened Wrappers
  import opened JsString
  import opened JsNumber
  import opened SelectionRules
  import AnalysisApi
  import StrategySelection
  import AiModels

  /** The pairs listed on the page's forex card. */
  const ForexPairs: seq<string> := ["EUR/USD", "GBP/USD", "USD/JPY", "AUD/USD", "USD/CHF", "EUR/JPY"]

  /** The page's timeframe buttons: the same labels as the timeframe selector. */
  function Timeframes(): seq<string> { AnalysisApi.UiTimeframes }

  /** The page's free-tier badge: the credits and always the singular "credit". */
  function FreeBadgeOnPage(m: AiModels.Model): string {
    AiModels.CreditsText(m.credits) + " credit"
  }

  /** The page's badge agrees with the model picker's exactly for a one-credit model. */
  lemma FreeBadgeOnPageAgrees(m: AiModels.Model)
    ensures FreeBadgeOnPage(m) == AiModels.FreeBadge(m) <==> m.credits == AiModels.Amount(1)
  {
    var t := AiModels.CreditsText(m.credits);
    if FreeBadgeOnPage(m) == AiModels.FreeBadge(m) {
      assert t + " credit" == t + " " + AiModels.FreeUnit(m.credits);
      assert (t + " credit")[|t| + 1..] == "credit";
      assert (t + " " + AiModels.FreeUnit(m.credits))[|t| + 1..] == AiModels.FreeUnit(m.credits);
    }
  }

  /** The strategy card counter, `${selectedStrategies.length}/3`. */
  function StrategyCounter(selected: seq<string>): string {
    IntToString(|selected|) + "/" + IntToString(MaxStrategies)
  }

  /** The most characters the counter advertises; nothing enforces it. */
  const AdvertisedLimit: nat := 2000

  datatype CardStyle = SelectedCard | DisabledCard | NormalCard

  /** A strategy card's style: selected, else disabled once three are selected, else normal. */
  function StrategyCardStyle(selected: seq<string>, name: string): CardStyle {
    if name in selected then SelectedCard
    else if |selected| >= MaxStrategies then DisabledCard
    else NormalCard
  }

  /** A card looks disabled exactly when a click on it would be ignored. */
  lemma DisabledCardIgnored(selected: seq<string>, name: string)
    ensures StrategyCardStyle(selected, name) == DisabledCard <==> IsDisabled(selected, name)
    ensures StrategyCardStyle(selected, name) == DisabledCard <==> ToggleCapped(selected, name) == selected
  {
    ToggleCappedCases(selected, name);
  }

  /** The timeframe buttons are distinct, so exactly one is highlighted for a listed timeframe. */
  lemma OneTimeframeHighlighted(tf: string, i: nat, j: nat)
    requires i < |Timeframes()| && j < |Timeframes()|
    requires Timeframes()[i] == tf && Timeframes()[j] == tf
    ensures i == j
  {
    assert NoDuplicates(AnalysisApi.UiTimeframes);
  }

  /** The page's state. */
  class Page {
    var selectedTimeframe: string
    var selectedPair: string
    var selectedModels: seq<string>
    var selectedStrategies: seq<string>
    var analysisText: string

    predicate Valid()
      reads this
    {
      NoDuplicates(selectedModels) && CappedSelection(selectedStrategies)
    }

    constructor ()
      ensures selectedTimeframe == "1H" && selectedPair == "EUR/USD"
      ensures selectedModels == [] && selectedStrategies == [] && analysisText == ""
      ensures Valid()
    {
      selectedTimeframe := "1H";
      selectedPair := "EUR/USD";
      selectedModels := [];
      selectedStrategies := [];
      analysisText := "";
    }

    /** `toggleModel(name)`: no cap. */
    method ToggleModel(name: string)
      requires Valid()
      modifies this
      ensures selectedModels == Toggle(old(selectedModels), name)
      ensures selectedStrategies == old(selectedStrategies) && selectedPair == old(selectedPair)
      ensures selectedTimeframe == old(selectedTimeframe) && analysisText == old(analysisText)
      ensures Valid()
    {
      ToggleNoDuplicates(selectedModels, name);
      if name in selectedModels {
        selectedModels := Without(selectedModels, name);
      } else {
        selectedModels := selectedModels + [name];
      }
    }

    /** `toggleStrategy(name)`: the guard reads the current list, so at most three. */
    method ToggleStrategy(name: string)
      requires Valid()
      modifies this
      ensures selectedStrategies == ToggleCapped(old(selectedStrategies), name)
      ensures selectedModels == old(selectedModels) && selectedPair == old(selectedPair)
      ensures selectedTimeframe == old(selectedTimeframe) && analysisText == old(analysisText)
      ensures Valid()
    {
      ToggleCappedKeeps(selectedStrategies, name);
      if |selectedStrategies| < MaxStrategies || name in selectedStrategies {
        if name in selectedStrategies {
          selectedStrategies := Without(selectedStrategies, name);
        } else {
          selectedStrategies := selectedStrategies + [name];
        }
      }
    }

    method SelectPair(pair: string)
      modifies this`selectedPair
      ensures selectedPair == pair
    {
      selectedPair := pair;
    }

    method SelectTimeframe(tf: string)
      modifies this`selectedTimeframe
      ensures selectedTimeframe == tf
    {
      selectedTimeframe := tf;
    }

    /** The text area's `onChange`: any text is accepted, whatever its length. */
    method SetAnalysisText(text: string)
      modifies this`analysisText
      ensures analysisText == text
    {
      analysisText := text;
    }

    /** The counter under the text area. */
    function Counter(): string
      reads this
    {
      CounterFor(analysisText)
    }
  }

  /** `${analysisText.length}/2000`. */
  function CounterFor(text: string): string {
    IntToString(Utf16Length(text)) + "/" + IntToString(AdvertisedLimit)
  }

  /** The counter starts with the text's length in UTF-16 units, even past 2000. */
  lemma CounterShowsLength(text: string)
    ensures var n := IntToString(Utf16Length(text));
      CounterFor(text)[..|n|] == n && ParseInt(n) == Some(Utf16Length(text))
  {
    ParseIntToString(Utf16Length(text));
  }

  /** A text longer than the advertised limit is kept in full. */
  method LongTextKept(text: string) returns (kept: string)
    requires Utf16Length(text) > AdvertisedLimit
    ensures kept == text
  {
    var page := new Page();
    page.SetAnalysisText(text);
    kept := page.analysisText;
  }

  /** The page starts on a listed pair and a listed timeframe. */
  lemma InitialChoicesListed()
    ensures "EUR/USD" in ForexPairs && "1H" in Timeframes()
  {
  }

  /** With the selection kept capped the counter never reads more than "3/3". */
  lemma StrategyCounterBounded(selected: seq<string>)
    requires CappedSelection(selected)
    ensures StrategyCounter(selected) in ["0/3", "1/3", "2/3", "3/3"]
  {
    var n := |selected|;
    assert IntToString(3) == "3";
    if n == 0 { assert IntToString(n) == "0"; assert StrategyCounter(selected) == "0/3"; }
    else if n == 1 { assert IntToString(n) == "1"; assert StrategyCounter(selected) == "1/3"; }
    else if n == 2 { assert IntToString(n) == "2"; assert StrategyCounter(selected) == "2/3"; }
    else { assert IntToString(n) == "3"; assert StrategyCounter(selected) == "3/3"; }
  }
}
