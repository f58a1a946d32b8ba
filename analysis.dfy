/**
 * The request formatting of `src/lib/api/analysis.ts`: the strategy, pair and
 * timeframe formatters, the inline granularity rewrite and the URL of
 * `fetchTradingAnalysis`. The POST itself is not part of this model.
 */
module AnalysisApi {
  import opened Wrappers
  import opened JsString
  import opened JsNumber
  import TradingSymbols

  // ---------------------------------------------------------------------
  // formatStrategyForApi

  /** The cases of the strategy `switch`: display name and API code. */
  const StrategyCases: seq<(string, string)> := [
    ("Breakout Strategy", "breakout"), ("ICT Concept", "ict"),
    ("Advanced SMC", "advanced_smc"), ("SMC Strategy", "smc"),
    ("Fibonacci Retracement", "fibonacci"), ("Trend Following", "trend_following"),
    ("Momentum", "momentum"), ("Volatility Breakout", "volatility_breakout"),
    ("Carry Trade", "carry_trade"), ("Options Straddle", "options_straddle")
  ]

  /** The `TradingStrategy` union type. */
  const TradingStrategies: seq<string> := [
    "breakout", "ict", "advanced_smc", "smc", "fibonacci", "trend_following",
    "momentum", "volatility_breakout", "carry_trade", "options_straddle"
  ]

  lemma StrategyCasesFacts()
    ensures TradingSymbols.UniqueKeys(StrategyCases)
    ensures forall i :: 0 <= i < |StrategyCases| ==> StrategyCases[i].1 == TradingStrategies[i]
  {
  }

  /** `formatStrategyForApi(strategy)`: the matching case, else "breakout". */
  function FormatStrategyForApi(strategy: string): (code: string)
    ensures code in TradingStrategies
  {
    match TradingSymbols.Lookup(StrategyCases, strategy)
    case Some(c) =>
      StrategyCasesFacts();
      var i :| 0 <= i < |StrategyCases| && StrategyCases[i] == (strategy, c);
      c
    case None => "breakout"
  }

  /** Each display name maps to its own code. */
  lemma StrategyNameCode(i: nat)
    requires i < |StrategyCases|
    ensures FormatStrategyForApi(StrategyCases[i].0) == StrategyCases[i].1
  {
    StrategyCasesFacts();
    TradingSymbols.LookupEntry(StrategyCases, i);
  }

  /** Any other name, including a code itself, falls back to "breakout". */
  lemma UnknownStrategyIsBreakout(strategy: string)
    requires strategy !in TradingSymbols.Keys(StrategyCases)
    ensures FormatStrategyForApi(strategy) == "breakout"
  {
  }

  // ---------------------------------------------------------------------
  // formatPairForApi

  /** `pair.replace('/', '_').toUpperCase()`. */
  function FormatPairForApi(pair: string): (r: string)
    ensures |r| == |pair|
  {
    ToUpper(ReplaceFirst(pair, '/', "_"))
  }

  /** Only the first slash becomes '_'; later ones are kept. */
  lemma FormatPairSplit(pre: string, post: string)
    requires '/' !in pre
    ensures FormatPairForApi(pre + "/" + post) == ToUpper(pre) + "_" + ToUpper(post)
  {
    var s := pre + "/" + post;
    assert s == pre + ['/'] + post;
    ReplaceFirstSplit(s, '/', "_", pre, post);
    ToUpperConcat(pre + "_", post);
    ToUpperConcat(pre, "_");
    assert ToUpper("_") == "_";
  }

  /** A pair without a slash is only upper-cased; nothing checks that it exists. */
  lemma FormatPairNoSlash(pair: string)
    requires '/' !in pair
    ensures FormatPairForApi(pair) == ToUpper(pair)
  {
    ReplaceFirstAbsent(pair, '/', "_");
  }

  lemma EurUsdPieces()
    ensures "eur" + "/" + "usd" == "eur/usd"
    ensures ToUpper("eur") + "_" + ToUpper("usd") == "EUR_USD"
  {
  }

  lemma FormatPairExample()
    ensures FormatPairForApi("eur/usd") == "EUR_USD"
  {
    FormatPairSplit("eur", "usd");
    EurUsdPieces();
  }

  // ---------------------------------------------------------------------
  // The inline granularity rewrite: `timeframe.replace(/(\d+)([mhdwM])/i, …)`

  /** The class `[mhdwM]` under the `i` flag. */
  predicate IsUnitInsensitive(c: char) {
    LowerChar(c) == 'm' || LowerChar(c) == 'h' || LowerChar(c) == 'd' || LowerChar(c) == 'w'
  }

  /** The end of the maximal run of digits starting at `i`. */
  function DigitRunEnd(s: string, i: nat): (e: nat)
    requires i <= |s|
    ensures i <= e <= |s|
    ensures forall k :: i <= k < e ==> IsDigit(s[k])
    ensures e == |s| || !IsDigit(s[e])
    decreases |s| - i
  {
    if i < |s| && IsDigit(s[i]) then DigitRunEnd(s, i + 1) else i
  }

  /**
   * The pattern matches at `i`: digits from `i` (greedy `\d+`, and backing
   * off only puts a digit where the unit must be) followed by a unit.
   */
  predicate MatchesAt(s: string, i: nat) {
    i < |s| && IsDigit(s[i]) && DigitRunEnd(s, i) < |s| && IsUnitInsensitive(s[DigitRunEnd(s, i)])
  }

  /** The leftmost match at or after `from`. */
  function FirstMatch(s: string, from: nat): (r: Option<nat>)
    ensures r.Some? ==> from <= r.value && MatchesAt(s, r.value)
    ensures r.Some? ==> forall j :: from <= j < r.value ==> !MatchesAt(s, j)
    ensures r.None? ==> forall j :: from <= j ==> !MatchesAt(s, j)
    decreases |s| - from
  {
    if from >= |s| then None
    else if MatchesAt(s, from) then Some(from)
    else FirstMatch(s, from + 1)
  }

  /** The replacement callback on the digits `num` and the unit letter. */
  function UnitCode(num: string, unit: char): string {
    var u := LowerChar(unit);
    if u == 'm' then "M" + num
    else if u == 'h' then "H" + num
    else if u == 'd' then "D1"
    else if u == 'w' then "W1"
    else "H1"
  }

  /** The granularity sent to the API: the first match replaced, the rest kept. */
  function RewriteGranularity(timeframe: string): string {
    match FirstMatch(timeframe, 0)
    case None => timeframe
    case Some(i) =>
      var e := DigitRunEnd(timeframe, i);
      timeframe[..i] + UnitCode(timeframe[i..e], timeframe[e]) + timeframe[e + 1..]
  }

  /** The matched unit is always one of the four letters, so the "H1" default never fires. */
  lemma UnitDefaultUnreachable(num: string, unit: char)
    requires IsUnitInsensitive(unit)
    ensures UnitCode(num, unit) == (match LowerChar(unit)
      case 'm' => "M" + num
      case 'h' => "H" + num
      case 'd' => "D1"
      case _ => "W1")
  {
  }

  lemma {:induction false} DigitRunEndIs(s: string, i: nat, e: nat)
    requires i <= e <= |s|
    requires forall k :: i <= k < e ==> IsDigit(s[k])
    requires e == |s| || !IsDigit(s[e])
    ensures DigitRunEnd(s, i) == e
    decreases e - i
  {
    if i < e {
      DigitRunEndIs(s, i + 1, e);
    }
  }

  /** Digits then a unit: the leftmost match is at the start and its digits end at the unit. */
  lemma LeadingMatch(num: string, unit: char, rest: string)
    requires |num| > 0 && AllDigits(num) && IsUnitInsensitive(unit)
    ensures FirstMatch(num + [unit] + rest, 0) == Some(0)
    ensures DigitRunEnd(num + [unit] + rest, 0) == |num|
  {
    var s := num + [unit] + rest;
    var e := |num|;
    assert s[e] == unit;
    assert !IsDigit(unit);
    assert forall k :: 0 <= k < e ==> s[k] == num[k];
    DigitRunEndIs(s, 0, e);
    assert MatchesAt(s, 0);
  }

  /** A timeframe that starts with digits and a unit has exactly that prefix rewritten. */
  lemma RewriteLeading(num: string, unit: char, rest: string)
    requires |num| > 0 && AllDigits(num) && IsUnitInsensitive(unit)
    ensures RewriteGranularity(num + [unit] + rest) == UnitCode(num, unit) + rest
  {
    var s := num + [unit] + rest;
    var e := |num|;
    LeadingMatch(num, unit, rest);
    assert s[..0] == [] && s[0..e] == num && s[e] == unit && s[e + 1..] == rest;
  }

  /** A timeframe with no digit-then-unit anywhere passes through unchanged. */
  lemma RewriteNoMatch(timeframe: string)
    requires forall j :: 0 <= j < |timeframe| ==> !MatchesAt(timeframe, j)
    ensures RewriteGranularity(timeframe) == timeframe
  {
  }

  /** The button labels of the timeframe selectors. */
  const UiTimeframes: seq<string> := ["1M", "5M", "15M", "30M", "1H", "4H", "8H", "1D", "1W", "1MO"]

  /** What the rewrite sends for each of them; "1MO" (a month) collapses into "M1O". */
  const UiGranularities: seq<string> := ["M1", "M5", "M15", "M30", "H1", "H4", "H8", "D1", "W1", "M1O"]

  /** The `Timeframe` union type. */
  const ApiTimeframes: seq<string> := ["M1", "M5", "M15", "M30", "H1", "H4", "H8", "D1", "W1", "M"]

  /** One button label: its number, its unit letter, and what follows. */
  lemma UiTimeframeRewrite(i: nat)
    requires i < |UiTimeframes|
    ensures RewriteGranularity(UiTimeframes[i]) == UiGranularities[i]
  {
    var t := UiTimeframes[i];
    var n := if i == 2 || i == 3 then 2 else 1;
    var num, rest := t[..n], t[n + 1..];
    assert t == num + [t[n]] + rest;
    RewriteLeading(num, t[n], rest);
  }

  lemma UiTimeframesRewrite()
    ensures forall i :: 0 <= i < |UiTimeframes| ==> RewriteGranularity(UiTimeframes[i]) == UiGranularities[i]
  {
    forall i | 0 <= i < |UiTimeframes|
      ensures RewriteGranularity(UiTimeframes[i]) == UiGranularities[i]
    {
      UiTimeframeRewrite(i);
    }
  }

  /** Tokens already in API form contain no digit followed by a unit. */
  lemma ApiTimeframesUnchanged()
    ensures forall i :: 0 <= i < |ApiTimeframes| ==> RewriteGranularity(ApiTimeframes[i]) == ApiTimeframes[i]
  {
    forall i | 0 <= i < |ApiTimeframes|
      ensures RewriteGranularity(ApiTimeframes[i]) == ApiTimeframes[i]
    {
      var t := ApiTimeframes[i];
      forall j | 0 <= j < |t| ensures !MatchesAt(t, j) {
        if IsDigit(t[j]) {
          DigitRunEndIs(t, j, |t|);
        }
      }
      RewriteNoMatch(t);
    }
  }

  /** Every UI button except the month reaches the API as a member of `Timeframe`. */
  lemma UiGranularitiesTyped()
    ensures forall i :: 0 <= i < |UiGranularities| ==> (UiGranularities[i] in ApiTimeframes <==> i != 9)
  {
  }

  // ---------------------------------------------------------------------
  // formatTimeframe: `timeframe.match(/^(\d+)([mhdwM])/)`

  /** The class `[mhdwM]` without the `i` flag. */
  predicate IsUnitSensitive(c: char) {
    c == 'm' || c == 'h' || c == 'd' || c == 'w' || c == 'M'
  }

  /** The anchored match: whole match, digit group and unit group. */
  datatype TimeframeMatch = TimeframeMatch(whole: string, digits: string, unit: char)

  function AnchoredMatch(timeframe: string): (r: Option<TimeframeMatch>)
    ensures r.Some? ==> |r.value.digits| > 0 && AllDigits(r.value.digits) && IsUnitSensitive(r.value.unit)
    ensures r.Some? ==> r.value.whole == r.value.digits + [r.value.unit]
    ensures r.Some? ==> StartsWith(timeframe, r.value.whole)
  {
    if |timeframe| > 0 && IsDigit(timeframe[0]) then
      var e := DigitRunEnd(timeframe, 0);
      if e < |timeframe| && IsUnitSensitive(timeframe[e]) then
        assert timeframe[..e + 1] == timeframe[..e] + [timeframe[e]];
        Some(TimeframeMatch(timeframe[..e + 1], timeframe[..e], timeframe[e]))
      else None
    else None
  }

  /** The `switch (unit)` of formatTimeframe, returning `value` in two cases. */
  function TimeframeSwitch(value: string, unit: string): string {
    if unit == "m" then "M" + value
    else if unit == "h" then "H" + value
    else if unit == "d" then "D1"
    else if unit == "w" then "W1"
    else if unit == "M" then "M"
    else "H1"
  }

  /**
   * formatTimeframe as written: `const [value, unit] = match` takes the whole
   * match as `value` and the digit group as `unit`.
   */
  function FormatTimeframeAsWritten(timeframe: string): string {
    match AnchoredMatch(timeframe)
    case None => "H1"
    case Some(m) => TimeframeSwitch(m.whole, m.digits)
  }

  /** As written, every input gives "H1": a run of digits is never a unit letter. */
  lemma FormatTimeframeAlwaysH1(timeframe: string)
    ensures FormatTimeframeAsWritten(timeframe) == "H1"
  {
    match AnchoredMatch(timeframe)
    case None =>
    case Some(m) =>
      assert IsDigit(m.digits[0]);
  }

  /** formatTimeframe as documented: `value` is the digit group and `unit` the unit letter. */
  function FormatTimeframe(timeframe: string): string {
    match AnchoredMatch(timeframe)
    case None => "H1"
    case Some(m) => TimeframeSwitch(m.digits, [m.unit])
  }

  /** Leading digits and a unit letter are translated; whatever follows is ignored. */
  lemma FormatTimeframeLeading(num: string, unit: char, rest: string)
    requires |num| > 0 && AllDigits(num) && IsUnitSensitive(unit)
    ensures FormatTimeframe(num + [unit] + rest) == (match unit
      case 'm' => "M" + num
      case 'h' => "H" + num
      case 'd' => "D1"
      case 'w' => "W1"
      case _ => "M")
  {
    var s := num + [unit] + rest;
    assert s[|num|] == unit;
    DigitRunEndIs(s, 0, |num|);
    assert s[..|num|] == num;
  }

  /** A label that does not start with digits and a unit letter gives "H1". */
  lemma FormatTimeframeUnrecognised(timeframe: string)
    requires |timeframe| == 0 || !IsDigit(timeframe[0])
    ensures FormatTimeframe(timeframe) == "H1"
  {
  }

  lemma DocExamplePieces()
    ensures "15m" == "15" + ['m'] + "" && "1m" == "1" + ['m'] + ""
    ensures "1h" == "1" + ['h'] + "" && "4h" == "4" + ['h'] + ""
    ensures AllDigits("15") && AllDigits("1") && AllDigits("4")
  {
  }

  /** The documented examples: '1m', '15m', '1h' and '4h'. */
  lemma FormatTimeframeDocExamples()
    ensures FormatTimeframe("1m") == "M1" && FormatTimeframe("15m") == "M15"
    ensures FormatTimeframe("1h") == "H1" && FormatTimeframe("4h") == "H4"
  {
    DocExamplePieces();
    FormatTimeframeLeading("1", 'm', "");
    FormatTimeframeLeading("15", 'm', "");
    FormatTimeframeLeading("1", 'h', "");
    FormatTimeframeLeading("4", 'h', "");
  }

  /** So the code as written breaks the documented '15m' to 'M15'. */
  lemma FormatTimeframeCounterexample()
    ensures FormatTimeframeAsWritten("15m") == "H1" != FormatTimeframe("15m")
  {
    FormatTimeframeAlwaysH1("15m");
    FormatTimeframeDocExamples();
  }

  /**
   * On a timeframe that starts with digits and a lower-case minute, hour, day
   * or week letter, the documented formatter agrees with the inline rewrite.
   */
  lemma FormatTimeframeAgreesWithRewrite(num: string, unit: char, rest: string)
    requires |num| > 0 && AllDigits(num) && unit in "mhdw"
    ensures RewriteGranularity(num + [unit] + rest) == FormatTimeframe(num + [unit] + rest) + rest
  {
    FormatTimeframeLeading(num, unit, rest);
    RewriteLeading(num, unit, rest);
  }

  // ---------------------------------------------------------------------
  // The request URL of fetchTradingAnalysis

  const BaseUrl: string := "https://backend.axiontrust.com"
  const DefaultCount: int := 100

  /** The parameters; `count` is None when the caller leaves it out. */
  datatype AnalysisParams = AnalysisParams(pair: string, timeframe: string, strategy: string, count: Option<int>)

  /** The URL the request is posted to; nothing is percent-encoded. */
  function RequestUrl(params: AnalysisParams): string {
    BaseUrl + "/analysis/strategy?strategy=" + FormatStrategyForApi(params.strategy)
      + "&pair=" + FormatPairForApi(params.pair)
      + "&granularity=" + RewriteGranularity(params.timeframe)
      + "&count=" + IntToString(params.count.GetOr(DefaultCount))
  }

  /** The URL ends with the count, which reads back as the given count or 100. */
  lemma RequestUrlCount(params: AnalysisParams)
    ensures var c := IntToString(params.count.GetOr(DefaultCount));
      var url := RequestUrl(params);
      |c| <= |url| && url[|url| - |c|..] == c && ParseInt(url[|url| - |c|..]) == Some(params.count.GetOr(DefaultCount))
  {
    ParseIntToString(params.count.GetOr(DefaultCount));
  }

  /** Leaving `count` out is the same as passing 100. */
  lemma RequestUrlDefaultCount(params: AnalysisParams)
    requires params.count.None?
    ensures RequestUrl(params) == RequestUrl(params.(count := Some(100)))
  {
  }

  lemma CodesHaveNoAmpersand()
    ensures forall i :: 0 <= i < |TradingStrategies| ==> '&' !in TradingStrategies[i]
  {
  }

  lemma StartsWithConcat(a: string, b: string)
    ensures StartsWith(a + b, a)
  {
    assert (a + b)[..|a|] == a;
  }

  /** The strategy field holds one of the ten codes, which contain no '&'. */
  lemma RequestUrlStrategy(params: AnalysisParams)
    ensures var code := FormatStrategyForApi(params.strategy);
      StartsWith(RequestUrl(params), BaseUrl + "/analysis/strategy?strategy=" + code + "&pair=")
      && code in TradingStrategies && '&' !in code
  {
    var head := BaseUrl + "/analysis/strategy?strategy=" + FormatStrategyForApi(params.strategy) + "&pair=";
    var tail := FormatPairForApi(params.pair)
      + "&granularity=" + RewriteGranularity(params.timeframe)
      + "&count=" + IntToString(params.count.GetOr(DefaultCount));
    assert RequestUrl(params) == head + tail;
    StartsWithConcat(head, tail);
    CodesHaveNoAmpersand();
  }
}
