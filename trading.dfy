/**
 * The chart-symbol normaliser of `src/utils/trading.ts`: four constant tables
 * and `formatTradingViewSymbol`, which turns a display label such as
 * "EUR/USD", "BTC/USD" or "S&P 500" into a chart-provider symbol.
 */
module TradingSymbols {
  import opened Wrappers
  import opened JsString

  /** MAJOR_FOREX_PAIRS: ten currency pairs followed by nine commodity pairs. */
  const MajorForexPairs: seq<string> := [
    "EUR/USD", "USD/JPY", "GBP/USD", "AUD/USD", "USD/CAD",
    "USD/CHF", "NZD/USD", "EUR/GBP", "EUR/JPY", "GBP/JPY",
    "XAU/USD", "XAG/USD", "XPT/USD", "XPD/USD", "OIL/USD",
    "NATURALGAS/USD", "COPPER/USD", "PLATINUM/USD", "PALLADIUM/USD"
  ]

  /** CRYPTO_PAIRS, in declaration order (the order `Object.keys` reports). */
  const CryptoPairs: seq<(string, string)> := [
    ("BTC/USD", "BINANCE:BTCUSDT"), ("ETH/USD", "BINANCE:ETHUSDT"),
    ("XRP/USD", "BINANCE:XRPUSDT"), ("SOL/USD", "BINANCE:SOLUSDT"),
    ("ADA/USD", "BINANCE:ADAUSDT"), ("DOT/USD", "BINANCE:DOTUSDT"),
    ("DOGE/USD", "BINANCE:DOGEUSDT"), ("AVAX/USD", "BINANCE:AVAXUSDT"),
    ("LINK/USD", "BINANCE:LINKUSDT"), ("MATIC/USD", "BINANCE:MATICUSDT"),
    ("BNB/USD", "BINANCE:BNBUSDT"), ("XLM/USD", "BINANCE:XLMUSDT"),
    ("UNI/USD", "BINANCE:UNIUSDT"), ("ATOM/USD", "BINANCE:ATOMUSDT"),
    ("LTC/USD", "BINANCE:LTCUSDT")
  ]

  /** STOCK_INDICES: the global indices offered for selection. */
  const StockIndices: seq<string> := [
    "S&P 500", "DOW", "NASDAQ", "FTSE 100", "DAX",
    "NIKKEI 225", "HANG SENG", "ASX 200", "CAC 40"
  ]

  /** COMMODITY_SYMBOLS, in declaration order. */
  const CommoditySymbols: seq<(string, string)> := [
    ("XAU/USD", "TVC:GOLD"), ("XAG/USD", "TVC:SILVER"), ("OIL/USD", "TVC:USOIL"),
    ("NATURALGAS/USD", "NATGASUSD"), ("COPPER/USD", "XCUUSD"),
    ("PLATINUM/USD", "TVC:PLATINUM"), ("PALLADIUM/USD", "TVC:PALLADIUM"),
    ("XPT/USD", "TVC:PLATINUM"), ("XPD/USD", "TVC:PALLADIUM")
  ]

  /** The cases of the index `switch`, in case order: label and symbol. */
  const IndexCases: seq<(string, string)> := [
    ("S&P 500", "SPX"), ("DOW", "DOW"), ("NASDAQ", "IXIC"), ("FTSE 100", "FTSE:UKX"),
    ("DAX", "GER30"), ("NIKKEI 225", "JPN225"), ("HANG SENG", "HSI"), ("ASX 200", "AS51"),
    ("CAC 40", "CAC40"), ("SENSEX", "BSE:SENSEX"), ("NIFTY 50", "NSE:NIFTY50"),
    ("NIFTY BANK", "NSE:BANKNIFTY"), ("NIFTY NEXT 50", "NSE:JUNIORBEES")
  ]

  /** The result of `formatTradingViewSymbol`. */
  datatype FormattedSymbol = FormattedSymbol(symbol: string, limitedTimeframes: bool)

  /** `Object.keys(table)`. */
  function Keys(table: seq<(string, string)>): (ks: seq<string>)
    ensures |ks| == |table|
    ensures forall i :: 0 <= i < |table| ==> ks[i] == table[i].0
  {
    seq(|table|, i requires 0 <= i < |table| => table[i].0)
  }

  predicate UniqueKeys(table: seq<(string, string)>) {
    forall i, j :: 0 <= i < j < |table| ==> table[i].0 != table[j].0
  }

  /** `table[key]` restricted to the table's own keys. */
  function Lookup(table: seq<(string, string)>, key: string): (r: Option<string>)
    ensures r.None? <==> key !in Keys(table)
    ensures r.Some? ==> (key, r.value) in table
  {
    if table == [] then None
    else if table[0].0 == key then Some(table[0].1)
    else
      var r := Lookup(table[1..], key);
      assert Keys(table) == [table[0].0] + Keys(table[1..]);
      r
  }

  /** In a table whose keys are distinct, every key maps to exactly its own value. */
  lemma {:induction false} LookupEntry(table: seq<(string, string)>, i: nat)
    requires UniqueKeys(table) && i < |table|
    ensures Lookup(table, table[i].0) == Some(table[i].1)
  {
    if i > 0 {
      assert UniqueKeys(table[1..]) by {
        forall a, b | 0 <= a < b < |table| - 1 ensures table[1..][a].0 != table[1..][b].0 {
          assert table[1..][a] == table[a + 1] && table[1..][b] == table[b + 1];
        }
      }
      assert table[0].0 != table[i].0;
      LookupEntry(table[1..], i - 1);
      assert table[1..][i - 1] == table[i];
    }
  }

  /** `pair.replace(/\s+/g, '').toUpperCase()`. */
  function CleanPair(pair: string): string {
    ToUpper(RemoveWhitespace(pair))
  }

  /** The index `switch` on the raw label: the first case whose label equals it. */
  function IndexSymbol(pair: string): Option<string> {
    Lookup(IndexCases, pair)
  }

  /** The guard of the forex branch: a listed pair that is not an `X…/USD` metal. */
  predicate TakesForexBranch(pair: string) {
    pair in MajorForexPairs && (!StartsWith(pair, "X") || !Includes(pair, "/USD"))
  }

  /** `"FX:"` followed by the cleaned label with its first slash removed. */
  function ForexSymbol(clean: string): string {
    "FX:" + ReplaceFirst(clean, '/', "")
  }

  /**
   * `formatTradingViewSymbol(pair)`. Branches in source order: a cleaned label
   * with a colon passes through, then the crypto and commodity tables (keyed
   * on the raw label), then the forex list, then the index switch, then the
   * slash fallback. No path flags limited timeframes.
   */
  function FormatTradingViewSymbol(pair: string): (r: FormattedSymbol)
    ensures !r.limitedTimeframes
  {
    var clean := CleanPair(pair);
    if ':' in clean then FormattedSymbol(clean, false)
    else if Lookup(CryptoPairs, pair).Some? then FormattedSymbol(Lookup(CryptoPairs, pair).value, false)
    else if Lookup(CommoditySymbols, pair).Some? then FormattedSymbol(Lookup(CommoditySymbols, pair).value, false)
    else FormattedSymbol(AfterTables(pair, clean), false)
  }

  /** The branches after the two table lookups: forex list, index switch, fallback. */
  function AfterTables(pair: string, clean: string): string {
    if TakesForexBranch(pair) then ForexSymbol(clean)
    else if IndexSymbol(pair).Some? then IndexSymbol(pair).value
    else if '/' in clean then ForexSymbol(clean)
    else clean
  }

  // ---------------------------------------------------------------------
  // Cleaning

  /** A label that cleaning leaves alone: no white space and no lower-case letter. */
  predicate IsClean(s: string) {
    NoWhitespace(s) && IsUpperFixed(s)
  }

  lemma CleanPairOfClean(s: string)
    requires IsClean(s)
    ensures CleanPair(s) == s
  {
    RemoveWhitespaceFixed(s);
    ToUpperFixed(s);
  }

  lemma CleanPairIsClean(s: string)
    ensures IsClean(CleanPair(s))
  {
    var w := RemoveWhitespace(s);
    assert forall i :: 0 <= i < |w| ==> !IsWhitespace(ToUpper(w)[i]);
  }

  /** Cleaning neither adds nor removes a punctuation character such as ':' or '/'. */
  lemma CleanPairKeeps(s: string, c: char)
    requires !IsWhitespace(c) && !IsAsciiLower(c) && !IsAsciiUpper(c)
    ensures c in CleanPair(s) <==> c in s
  {
    RemoveWhitespaceMembers(s, c);
    ToUpperMembers(RemoveWhitespace(s), c);
  }

  lemma ForexSymbolIsClean(clean: string)
    requires IsClean(clean)
    ensures IsClean(ForexSymbol(clean))
  {
    var rest := ReplaceFirst(clean, '/', "");
    ReplaceFirstMembersEmpty(clean, '/');
    forall i | 0 <= i < |rest| ensures !IsWhitespace(rest[i]) && !IsAsciiLower(rest[i]) {
      assert rest[i] in clean;
    }
    assert ForexSymbol(clean) == "FX:" + rest;
  }

  /** Upper-case letters, digits and ':' — the alphabet of every table value. */
  predicate SymbolChars(s: string) {
    forall i :: 0 <= i < |s| ==> ('A' <= s[i] <= 'Z' || '0' <= s[i] <= '9' || s[i] == ':')
  }

  lemma SymbolCharsClean(s: string)
    requires SymbolChars(s)
    ensures IsClean(s)
  {
  }

  /** Every value in the two symbol tables is already clean. */
  lemma {:induction false} CryptoValuesClean()
    ensures forall i :: 0 <= i < |CryptoPairs| ==> IsClean(CryptoPairs[i].1)
  {
    forall i | 0 <= i < |CryptoPairs| ensures IsClean(CryptoPairs[i].1) {
      assert SymbolChars(CryptoPairs[i].1);
      SymbolCharsClean(CryptoPairs[i].1);
    }
  }

  lemma {:induction false} CommodityValuesClean()
    ensures forall i :: 0 <= i < |CommoditySymbols| ==> IsClean(CommoditySymbols[i].1)
  {
    forall i | 0 <= i < |CommoditySymbols| ensures IsClean(CommoditySymbols[i].1) {
      assert SymbolChars(CommoditySymbols[i].1);
      SymbolCharsClean(CommoditySymbols[i].1);
    }
  }

  // ---------------------------------------------------------------------
  // Properties of formatTradingViewSymbol

  lemma LookupValueClean(table: seq<(string, string)>, key: string)
    requires forall i :: 0 <= i < |table| ==> IsClean(table[i].1)
    requires Lookup(table, key).Some?
    ensures IsClean(Lookup(table, key).value)
  {
    var e := (key, Lookup(table, key).value);
    var i :| 0 <= i < |table| && table[i] == e;
  }

  lemma {:induction false} IndexValuesClean()
    ensures forall i :: 0 <= i < |IndexCases| ==> IsClean(IndexCases[i].1)
  {
    forall i | 0 <= i < |IndexCases| ensures IsClean(IndexCases[i].1) {
      assert SymbolChars(IndexCases[i].1);
      SymbolCharsClean(IndexCases[i].1);
    }
  }

  /** Every symbol the normaliser produces is itself a clean label. */
  lemma SymbolIsClean(pair: string)
    ensures IsClean(FormatTradingViewSymbol(pair).symbol)
  {
    var clean := CleanPair(pair);
    CleanPairIsClean(pair);
    CryptoValuesClean();
    CommodityValuesClean();
    if ':' in clean {
    } else if Lookup(CryptoPairs, pair).Some? {
      LookupValueClean(CryptoPairs, pair);
    } else if Lookup(CommoditySymbols, pair).Some? {
      LookupValueClean(CommoditySymbols, pair);
    } else if TakesForexBranch(pair) {
      ForexSymbolIsClean(clean);
    } else if IndexSymbol(pair).Some? {
      IndexValuesClean();
      LookupValueClean(IndexCases, pair);
    } else if '/' in clean {
      ForexSymbolIsClean(clean);
    }
  }

  /** A label that already carries an exchange prefix comes back cleaned and otherwise untouched. */
  lemma ColonPassesThrough(pair: string)
    requires ':' in pair
    ensures FormatTradingViewSymbol(pair) == FormattedSymbol(CleanPair(pair), false)
  {
    CleanPairKeeps(pair, ':');
  }

  /** Feeding a prefixed result back in returns it unchanged. */
  lemma PrefixedSymbolIsFixed(pair: string)
    requires ':' in FormatTradingViewSymbol(pair).symbol
    ensures FormatTradingViewSymbol(FormatTradingViewSymbol(pair).symbol) == FormatTradingViewSymbol(pair)
  {
    var sym := FormatTradingViewSymbol(pair).symbol;
    SymbolIsClean(pair);
    CleanPairOfClean(sym);
    ColonPassesThrough(sym);
  }

  lemma CryptoKeysUnique() ensures UniqueKeys(CryptoPairs) { }
  lemma CommodityKeysUnique() ensures UniqueKeys(CommoditySymbols) { }
  lemma IndexKeysUnique() ensures UniqueKeys(IndexCases) { }

  /** No key of any table, and no listed pair, contains a colon. */
  lemma CryptoKeysNoColon()
    ensures forall i :: 0 <= i < |CryptoPairs| ==> ':' !in CryptoPairs[i].0
  {
  }

  lemma CommodityKeysNoColon()
    ensures forall i :: 0 <= i < |CommoditySymbols| ==> ':' !in CommoditySymbols[i].0
  {
  }

  lemma ForexPairsNoColon()
    ensures forall i :: 0 <= i < |MajorForexPairs| ==> ':' !in MajorForexPairs[i]
  {
  }

  lemma IndexKeysNoColon()
    ensures forall i :: 0 <= i < |IndexCases| ==> ':' !in IndexCases[i].0
  {
  }

  lemma KeysHaveNoColon()
    ensures forall i :: 0 <= i < |CryptoPairs| ==> ':' !in CryptoPairs[i].0
    ensures forall i :: 0 <= i < |CommoditySymbols| ==> ':' !in CommoditySymbols[i].0
    ensures forall i :: 0 <= i < |MajorForexPairs| ==> ':' !in MajorForexPairs[i]
    ensures forall i :: 0 <= i < |IndexCases| ==> ':' !in IndexCases[i].0
  {
    CryptoKeysNoColon();
    CommodityKeysNoColon();
    ForexPairsNoColon();
    IndexKeysNoColon();
  }

  /** The crypto table and the commodity table share no key. */
  lemma CryptoCommodityDisjoint()
    ensures forall i, j :: 0 <= i < |CommoditySymbols| && 0 <= j < |CryptoPairs| ==>
      CommoditySymbols[i].0 != CryptoPairs[j].0
  {
  }

  /** Every crypto label maps to its table symbol. */
  lemma CryptoEntry(i: nat)
    requires i < |CryptoPairs|
    ensures FormatTradingViewSymbol(CryptoPairs[i].0) == FormattedSymbol(CryptoPairs[i].1, false)
  {
    KeysHaveNoColon();
    CleanPairKeeps(CryptoPairs[i].0, ':');
    CryptoKeysUnique();
    LookupEntry(CryptoPairs, i);
  }

  /** Every commodity label maps to its table symbol. */
  lemma CommodityEntry(i: nat)
    requires i < |CommoditySymbols|
    ensures FormatTradingViewSymbol(CommoditySymbols[i].0) == FormattedSymbol(CommoditySymbols[i].1, false)
  {
    var key := CommoditySymbols[i].0;
    KeysHaveNoColon();
    CleanPairKeeps(key, ':');
    CryptoCommodityDisjoint();
    assert key !in Keys(CryptoPairs);
    CommodityKeysUnique();
    LookupEntry(CommoditySymbols, i);
  }

  /** The first ten listed pairs are currencies: in neither table, and none starts with "X". */
  lemma CurrencyPairsFacts()
    ensures forall i, j :: 0 <= i < 10 && 0 <= j < |CryptoPairs| ==> MajorForexPairs[i] != CryptoPairs[j].0
    ensures forall i, j :: 0 <= i < 10 && 0 <= j < |CommoditySymbols| ==> MajorForexPairs[i] != CommoditySymbols[j].0
    ensures forall i :: 0 <= i < 10 ==> MajorForexPairs[i][0] != 'X'
  {
  }

  /** The forex branch, once the earlier branches have been passed. */
  lemma ForexBranch(pair: string)
    requires ':' !in pair && pair !in Keys(CryptoPairs) && pair !in Keys(CommoditySymbols)
    requires TakesForexBranch(pair)
    ensures FormatTradingViewSymbol(pair) == FormattedSymbol(ForexSymbol(CleanPair(pair)), false)
  {
    CleanPairKeeps(pair, ':');
  }

  /** A listed currency pair becomes "FX:" and its cleaned label without the slash. */
  lemma CurrencyPairEntry(i: nat)
    requires i < 10
    ensures FormatTradingViewSymbol(MajorForexPairs[i]) ==
      FormattedSymbol(ForexSymbol(CleanPair(MajorForexPairs[i])), false)
  {
    var pair := MajorForexPairs[i];
    KeysHaveNoColon();
    CurrencyPairsFacts();
    assert pair !in Keys(CryptoPairs);
    assert pair !in Keys(CommoditySymbols);
    assert !StartsWith(pair, "X");
    ForexBranch(pair);
  }

  /**
   * The remaining nine listed pairs are all commodity keys, so the commodity
   * branch claims them first and the forex branch's inner guard never fails
   * on a pair that reaches it.
   */
  lemma ListedCommoditiesInTable()
    ensures forall i :: 10 <= i < |MajorForexPairs| ==> MajorForexPairs[i] in Keys(CommoditySymbols)
  {
    assert forall i :: 10 <= i < |MajorForexPairs| ==> MajorForexPairs[i] == CommoditySymbols[
      if i == 10 then 0 else if i == 11 then 1 else if i == 12 then 7 else if i == 13 then 8
      else if i == 14 then 2 else if i == 15 then 3 else if i == 16 then 4 else if i == 17 then 5 else 6].0;
  }

  lemma ForexInnerGuardDead(pair: string)
    requires pair in MajorForexPairs && !TakesForexBranch(pair)
    ensures Lookup(CommoditySymbols, pair).Some?
  {
    var i :| 0 <= i < |MajorForexPairs| && MajorForexPairs[i] == pair;
    assert pair[0] == 'X';
    CurrencyPairsFacts();
    ListedCommoditiesInTable();
  }

  /** The currency pairs are all of the form "AAA/BBB" in capitals. */
  lemma {:induction false} CurrencyPairShape()
    ensures forall i :: 0 <= i < 10 ==>
      |MajorForexPairs[i]| == 7 && MajorForexPairs[i][3] == '/' && '/' !in MajorForexPairs[i][..3]
    ensures forall i :: 0 <= i < 10 ==> IsClean(MajorForexPairs[i])
  {
    forall i | 0 <= i < 10 ensures IsClean(MajorForexPairs[i]) {
      assert forall k :: 0 <= k < |MajorForexPairs[i]| ==>
        'A' <= MajorForexPairs[i][k] <= 'Z' || MajorForexPairs[i][k] == '/';
    }
  }

  lemma ForexSymbolOfSlashed(pair: string)
    requires IsClean(pair) && |pair| >= 4 && pair[3] == '/' && '/' !in pair[..3]
    ensures ForexSymbol(CleanPair(pair)) == "FX:" + pair[..3] + pair[4..]
  {
    CleanPairOfClean(pair);
    assert pair == pair[..3] + [pair[3]] + pair[4..];
    ReplaceFirstSplit(pair, '/', "", pair[..3], pair[4..]);
    assert pair[..3] + [] + pair[4..] == pair[..3] + pair[4..];
  }

  /** So "EUR/USD" becomes "FX:EURUSD", "USD/JPY" becomes "FX:USDJPY", and so on. */
  lemma CurrencyPairSymbol(i: nat)
    requires i < 10
    ensures var p := MajorForexPairs[i];
      |p| == 7 && FormatTradingViewSymbol(p).symbol == "FX:" + p[..3] + p[4..]
  {
    CurrencyPairEntry(i);
    CurrencyPairShape();
    ForexSymbolOfSlashed(MajorForexPairs[i]);
  }

  /** The index labels appear in none of the earlier tables. */
  lemma IndexLabelsDisjoint()
    ensures forall i, j :: 0 <= i < |IndexCases| && 0 <= j < |CryptoPairs| ==> IndexCases[i].0 != CryptoPairs[j].0
    ensures forall i, j :: 0 <= i < |IndexCases| && 0 <= j < |CommoditySymbols| ==> IndexCases[i].0 != CommoditySymbols[j].0
    ensures forall i, j :: 0 <= i < |IndexCases| && 0 <= j < |MajorForexPairs| ==> IndexCases[i].0 != MajorForexPairs[j]
  {
  }

  /** The index branch, once the earlier branches have been passed. */
  lemma IndexBranch(pair: string)
    requires ':' !in pair && pair !in Keys(CryptoPairs) && pair !in Keys(CommoditySymbols)
    requires pair !in MajorForexPairs && IndexSymbol(pair).Some?
    ensures FormatTradingViewSymbol(pair) == FormattedSymbol(IndexSymbol(pair).value, false)
  {
    CleanPairKeeps(pair, ':');
  }

  /** Every label of the index switch maps to its own symbol: "S&P 500" to "SPX", and so on. */
  lemma IndexEntry(i: nat)
    requires i < |IndexCases|
    ensures FormatTradingViewSymbol(IndexCases[i].0) == FormattedSymbol(IndexCases[i].1, false)
  {
    var name := IndexCases[i].0;
    KeysHaveNoColon();
    IndexLabelsDisjoint();
    assert name !in Keys(CryptoPairs);
    assert name !in Keys(CommoditySymbols);
    assert name !in MajorForexPairs;
    IndexKeysUnique();
    LookupEntry(IndexCases, i);
    IndexBranch(name);
  }

  /** The nine selectable stock indices are the first nine cases of the switch. */
  lemma StockIndicesAreCases()
    ensures forall i :: 0 <= i < |StockIndices| ==> i < |IndexCases| && StockIndices[i] == IndexCases[i].0
  {
  }

  /**
   * An unknown label: with a slash it is treated as a forex pair, otherwise
   * the cleaned label is returned as it is.
   */
  lemma Fallback(pair: string)
    requires ':' !in pair && pair !in Keys(CryptoPairs) && pair !in Keys(CommoditySymbols)
    requires pair !in MajorForexPairs && pair !in Keys(IndexCases)
    ensures FormatTradingViewSymbol(pair).symbol ==
      if '/' in pair then ForexSymbol(CleanPair(pair)) else CleanPair(pair)
  {
    CleanPairKeeps(pair, ':');
    CleanPairKeeps(pair, '/');
  }

  /** No key of a table is blank, and no value is empty. */
  predicate WellFormedTable(table: seq<(string, string)>) {
    forall i :: 0 <= i < |table| ==> |table[i].0| > 0 && !IsWhitespace(table[i].0[0]) && |table[i].1| > 0
  }

  lemma CryptoWellFormed()
    ensures WellFormedTable(CryptoPairs)
  {
  }

  lemma CommodityWellFormed()
    ensures WellFormedTable(CommoditySymbols)
  {
  }

  lemma IndexCasesWellFormed()
    ensures WellFormedTable(IndexCases)
  {
  }

  lemma TablesWellFormed()
    ensures WellFormedTable(CryptoPairs) && WellFormedTable(CommoditySymbols) && WellFormedTable(IndexCases)
  {
    CryptoWellFormed();
    CommodityWellFormed();
    IndexCasesWellFormed();
  }

  lemma BlankNotAKey(table: seq<(string, string)>, pair: string)
    requires WellFormedTable(table)
    requires forall k :: 0 <= k < |pair| ==> IsWhitespace(pair[k])
    ensures pair !in Keys(table)
  {
  }

  lemma LookupValueNonEmpty(table: seq<(string, string)>, key: string)
    requires WellFormedTable(table) && Lookup(table, key).Some?
    ensures |Lookup(table, key).value| > 0
  {
    var i :| 0 <= i < |table| && table[i] == (key, Lookup(table, key).value);
  }

  lemma ForexListNotBlank()
    ensures forall i :: 0 <= i < |MajorForexPairs| ==> |MajorForexPairs[i]| > 0 && !IsWhitespace(MajorForexPairs[i][0])
  {
  }

  /** A label of nothing but white space gives the empty symbol. */
  lemma BlankGivesEmpty(pair: string)
    requires forall k :: 0 <= k < |pair| ==> IsWhitespace(pair[k])
    ensures FormatTradingViewSymbol(pair).symbol == []
  {
    RemoveWhitespaceEmpty(pair);
    TablesWellFormed();
    ForexListNotBlank();
    BlankNotAKey(CryptoPairs, pair);
    BlankNotAKey(CommoditySymbols, pair);
    BlankNotAKey(IndexCases, pair);
    assert CleanPair(pair) == [];
  }

  /**
   * Any other label gives a non-empty symbol: an empty symbol can come neither
   * from a table nor from the forex branch, so only from a label that cleans to "".
   */
  lemma EmptyMeansCleanedEmpty(pair: string)
    requires FormatTradingViewSymbol(pair).symbol == []
    ensures CleanPair(pair) == []
  {
    TablesWellFormed();
    if Lookup(CryptoPairs, pair).Some? {
      LookupValueNonEmpty(CryptoPairs, pair);
    }
    if Lookup(CommoditySymbols, pair).Some? {
      LookupValueNonEmpty(CommoditySymbols, pair);
    }
    if IndexSymbol(pair).Some? {
      LookupValueNonEmpty(IndexCases, pair);
    }
  }

  lemma EmptyOnlyFromBlank(pair: string)
    requires FormatTradingViewSymbol(pair).symbol == []
    ensures forall k :: 0 <= k < |pair| ==> IsWhitespace(pair[k])
  {
    EmptyMeansCleanedEmpty(pair);
    RemoveWhitespaceEmpty(pair);
  }

  // ---------------------------------------------------------------------
  // Worked examples

  lemma CleanPairNoWhitespace(s: string)
    requires NoWhitespace(s)
    ensures CleanPair(s) == ToUpper(s)
  {
    RemoveWhitespaceFixed(s);
  }

  /** The exact key "BTC/USD" is a crypto pair. */
  lemma BtcUsdExample()
    ensures FormatTradingViewSymbol("BTC/USD").symbol == "BINANCE:BTCUSDT"
  {
    CryptoEntry(0);
  }

  /** A cleaned label with one slash loses the slash: "BTC/USD" gives "FX:BTCUSD". */
  lemma ForexSymbolOfParts(base: string, quote: string)
    requires '/' !in base
    ensures ForexSymbol(base + "/" + quote) == "FX:" + base + quote
  {
    assert base + "/" + quote == base + ['/'] + quote;
    ReplaceFirstSplit(base + "/" + quote, '/', "", base, quote);
    assert base + "" + quote == base + quote;
  }

  /** No key of any table, and no listed forex pair, holds a lower-case letter. */
  predicate NoLowerCase(s: string) {
    forall k :: 0 <= k < |s| ==> !IsAsciiLower(s[k])
  }

  lemma CryptoKeysUpper()
    ensures forall i :: 0 <= i < |CryptoPairs| ==> NoLowerCase(CryptoPairs[i].0)
  {
  }

  lemma CommodityKeysUpper()
    ensures forall i :: 0 <= i < |CommoditySymbols| ==> NoLowerCase(CommoditySymbols[i].0)
  {
  }

  lemma IndexKeysUpper()
    ensures forall i :: 0 <= i < |IndexCases| ==> NoLowerCase(IndexCases[i].0)
  {
  }

  lemma ForexPairsUpper()
    ensures forall i :: 0 <= i < |MajorForexPairs| ==> NoLowerCase(MajorForexPairs[i])
  {
  }

  lemma NotAKeyWhenLower(table: seq<(string, string)>, pair: string)
    requires forall i :: 0 <= i < |table| ==> NoLowerCase(table[i].0)
    requires !NoLowerCase(pair)
    ensures pair !in Keys(table)
  {
  }

  /**
   * The tables are matched on the raw label, so a label with a lower-case
   * letter misses all of them: "btc/usd" is formatted as the forex pair
   * "FX:BTCUSD", not as the crypto pair.
   */
  lemma LowerCaseBypassesTables(pair: string)
    requires ':' !in pair && !NoLowerCase(pair)
    ensures FormatTradingViewSymbol(pair).symbol ==
      if '/' in pair then ForexSymbol(CleanPair(pair)) else CleanPair(pair)
  {
    CryptoKeysUpper();
    CommodityKeysUpper();
    IndexKeysUpper();
    ForexPairsUpper();
    NotAKeyWhenLower(CryptoPairs, pair);
    NotAKeyWhenLower(CommoditySymbols, pair);
    NotAKeyWhenLower(IndexCases, pair);
    assert pair !in MajorForexPairs;
    Fallback(pair);
  }

  /** XAU/USD, although a listed forex pair, is a commodity: "TVC:GOLD". */
  lemma GoldExample()
    ensures "XAU/USD" in MajorForexPairs
    ensures FormatTradingViewSymbol("XAU/USD").symbol == "TVC:GOLD"
  {
    CommodityEntry(0);
  }

  lemma SpxExample()
    ensures FormatTradingViewSymbol("S&P 500").symbol == "SPX"
  {
    IndexEntry(0);
  }

  lemma NiftyExample()
    ensures FormatTradingViewSymbol("NIFTY 50").symbol == "NSE:NIFTY50"
  {
    IndexEntry(10);
  }

  // ---------------------------------------------------------------------
  // getTradingPairs

  /** The forex category's filter: drop a pair that starts with "X" and ends with "/USD". */
  predicate OfferedAsForex(pair: string) {
    !StartsWith(pair, "X") || !EndsWith(pair, "/USD")
  }

  /** `pairs.filter(OfferedAsForex)`, keeping the original order. */
  function FilterForex(pairs: seq<string>): (r: seq<string>)
    ensures |r| <= |pairs|
    ensures forall p :: p in r <==> p in pairs && OfferedAsForex(p)
  {
    if pairs == [] then []
    else if OfferedAsForex(pairs[0]) then [pairs[0]] + FilterForex(pairs[1..])
    else FilterForex(pairs[1..])
  }

  /** Filtering a list made of a kept prefix and a rest keeps the prefix in front. */
  lemma {:induction false} FilterForexAppend(a: seq<string>, b: seq<string>)
    ensures FilterForex(a + b) == FilterForex(a) + FilterForex(b)
  {
    if a == [] {
      assert a + b == b;
    } else {
      assert (a + b)[0] == a[0] && (a + b)[1..] == a[1..] + b;
      FilterForexAppend(a[1..], b);
    }
  }

  datatype TradingPairs = TradingPairs(
    forex: seq<string>, crypto: seq<string>, indices: seq<string>, commodities: seq<string>)

  /** `getTradingPairs()`. */
  function GetTradingPairs(): TradingPairs {
    TradingPairs(FilterForex(MajorForexPairs), Keys(CryptoPairs), StockIndices, Keys(CommoditySymbols))
  }

  /** The four "X…/USD" metals leave the forex category; everything else stays, in order. */
  lemma ForexCategory()
    ensures GetTradingPairs().forex == MajorForexPairs[..10] + MajorForexPairs[14..]
  {
    ForexOffers();
    FilterForexShape(MajorForexPairs);
  }

  lemma FilterForexShape(all: seq<string>)
    requires |all| == 19
    requires forall i :: 0 <= i < |all| ==> (OfferedAsForex(all[i]) <==> !(10 <= i < 14))
    ensures FilterForex(all) == all[..10] + all[14..]
  {
    var a, b, c := all[..10], all[10..14], all[14..];
    assert all == a + (b + c);
    assert forall i :: 0 <= i < |a| ==> OfferedAsForex(a[i]) by {
      forall i | 0 <= i < |a| ensures OfferedAsForex(a[i]) { assert a[i] == all[i]; }
    }
    assert forall i :: 0 <= i < |b| ==> !OfferedAsForex(b[i]) by {
      forall i | 0 <= i < |b| ensures !OfferedAsForex(b[i]) { assert b[i] == all[i + 10]; }
    }
    assert forall i :: 0 <= i < |c| ==> OfferedAsForex(c[i]) by {
      forall i | 0 <= i < |c| ensures OfferedAsForex(c[i]) { assert c[i] == all[i + 14]; }
    }
    FilterForexAppend(a, b + c);
    FilterForexAppend(b, c);
    FilterForexKeepsAll(a);
    FilterForexDropsAll(b);
    FilterForexKeepsAll(c);
    assert [] + c == c;
  }

  lemma StartsWithChar(s: string, c: char)
    ensures StartsWith(s, [c]) <==> |s| > 0 && s[0] == c
  {
    if |s| > 0 && s[0] == c {
      assert s[..1] == [c];
    }
  }

  lemma {:induction false} ForexOffers()
    ensures forall i :: 0 <= i < |MajorForexPairs| ==> (OfferedAsForex(MajorForexPairs[i]) <==> !(10 <= i < 14))
  {
    forall i | 0 <= i < |MajorForexPairs|
      ensures OfferedAsForex(MajorForexPairs[i]) <==> !(10 <= i < 14)
    {
      var pair := MajorForexPairs[i];
      StartsWithChar(pair, 'X');
      assert "X" == ['X'];
      if 10 <= i < 14 {
        assert |pair| == 7 && pair[3..] == "/USD";
      }
    }
  }

  lemma {:induction false} FilterForexKeepsAll(pairs: seq<string>)
    requires forall i :: 0 <= i < |pairs| ==> OfferedAsForex(pairs[i])
    ensures FilterForex(pairs) == pairs
  {
    if pairs != [] {
      FilterForexKeepsAll(pairs[1..]);
    }
  }

  lemma {:induction false} FilterForexDropsAll(pairs: seq<string>)
    requires forall i :: 0 <= i < |pairs| ==> !OfferedAsForex(pairs[i])
    ensures FilterForex(pairs) == []
  {
    if pairs != [] {
      FilterForexDropsAll(pairs[1..]);
    }
  }

  /** Every offered pair, in every category, is one the normaliser knows by its own branch. */
  lemma OfferedCryptoAndIndices()
    ensures forall i :: 0 <= i < |GetTradingPairs().crypto| ==>
      FormatTradingViewSymbol(GetTradingPairs().crypto[i]).symbol == CryptoPairs[i].1
    ensures forall i :: 0 <= i < |GetTradingPairs().indices| ==>
      FormatTradingViewSymbol(GetTradingPairs().indices[i]).symbol == IndexCases[i].1
    ensures forall i :: 0 <= i < |GetTradingPairs().commodities| ==>
      FormatTradingViewSymbol(GetTradingPairs().commodities[i]).symbol == CommoditySymbols[i].1
  {
    forall i | 0 <= i < |CryptoPairs| ensures FormatTradingViewSymbol(CryptoPairs[i].0).symbol == CryptoPairs[i].1 {
      CryptoEntry(i);
    }
    StockIndicesAreCases();
    forall i | 0 <= i < |StockIndices| ensures FormatTradingViewSymbol(StockIndices[i]).symbol == IndexCases[i].1 {
      IndexEntry(i);
    }
    forall i | 0 <= i < |CommoditySymbols|
      ensures FormatTradingViewSymbol(CommoditySymbols[i].0).symbol == CommoditySymbols[i].1
    {
      CommodityEntry(i);
    }
  }

  // ---------------------------------------------------------------------
  // Table lookups as written: `CRYPTO_PAIRS[pair]` on a plain object

  /** The members every plain object inherits from `Object.prototype`. */
  const ObjectPrototypeMembers: seq<string> := [
    "constructor", "__defineGetter__", "__defineSetter__", "hasOwnProperty",
    "__lookupGetter__", "__lookupSetter__", "isPrototypeOf", "propertyIsEnumerable",
    "toString", "valueOf", "__proto__", "toLocaleString"
  ]

  /** What `table[key]` evaluates to on an object literal. */
  datatype PropertyValue = OwnValue(text: string) | InheritedMember(name: string) | Undefined

  function PropertyAsWritten(table: seq<(string, string)>, key: string): PropertyValue {
    match Lookup(table, key)
    case Some(v) => OwnValue(v)
    case None => if key in ObjectPrototypeMembers then InheritedMember(key) else Undefined
  }

  /** JavaScript truthiness of a property value (inherited members are functions or objects). */
  predicate Truthy(v: PropertyValue) {
    match v
    case OwnValue(t) => t != ""
    case InheritedMember(_) => true
    case Undefined => false
  }

  /** The `symbol` field as written: a string, or an inherited function or object. */
  datatype SymbolValue = Text(text: string) | NonString(member: string)

  function AsSymbol(v: PropertyValue): SymbolValue {
    match v
    case OwnValue(t) => Text(t)
    case InheritedMember(m) => NonString(m)
    case Undefined => Text("")
  }

  /** `formatTradingViewSymbol` with the table lookups read as plain property accesses. */
  function FormatAsWritten(pair: string): SymbolValue {
    var clean := CleanPair(pair);
    if ':' in clean then Text(clean)
    else if Truthy(PropertyAsWritten(CryptoPairs, pair)) then AsSymbol(PropertyAsWritten(CryptoPairs, pair))
    else if Truthy(PropertyAsWritten(CommoditySymbols, pair)) then AsSymbol(PropertyAsWritten(CommoditySymbols, pair))
    else Text(AfterTables(pair, clean))
  }

  /** Prototype member names start with a lower-case letter or '_'; no colon, no slash. */
  lemma {:induction false} PrototypeMembersShape()
    ensures forall i :: 0 <= i < |ObjectPrototypeMembers| ==>
      |ObjectPrototypeMembers[i]| > 0 && !IsAsciiUpper(ObjectPrototypeMembers[i][0])
    ensures forall i :: 0 <= i < |ObjectPrototypeMembers| ==>
      ':' !in ObjectPrototypeMembers[i] && '/' !in ObjectPrototypeMembers[i]
  {
    forall i | 0 <= i < |ObjectPrototypeMembers|
      ensures ':' !in ObjectPrototypeMembers[i] && '/' !in ObjectPrototypeMembers[i]
    {
      assert forall k :: 0 <= k < |ObjectPrototypeMembers[i]| ==>
        IsAsciiLower(ObjectPrototypeMembers[i][k]) || IsAsciiUpper(ObjectPrototypeMembers[i][k])
        || ObjectPrototypeMembers[i][k] == '_';
    }
  }

  /** Every key and every listed pair starts with a capital letter. */
  lemma KeysStartUpper()
    ensures forall j :: 0 <= j < |CryptoPairs| ==> |CryptoPairs[j].0| > 0 && IsAsciiUpper(CryptoPairs[j].0[0])
    ensures forall j :: 0 <= j < |CommoditySymbols| ==>
      |CommoditySymbols[j].0| > 0 && IsAsciiUpper(CommoditySymbols[j].0[0])
    ensures forall j :: 0 <= j < |MajorForexPairs| ==> |MajorForexPairs[j]| > 0 && IsAsciiUpper(MajorForexPairs[j][0])
    ensures forall j :: 0 <= j < |IndexCases| ==> |IndexCases[j].0| > 0 && IsAsciiUpper(IndexCases[j].0[0])
  {
  }

  lemma PrototypeMemberNotAKey(pair: string)
    requires pair in ObjectPrototypeMembers
    ensures ':' !in pair && '/' !in pair
    ensures pair !in Keys(CryptoPairs) && pair !in Keys(CommoditySymbols)
    ensures pair !in MajorForexPairs && pair !in Keys(IndexCases)
  {
    PrototypeMembersShape();
    KeysStartUpper();
  }

  /** As written, a label such as "constructor" yields an inherited function, not a symbol. */
  lemma PrototypeLabelAsWritten(pair: string)
    requires pair in ObjectPrototypeMembers
    ensures FormatAsWritten(pair) == NonString(pair)
  {
    PrototypeMemberNotAKey(pair);
    CleanPairKeeps(pair, ':');
  }

  /** On every other label the reading as written agrees with the own-key model. */
  lemma AsWrittenAgreesElsewhere(pair: string)
    requires pair !in ObjectPrototypeMembers
    ensures FormatAsWritten(pair) == Text(FormatTradingViewSymbol(pair).symbol)
  {
    TablesWellFormed();
    if Lookup(CryptoPairs, pair).Some? {
      LookupValueNonEmpty(CryptoPairs, pair);
    }
    if Lookup(CommoditySymbols, pair).Some? {
      LookupValueNonEmpty(CommoditySymbols, pair);
    }
  }

  /** With own-key lookups, a prototype member name is an ordinary unknown label. */
  lemma PrototypeLabelCorrected(pair: string)
    requires pair in ObjectPrototypeMembers
    ensures FormatTradingViewSymbol(pair).symbol == CleanPair(pair)
  {
    PrototypeMemberNotAKey(pair);
    Fallback(pair);
  }
}
