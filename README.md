# A verified model of the trading front-end's rules

This project models the rule-bearing part of a React trading front-end in Dafny.

At its centre is the symbol and request formatting layer:
- `formatTradingViewSymbol` turns a display label such as "EUR/USD", "BTC/USD" or "S&P 500" into a chart-provider symbol. It uses four constant tables, a `switch` and a fallback.
- The API formatters turn a strategy name, a pair and a timeframe into the fields of the analysis request URL.

Around that layer sit the small, stateful UI rules:
- the chart widget's interval clamp and re-initialise decision;
- the capped strategy selection and the uncapped model selection;
- strategy-card prop resolution;
- the authentication provider and the public-route gate;
- the sidebar's active-link predicate and mobile menu;
- annual pricing;
- the risk card's labels and colours;
- the analysis card's classifiers;
- the single-open signal accordion.

## Layout

Each source file has one module:

| module | file | source |
|---|---|---|
| `TradingSymbols` | `trading.dfy` | `src/utils/trading.ts` |
| `AnalysisApi` | `analysis.dfy` | `src/lib/api/analysis.ts` |
| `ChartWidget` | `widget.dfy` | `src/components/charts/TradingViewWidget.tsx` |
| `StrategySelection` | `strategyselection.dfy` | `src/components/StrategySelection.tsx` |
| `StrategyItem` | `strategyitem.dfy` | `src/components/StrategyItem.tsx` |
| `LiveTradingPage` | `livetrading.dfy` | `src/pages/LiveTrading.tsx` |
| `AiModels` | `aimodels.dfy` | `src/components/AiModelsSelection.tsx` |
| `Auth` | `auth.dfy` | `src/hooks/useAuth.tsx` |
| `PublicRouting` | `publicroute.dfy` | `src/components/PublicRoute.tsx` |
| `Sidebar` | `sidebar.dfy` | `src/components/layout/TradingSidebar.tsx` |
| `Pricing` | `pricing.dfy` | `src/pages/Pricing.tsx` |
| `TradeExecution` | `tradeexecution.dfy` | `src/components/TradeExecution.tsx` |
| `AnalysisDisplay` | `analysisdisplay.dfy` | `src/components/AnalysisDisplay.tsx` |
| `LiveSignals` | `livesignals.dfy` | `src/components/LiveSignals.tsx` |

Four supporting modules hold what several components share:
- `Wrappers`: Option and Result.
- `JsString`: the JavaScript string operations used: `\s`, `toUpperCase`, `replace` of the first occurrence, `includes`, `startsWith`, `indexOf` and UTF-16 `length`.
- `JsNumber`: `Number#toString` and `parseInt`.
- `SelectionRules`: the toggles, which three components copy.

How each kind of source code is modelled:
- **Pure code** (tables, `switch`es, string rewriting) is modelled as functions and lemmas.
- **Component state that handlers update** is modelled as a class with those fields. Its methods carry `modifies` and state the whole new state. These classes are `ChartWidget.Widget`, `StrategySelection.Selection`, `LiveTradingPage.Page`, `AiModels.ModelSelection`, `Auth.AuthProvider`, `Sidebar.MobileMenu`, `Pricing.PricingPage` and `LiveSignals.SignalAccordion`.
- **Local storage** is a `map` field of the provider.

### Where the code and its design text differ

The model follows the code in three places:
- The code has no retry, backoff or fallback endpoint. `fetchTradingAnalysis` builds one URL and posts to it once. Only the URL is modelled.
- A label of nothing but white space gives the empty symbol, not a non-empty one (`TradingSymbols.BlankGivesEmpty`).
- The doc comment of `formatTimeframe` promises that '15m' becomes 'M15'. The code returns 'H1' for every input. See Findings.

## Model

| member | source | states |
|---|---|---|
| TradingSymbols.Lookup | src/utils/trading.ts:72-79 | a table lookup finds a value exactly when the label is one of the table's own keys, and the value found is paired with that key |
| TradingSymbols.LookupEntry | src/utils/trading.ts:11-27 | in a table with distinct keys every key maps to exactly its own value |
| TradingSymbols.FormatTradingViewSymbol | src/utils/trading.ts:62-117 | no input is flagged as having limited timeframes: every return path sets the flag false |
| TradingSymbols.SymbolIsClean | src/utils/trading.ts:64-116 | every produced symbol is free of white space and lower-case letters |
| TradingSymbols.CleanPairKeeps | src/utils/trading.ts:64 | cleaning neither adds nor removes punctuation such as ':' and '/' |
| TradingSymbols.ColonPassesThrough | src/utils/trading.ts:64-69 | a label with a colon comes back cleaned and otherwise unchanged |
| TradingSymbols.PrefixedSymbolIsFixed | src/utils/trading.ts:64-69 | a result that contains ':' is a fixed point of the normaliser |
| TradingSymbols.KeysHaveNoColon | src/utils/trading.ts:2-50 | no table key and no listed pair contains ':', so the colon branch never hides a table entry |
| TradingSymbols.CryptoCommodityDisjoint | src/utils/trading.ts:11-50 | the crypto and commodity tables share no key |
| TradingSymbols.CryptoEntry | src/utils/trading.ts:11-74 | every crypto key maps to its own table symbol |
| TradingSymbols.CommodityEntry | src/utils/trading.ts:40-79 | every commodity key maps to its own table symbol |
| TradingSymbols.BtcUsdExample | src/utils/trading.ts:12-74 | "BTC/USD" gives "BINANCE:BTCUSDT" |
| TradingSymbols.ForexBranch | src/utils/trading.ts:82-87 | a listed pair that passes the guard gives "FX:" plus the cleaned pair without its first slash |
| TradingSymbols.CurrencyPairEntry | src/utils/trading.ts:82-87 | each of the ten currency pairs takes the forex branch |
| TradingSymbols.CurrencyPairSymbol | src/utils/trading.ts:82-87 | each currency pair "AAA/BBB" gives "FX:AAABBB", e.g. "EUR/USD" gives "FX:EURUSD" |
| TradingSymbols.ListedCommoditiesInTable | src/utils/trading.ts:5-50 | the nine commodity entries of the forex list are all commodity keys |
| TradingSymbols.ForexInnerGuardDead | src/utils/trading.ts:77-86 | a listed pair rejected by the inner `X…/USD` guard has already been claimed by the commodity table |
| TradingSymbols.GoldExample | src/utils/trading.ts:72-87 | "XAU/USD" is in the forex list yet gives "TVC:GOLD", because commodities are checked first |
| TradingSymbols.IndexLabelsDisjoint | src/utils/trading.ts:91-105 | index labels are in none of the earlier tables or the forex list |
| TradingSymbols.IndexBranch | src/utils/trading.ts:91-105 | a label that reaches the switch and matches a case gives that case's symbol |
| TradingSymbols.IndexEntry | src/utils/trading.ts:91-105 | every index label gives its own code, e.g. "DAX" gives "GER30" |
| TradingSymbols.SpxExample | src/utils/trading.ts:92 | "S&P 500" gives "SPX" |
| TradingSymbols.NiftyExample | src/utils/trading.ts:102 | "NIFTY 50" gives "NSE:NIFTY50" |
| TradingSymbols.StockIndicesAreCases | src/utils/trading.ts:30-100 | the nine selectable indices are the first nine cases of the switch |
| TradingSymbols.Fallback | src/utils/trading.ts:111-116 | an unknown label with a slash gives "FX:" plus the cleaned label with only its first slash removed; without a slash it gives the cleaned label |
| TradingSymbols.ForexSymbolOfParts | src/utils/trading.ts:85-112 | removing the first slash joins the base and quote: "BASE/QUOTE" gives "FX:BASEQUOTE" |
| TradingSymbols.LowerCaseBypassesTables | src/utils/trading.ts:72-113 | the tables key on the raw label, so a label with a lower-case letter misses every table; "btc/usd" becomes the forex symbol "FX:BTCUSD" |
| TradingSymbols.BlankGivesEmpty | src/utils/trading.ts:64-116 | a label of only white space gives the empty symbol |
| TradingSymbols.EmptyOnlyFromBlank | src/utils/trading.ts:64-116 | the empty symbol comes only from a label of only white space, so any other label gives a non-empty symbol |
| TradingSymbols.FilterForex | src/utils/trading.ts:123 | the forex filter keeps exactly the pairs that do not both start with 'X' and end with "/USD" |
| TradingSymbols.FilterForexAppend | src/utils/trading.ts:123 | the filter keeps order: filtering a concatenation concatenates the filtered parts |
| TradingSymbols.ForexCategory | src/utils/trading.ts:122-123 | the forex category is the forex list in order, minus the four `X…/USD` metals |
| TradingSymbols.OfferedCryptoAndIndices | src/utils/trading.ts:124-127 | every offered crypto, index and commodity label is formatted by its own table entry |
| TradingSymbols.PrototypeLabelAsWritten | src/utils/trading.ts:72-79 | as written, a label such as "constructor" reads an inherited member of the table object and returns it as the symbol |
| TradingSymbols.AsWrittenAgreesElsewhere | src/utils/trading.ts:62-117 | on every other label the code as written agrees with the own-key model |
| TradingSymbols.PrototypeLabelCorrected | src/utils/trading.ts:72-116 | with own-key lookups such a label is unknown and gives its cleaned self |
| AnalysisApi.FormatStrategyForApi | src/lib/api/analysis.ts:7-80 | the code is always one of the ten `TradingStrategy` members |
| AnalysisApi.StrategyNameCode | src/lib/api/analysis.ts:56-76 | each of the ten display names maps to its own code |
| AnalysisApi.UnknownStrategyIsBreakout | src/lib/api/analysis.ts:77-78 | every other name, a code included, maps to "breakout" |
| AnalysisApi.FormatPairForApi | src/lib/api/analysis.ts:144-146 | the formatted pair has the length of the input |
| AnalysisApi.FormatPairSplit | src/lib/api/analysis.ts:144-146 | only the first '/' becomes '_', and both sides are upper-cased |
| AnalysisApi.FormatPairNoSlash | src/lib/api/analysis.ts:144-146 | a pair without a slash is only upper-cased; nothing checks that the pair exists |
| AnalysisApi.FormatPairExample | src/lib/api/analysis.ts:140-146 | "eur/usd" gives "EUR_USD" |
| AnalysisApi.FirstMatch | src/lib/api/analysis.ts:91 | the rewrite finds the leftmost position where digits are followed by a unit letter of either case |
| AnalysisApi.RewriteLeading | src/lib/api/analysis.ts:91-96 | a timeframe that starts with digits and a unit has exactly that prefix replaced and keeps the rest |
| AnalysisApi.RewriteNoMatch | src/lib/api/analysis.ts:91 | a timeframe that has no digits followed by a unit passes through unchanged |
| AnalysisApi.UnitDefaultUnreachable | src/lib/api/analysis.ts:92-95 | the matched unit is always m, h, d or w in some case, so the "H1" default never fires |
| AnalysisApi.UiTimeframesRewrite | src/lib/api/analysis.ts:91-96 | each button label is sent as its API form: "15M" as "M15", "4H" as "H4", "1W" as "W1", and the month "1MO" as "M1O" |
| AnalysisApi.ApiTimeframesUnchanged | src/lib/api/analysis.ts:91 | tokens already in API form ("M15", "H1", "D1", "W1", "M", …) are unchanged |
| AnalysisApi.UiGranularitiesTyped | src/lib/api/analysis.ts:91-96 | every button except the month reaches the API as a member of `Timeframe` |
| AnalysisApi.FormatTimeframeAlwaysH1 | src/lib/api/analysis.ts:117-137 | as written, `formatTimeframe` returns "H1" for every input |
| AnalysisApi.FormatTimeframeCounterexample | src/lib/api/analysis.ts:114-121 | the code as written maps the documented '15m' to "H1", not "M15" |
| AnalysisApi.FormatTimeframeLeading | src/lib/api/analysis.ts:118-136 | as intended, leading digits and a unit letter are translated: m to M+digits, h to H+digits, d to D1, w to W1, M to M |
| AnalysisApi.FormatTimeframeUnrecognised | src/lib/api/analysis.ts:118-119 | a timeframe that does not start with a digit gives "H1" |
| AnalysisApi.FormatTimeframeDocExamples | src/lib/api/analysis.ts:113-115 | as intended, the documented examples hold: '1m' gives 'M1', '15m' 'M15', '1h' 'H1' and '4h' 'H4' |
| AnalysisApi.FormatTimeframeAgreesWithRewrite | src/lib/api/analysis.ts:91-137 | on lower-case units `formatTimeframe` as intended agrees with the inline rewrite |
| AnalysisApi.RequestUrlCount | src/lib/api/analysis.ts:83-98 | the URL ends with the count's decimal string, which parses back to the given count, or to 100 when none is given |
| AnalysisApi.RequestUrlDefaultCount | src/lib/api/analysis.ts:83 | leaving the count out is the same as passing 100 |
| AnalysisApi.RequestUrlStrategy | src/lib/api/analysis.ts:86-98 | the URL starts with the base, the strategy path and one of the ten codes, then "&pair="; no code contains '&', so the query cannot be split early |
| ChartWidget.SafeIntervalUnlimited | src/components/charts/TradingViewWidget.tsx:56-57 | without limited timeframes the interval is unchanged |
| ChartWidget.SafeIntervalLimited | src/components/charts/TradingViewWidget.tsx:59-68 | with limited timeframes the result is "D", "W" or "M": the upper-cased interval when it is one of them, else "D" |
| ChartWidget.SafeIntervalIdempotent | src/components/charts/TradingViewWidget.tsx:56-69 | clamping twice is clamping once |
| ChartWidget.SafeIntervalForSymbol | src/components/charts/TradingViewWidget.tsx:53-57 | since the normaliser never flags a symbol, the chart always gets the interval it was given |
| ChartWidget.OptionsFor | src/components/charts/TradingViewWidget.tsx:183-193 | `allow_symbol_change` is the negation of the limited flag |
| ChartWidget.OptionsAlwaysFree | src/components/charts/TradingViewWidget.tsx:185-193 | so the symbol may always be changed and the interval is passed through |
| ChartWidget.Widget.OnPropsChange | src/components/charts/TradingViewWidget.tsx:144-160 | re-initialises exactly when the formatted symbol or safe interval differs from the refs; then both refs are updated and the render toggle flips; the parent is notified only when limited and the interval was changed, which never happens |
| ChartWidget.Mount | src/components/charts/TradingViewWidget.tsx:30-32 | a fresh chart built with the given interval, or "60" when none is passed, always allows symbol changes, and one mounted without an interval is always initialised |
| ChartWidget.SamePropsTwice | src/components/charts/TradingViewWidget.tsx:146-150 | the same props twice re-initialise at most the first time |
| SelectionRules.Without | src/components/StrategySelection.tsx:24 | `filter` keeps exactly the names other than the removed one |
| SelectionRules.ToggleNoDuplicates | src/components/AiModelsSelection.tsx:10-16 | a toggle keeps the list free of duplicates; it removes a present name and appends an absent one |
| SelectionRules.ToggleTwice | src/pages/LiveTrading.tsx:107-113 | toggling an absent name twice gives back the original list |
| SelectionRules.ToggleRemovesInPlace | src/components/AiModelsSelection.tsx:13 | removal keeps the order of the remaining names |
| SelectionRules.ToggleCappedCases | src/components/StrategySelection.tsx:20-57 | with the cap, the toggle is a no-op exactly for a disabled name; otherwise it removes a selected name or appends an unselected one |
| SelectionRules.ToggleCappedKeeps | src/components/StrategySelection.tsx:20-28 | the capped toggle keeps the list duplicate-free with at most 3 names |
| SelectionRules.FromEmptyCapped | src/components/StrategySelection.tsx:9-28 | from the empty list, every sequence of capped toggles keeps at most 3 distinct names |
| SelectionRules.FromEmptyNoDuplicates | src/pages/LiveTrading.tsx:102-113 | from the empty list, every sequence of model toggles keeps the list duplicate-free |
| SelectionRules.ApplyTogglesFresh | src/components/AiModelsSelection.tsx:10-16 | clicking new names one after another appends them in click order, with no cap |
| StrategySelection.TierPartition | src/components/StrategySelection.tsx:10-98 | the free, pro and max filters split the seven strategies 3 / 2 / 2, with no other tier |
| StrategySelection.StrategyApiCodes | src/components/StrategySelection.tsx:10-18 | each strategy is sent as its own API code; the custom builder has none and is sent as "breakout" |
| StrategySelection.Selection.Toggle | src/components/StrategySelection.tsx:20-28 | the new list is the capped toggle of the old one, and the invariant is kept |
| StrategySelection.Selection.ClickCard | src/components/StrategySelection.tsx:53-58 | a click on a card is the capped toggle of its name: ignored if disabled, otherwise reaches `toggleStrategy` |
| StrategyItem.OrElse | src/components/StrategyItem.tsx:39 | `||` falls back on a missing or empty string |
| StrategyItem.Coalesce | src/components/StrategyItem.tsx:40-43 | `??` falls back only on a missing value |
| StrategyItem.ResolveName | src/components/StrategyItem.tsx:39 | an empty `name` falls through to the strategy's name, then to "" |
| StrategyItem.ResolveNumbers | src/components/StrategyItem.tsx:40-41 | an explicit credits or win rate of 0 is kept; a missing one falls back, finally to 0 |
| StrategyItem.ResolveTexts | src/components/StrategyItem.tsx:42-43 | an explicit empty risk or tier is kept; a missing one falls back, finally to "" |
| StrategyItem.OrElseVersusCoalesce | src/components/StrategyItem.tsx:39-43 | the two operators differ on the empty string |
| StrategyItem.DisabledClickDoesNothing | src/components/StrategyItem.tsx:61 | a disabled card calls no callback |
| StrategyItem.ClickDispatch | src/components/StrategyItem.tsx:45-61 | `onClick` wins; `onSelect` is reached only without `onClick` and with a strategy, and gets the strategy's own name |
| StrategyItem.StylePrecedence | src/components/StrategyItem.tsx:54-61 | the selected style wins over the disabled style, though such a card still ignores clicks |
| StrategyItem.TierVariant | src/components/StrategyItem.tsx:66 | "free" gives secondary, "pro" default, anything else destructive |
| StrategyItem.MissingTierIsDestructive | src/components/StrategyItem.tsx:43-66 | a card with no tier at all shows the destructive variant |
| LiveTradingPage.Page.constructor | src/pages/LiveTrading.tsx:100-104 | the page starts on "1H" and "EUR/USD", with no models, no strategies and no text |
| LiveTradingPage.Page.ToggleModel | src/pages/LiveTrading.tsx:107-113 | the models become the uncapped toggle of the old list; nothing else changes |
| LiveTradingPage.Page.ToggleStrategy | src/pages/LiveTrading.tsx:115-123 | the strategies become the capped toggle of the old list; nothing else changes |
| LiveTradingPage.Page.SelectPair | src/pages/LiveTrading.tsx:185 | the pair is set and nothing else changes |
| LiveTradingPage.Page.SelectTimeframe | src/pages/LiveTrading.tsx:212 | the timeframe is set and nothing else changes |
| LiveTradingPage.Page.SetAnalysisText | src/pages/LiveTrading.tsx:474-475 | any text is stored, whatever its length |
| LiveTradingPage.DisabledCardIgnored | src/pages/LiveTrading.tsx:291-298 | a card looks disabled exactly when it is disabled, which is exactly when a click on it changes nothing |
| LiveTradingPage.OneTimeframeHighlighted | src/pages/LiveTrading.tsx:206-212 | the timeframe buttons are distinct, so only one is highlighted |
| LiveTradingPage.InitialChoicesListed | src/pages/LiveTrading.tsx:34-101 | the initial pair and timeframe are among the listed ones |
| LiveTradingPage.StrategyCounterBounded | src/pages/LiveTrading.tsx:284 | with a capped selection the counter reads "0/3" to "3/3" |
| LiveTradingPage.CounterShowsLength | src/pages/LiveTrading.tsx:478 | the counter starts with the text's length in UTF-16 units, past 2000 too |
| LiveTradingPage.LongTextKept | src/pages/LiveTrading.tsx:474-478 | a text longer than the advertised 2000 is kept in full |
| LiveTradingPage.FreeBadgeOnPageAgrees | src/pages/LiveTrading.tsx:244 | the page's free badge always says "credit"; it agrees with the model picker exactly for a one-credit model |
| AiModels.FreeUnit | src/components/AiModelsSelection.tsx:75 | "credit" exactly when the credits are 1, else "credits" |
| AiModels.MaxUnit | src/components/AiModelsSelection.tsx:151 | "credits" for a number, and nothing exactly for a text |
| AiModels.FreeBadges | src/components/AiModelsSelection.tsx:20-75 | every free badge reads "1 credit" |
| AiModels.MaxBadgeOfText | src/components/AiModelsSelection.tsx:151 | a text price keeps the space and gets no unit |
| AiModels.GrokBadge | src/components/AiModelsSelection.tsx:151 | the "Variable" model's badge is "Variable " |
| AiModels.TierCounts | src/components/AiModelsSelection.tsx:19-130 | the tiers hold 4, 3 and 3 models, and all ten names are distinct |
| AiModels.ModelSelection.ToggleModel | src/components/AiModelsSelection.tsx:10-16 | the selection becomes the uncapped toggle of the old one and stays duplicate-free |
| AiModels.AllModelsSelectable | src/components/AiModelsSelection.tsx:10-35 | all ten models can be selected together, in click order |
| Auth.StoredToken | src/hooks/useAuth.tsx:19 | the stored token is present exactly when the key is in storage, and it is the stored value |
| Auth.UseAuth | src/hooks/useAuth.tsx:72-78 | outside a provider the hook fails with its message; inside one it returns the context |
| Auth.AuthProvider.constructor | src/hooks/useAuth.tsx:14-16 | the first render is not authenticated, has no user and is loading |
| Auth.AuthProvider.Mount | src/hooks/useAuth.tsx:18-50 | after mount the provider is authenticated exactly when it already was or a truthy token is stored; loading ends; storage and user are kept |
| Auth.AuthProvider.ValidateToken | src/hooks/useAuth.tsx:29-50 | a non-empty token authenticates and ends loading; the token is never removed |
| Auth.AuthProvider.Login | src/hooks/useAuth.tsx:52-57 | the token is stored under "authToken" and the session is authenticated, without validation |
| Auth.AuthProvider.Logout | src/hooks/useAuth.tsx:59-63 | the token is removed, authentication is cleared and the user is null |
| Auth.Load | src/hooks/useAuth.tsx:14-27 | after loading, the session is authenticated exactly when a truthy token was saved; the user is null |
| Auth.LoginThenReload | src/hooks/useAuth.tsx:21-57 | login always authenticates, but after a reload the session survives only for a non-empty token |
| Auth.LogoutThenReload | src/hooks/useAuth.tsx:18-63 | after logout and a reload the session is not authenticated |
| Auth.OtherKeysKept | src/hooks/useAuth.tsx:53-60 | login and logout touch no other stored key |
| PublicRouting.PublicRoute | src/components/PublicRoute.tsx:14-31 | spinner exactly while loading; otherwise a redirect to "/" exactly when authenticated, else the children |
| PublicRouting.PublicRouteIn | src/components/PublicRoute.tsx:11 | outside a provider the route fails with the hook's error |
| PublicRouting.FirstView | src/components/PublicRoute.tsx:14-23 | the first render shows the spinner, whatever is stored |
| PublicRouting.ViewAfterLoad | src/components/PublicRoute.tsx:25-31 | once loaded, a saved truthy token redirects home and anything else shows the page |
| Sidebar.IsActive | src/components/layout/TradingSidebar.tsx:36-41 | the root is active only on an exact match; any other path is a prefix match |
| Sidebar.ActiveBelow | src/components/layout/TradingSidebar.tsx:40 | a link is active on every location that extends it, "/helpdesk" as well as "/help/faq" |
| Sidebar.NoRootLink | src/components/layout/TradingSidebar.tsx:20-30 | no menu entry is the root |
| Sidebar.AtMostOneActive | src/components/layout/TradingSidebar.tsx:20-40 | at most one menu entry is highlighted at any location |
| Sidebar.OwnPageActive | src/components/layout/TradingSidebar.tsx:20-40 | each entry is highlighted on its own page |
| Sidebar.DistinctHrefs | src/components/layout/TradingSidebar.tsx:20-30 | the menu has nine entries and no two link to the same page |
| Sidebar.MobileMenu.constructor | src/components/layout/TradingSidebar.tsx:33 | the mobile menu starts closed |
| Sidebar.MobileMenu.ToggleMenu | src/components/layout/TradingSidebar.tsx:118 | the menu button flips the flag |
| Sidebar.MobileMenu.ClickLink | src/components/layout/TradingSidebar.tsx:75 | a link click closes the menu |
| Sidebar.MobileMenu.ClickOverlay | src/components/layout/TradingSidebar.tsx:129-134 | an overlay click, possible only while open, closes the menu |
| Sidebar.OpenAndFollow | src/components/layout/TradingSidebar.tsx:75-118 | opening the menu and following a link leaves it closed, with that link highlighted |
| Pricing.GetPrice | src/pages/Pricing.tsx:124-127 | a free plan is free; monthly price is the base; annual price is ten times the base |
| Pricing.GetSavings | src/pages/Pricing.tsx:129-132 | the saving is two months' price, and 0 for a free plan |
| Pricing.AnnualPlusSavingsIsTwelveMonths | src/pages/Pricing.tsx:124-132 | the annual price plus the saving is twelve monthly prices |
| Pricing.PlanPrices | src/pages/Pricing.tsx:23-110 | the shown prices are 0/69/139 a month and 0/690/1390 a year, with a saving shown for the paid plans |
| Pricing.SavingsOnlyAnnualPaid | src/pages/Pricing.tsx:204 | a saving is shown exactly on annual billing for a paid plan |
| Pricing.OnePopularPlan | src/pages/Pricing.tsx:23-110 | exactly the Pro plan is marked most popular |
| Pricing.PricingPage.SetAnnual | src/pages/Pricing.tsx:151-155 | the switch sets the billing mode |
| Pricing.SwitchToAnnual | src/pages/Pricing.tsx:122-155 | the page starts monthly; after the switch a paid plan costs ten monthly prices |
| TradeExecution.Entries | src/components/TradeExecution.tsx:22-84 | the entries come in declaration order |
| TradeExecution.Words | src/components/TradeExecution.tsx:87 | the split always gives at least one word |
| TradeExecution.LabelIsReference | src/components/TradeExecution.tsx:87-89 | the split-capitalise-join pipeline equals the reference reading: first character upper-cased and a space before every later capital |
| TradeExecution.SpacedLength | src/components/TradeExecution.tsx:87-89 | the reference reading keeps every character and adds one space per capital |
| TradeExecution.LabelLength | src/components/TradeExecution.tsx:87-89 | a label is its name plus one space for every capital after the first character |
| TradeExecution.WordCount | src/components/TradeExecution.tsx:87 | a camelCase name splits into one word more than it has capitals after its first character |
| TradeExecution.TwoWordLabel | src/components/TradeExecution.tsx:87-89 | a lower-case word followed by one capitalised word becomes the two words, the first capitalised, with one space |
| TradeExecution.RiskLabel | src/components/TradeExecution.tsx:22-89 | the captions are "Stop Loss", "Take Profit1", "Take Profit2", "Risk Reward", "Max Loss", "Margin Required" |
| TradeExecution.ColourOf | src/components/TradeExecution.tsx:91-93 | loss colour exactly when the name contains "Loss"; profit colour exactly when it contains "Profit" but not "Loss"; otherwise plain |
| TradeExecution.RiskColour | src/components/TradeExecution.tsx:22-93 | both losses are red, both targets green, the ratio and the margin plain |
| TradeExecution.RowShown | src/components/TradeExecution.tsx:84-95 | each row shows the field's caption with a colon, its value and its colour |
| AnalysisDisplay.SignalTone | src/components/AnalysisDisplay.tsx:27-31 | green exactly for BUY, red exactly for SELL, yellow otherwise |
| AnalysisDisplay.SignalArrow | src/components/AnalysisDisplay.tsx:24-56 | the arrow points up exactly for a bullish signal, down otherwise |
| AnalysisDisplay.HoldLooksBearish | src/components/AnalysisDisplay.tsx:24-56 | a neutral signal gets the yellow badge but the down arrow of a sell |
| AnalysisDisplay.RecommendationTone | src/components/AnalysisDisplay.tsx:33-38 | amber exactly for STRONG_BUY and STRONG_SELL, blue otherwise |
| AnalysisDisplay.RecommendationTextSplit | src/components/AnalysisDisplay.tsx:73 | the first '_' becomes a space and everything around it stays |
| AnalysisDisplay.SecondUnderscoreKept | src/components/AnalysisDisplay.tsx:73 | a later '_' is kept |
| AnalysisDisplay.StrongRecommendationText | src/components/AnalysisDisplay.tsx:73 | "STRONG_BUY" reads "STRONG BUY", and likewise for any side |
| AnalysisDisplay.OrNotAvailable | src/components/AnalysisDisplay.tsx:128-139 | an empty value shows "N/A" and any other value itself |
| AnalysisDisplay.DirectionIcon | src/components/AnalysisDisplay.tsx:121-127 | up arrow exactly for "UP", down arrow exactly for "DOWN", information sign otherwise |
| AnalysisDisplay.VolumeIcon | src/components/AnalysisDisplay.tsx:134-138 | a check exactly for "High", a warning otherwise |
| AnalysisDisplay.MissingDirection | src/components/AnalysisDisplay.tsx:121-128 | a missing direction shows the information sign and "N/A" |
| AnalysisDisplay.BadgeAgreement | src/components/AnalysisDisplay.tsx:27-56 | the badge is green exactly when the arrow is up, and the arrow is down exactly for red or yellow |
| LiveSignals.FromValue | src/components/LiveSignals.tsx:50 | the empty value, and only it, collapses the accordion |
| LiveSignals.ToValue | src/components/LiveSignals.tsx:49 | there is no value exactly while collapsed |
| LiveSignals.ItemValueRoundTrip | src/components/LiveSignals.tsx:49-55 | opening item `index` stores that index and hands the same value back |
| LiveSignals.NumberRoundTrip | src/components/LiveSignals.tsx:50 | `parseInt` reads back any integer's string |
| LiveSignals.AtMostOneOpen | src/components/LiveSignals.tsx:45-55 | at most one item is open |
| LiveSignals.SignalAccordion.constructor | src/components/LiveSignals.tsx:34 | the first signal starts open |
| LiveSignals.SignalAccordion.OnValueChange | src/components/LiveSignals.tsx:50 | the state becomes the parsed value |
| LiveSignals.Scenario | src/components/LiveSignals.tsx:34-55 | the first item starts open; opening the second closes it; collapsing closes all |
| LiveSignals.SignalBadges | src/components/LiveSignals.tsx:7-64 | the buy signal gets the profit badge and the sell signal the loss badge |

## Left out

- The POST in `fetchTradingAnalysis`, its logging and its rethrow are network I/O. Only the URL it posts to is modelled. The code has no retry, so none is modelled.
- `toUpperCase` is modelled on ASCII letters only; other letters are left unchanged.
- Floating-point display is not modelled: `Math.round(confidence*100)`, `toFixed` and the price levels of the analysis card, and `toLocaleString` on the pricing page.
- Pricing.GetPrice: models `Math.floor(basePrice * 10)` on integers only, where the floor is the identity; every plan price is an integer.
- `count` is an integer. A `null` count, a fractional count and the JavaScript rendering of numbers beyond 2^53 are not modelled.
- Auth.AuthProvider.ValidateToken: the token check cannot throw, so the catch branch that removes the token and ends the session is unreachable and not modelled. `user` is never set anywhere in the source, and the model keeps it `None`.
- React's batching of state updates and the asynchronous order of effects are not modelled. Each handler is one method call on the current state.
- ChartWidget: script loading, timers, DOM clearing loops, widget construction and the widget's other options are third-party embedding.
- `src/components/layout/TradingHeader.tsx` (price polling on a timer) and `src/components/LivePriceTracker.tsx` are network I/O and timers and are not part of this model.
- `src/App.tsx` routing depends on the matching rules of the routing library, which are not part of this model.
- `src/pages/Landing.tsx`, `src/pages/Dashboard.tsx` and `src/components/TimeframeSelection.tsx` are static content; only the timeframe labels are modelled, as `AnalysisApi.UiTimeframes`.
- `vite.config.ts` is build configuration.
- Local storage is a map field of the provider; the browser's storage events and quota are not modelled.
- The uploaded image, the favourite flags and the displayed prices on the live trading page carry no rules and are not modelled.

## Findings

| source | as written | input that shows it | evidently intended | confidence | as-written member | corrected member |
|---|---|---|---|---|---|---|
| src/lib/api/analysis.ts:121 | `const [value, unit] = match` binds `value` to the whole match and `unit` to the digit group, so no case of the switch matches and every input gives 'H1' | '15m' gives 'H1' | skip the whole match, so that `value` is the digits and `unit` the unit letter, as the doc comment's '15m' to 'M15' says | not executed | AnalysisApi.FormatTimeframeCounterexample | AnalysisApi.FormatTimeframeDocExamples |
| src/utils/trading.ts:72-79 | `CRYPTO_PAIRS[pair]` and `COMMODITY_SYMBOLS[pair]` read any property of a plain object, inherited ones included | "constructor" yields the `Object` function as the symbol | only the tables' own keys are looked up, so an unknown label falls through to the fallback | not executed | TradingSymbols.PrototypeLabelAsWritten | TradingSymbols.PrototypeLabelCorrected |
