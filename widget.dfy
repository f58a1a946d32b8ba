/**
 * The rules of `src/components/charts/TradingViewWidget.tsx` that do not touch
 * the page: the interval clamp for symbols limited to daily, weekly and
 * monthly bars, the re-initialise/notify decision taken when the props change,
 * and the `allow_symbol_change` option.
 */
module ChartWidget {
  import opened Wrappers
  import opened JsString
  import TradingSymbols

  /** The `interval` prop's default. */
  const DefaultInterval: string := "60"

  /** The intervals allowed for a symbol with limited timeframes. */
  const LimitedIntervals: seq<string> := ["D", "W", "M"]

  /** `safeInterval`. */
  function SafeInterval(interval: string, limited: bool): string {
    if !limited then interval
    else if ToUpper(interval) in LimitedIntervals then ToUpper(interval)
    else "D"
  }

  /** Without limited timeframes the interval passes through unchanged. */
  lemma SafeIntervalUnlimited(interval: string)
    ensures SafeInterval(interval, false) == interval
  {
  }

  /**
   * With limited timeframes the result is always "D", "W" or "M": the
   * upper-cased interval when it is one of them, "D" otherwise.
   */
  lemma SafeIntervalLimited(interval: string)
    ensures SafeInterval(interval, true) in LimitedIntervals
    ensures ToUpper(interval) in LimitedIntervals ==> SafeInterval(interval, true) == ToUpper(interval)
    ensures ToUpper(interval) !in LimitedIntervals ==> SafeInterval(interval, true) == "D"
  {
  }

  lemma LimitedIntervalsUpper()
    ensures forall i :: 0 <= i < |LimitedIntervals| ==> IsUpperFixed(LimitedIntervals[i])
  {
  }

  /** Clamping twice is clamping once. */
  lemma SafeIntervalIdempotent(interval: string, limited: bool)
    ensures SafeInterval(SafeInterval(interval, limited), limited) == SafeInterval(interval, limited)
  {
    if limited {
      var s := SafeInterval(interval, true);
      SafeIntervalLimited(interval);
      LimitedIntervalsUpper();
      ToUpperFixed(s);
    }
  }

  /** "w" is accepted as "W" for a limited symbol. */
  lemma SafeIntervalExample()
    ensures SafeInterval("w", true) == "W" && SafeInterval("60", true) == "D"
  {
    assert ToUpper("w") == "W";
    assert ToUpper("60") == "60";
  }

  /** Since no symbol is limited, the chart always receives the interval it was given. */
  lemma SafeIntervalForSymbol(symbol: string, interval: string)
    ensures SafeInterval(interval, TradingSymbols.FormatTradingViewSymbol(symbol).limitedTimeframes) == interval
  {
  }

  /** The widget options this model keeps: symbol, interval and `allow_symbol_change`. */
  datatype WidgetOptions = WidgetOptions(symbol: string, interval: string, allowSymbolChange: bool)

  /** The options passed to the chart library for the given props. */
  function OptionsFor(symbol: string, interval: string): (o: WidgetOptions)
    ensures o.allowSymbolChange == !TradingSymbols.FormatTradingViewSymbol(symbol).limitedTimeframes
  {
    var f := TradingSymbols.FormatTradingViewSymbol(symbol);
    WidgetOptions(f.symbol, SafeInterval(interval, f.limitedTimeframes), !f.limitedTimeframes)
  }

  /** So the user may always change the symbol, and the interval is never clamped. */
  lemma OptionsAlwaysFree(symbol: string, interval: string)
    ensures OptionsFor(symbol, interval).allowSymbolChange
    ensures OptionsFor(symbol, interval).interval == interval
  {
  }

  /** The widget's refs and its re-render toggle. */
  class Widget {
    var prevSymbol: string
    var prevInterval: string
    var widgetInitialized: bool

    constructor ()
      ensures prevSymbol == "" && prevInterval == "" && !widgetInitialized
    {
      prevSymbol := "";
      prevInterval := "";
      widgetInitialized := false;
    }

    /**
     * The change effect for the props `symbol` and `interval`; `hasCallback`
     * says whether `onTimeframeChange` was given. Returns whether the widget
     * is re-initialised and the interval the parent is notified of, if any.
     */
    method OnPropsChange(symbol: string, interval: string, hasCallback: bool)
      returns (reinitialise: bool, notified: Option<string>)
      modifies this
      ensures var f := TradingSymbols.FormatTradingViewSymbol(symbol);
        var safe := SafeInterval(interval, f.limitedTimeframes);
        && reinitialise == (f.symbol != old(prevSymbol) || safe != old(prevInterval))
        && prevSymbol == f.symbol && prevInterval == safe
        && widgetInitialized == (if reinitialise then !old(widgetInitialized) else old(widgetInitialized))
        && notified == (if reinitialise && f.limitedTimeframes && safe != interval && hasCallback
                        then Some(safe) else None)
      ensures notified == None
    {
      var f := TradingSymbols.FormatTradingViewSymbol(symbol);
      var safe := SafeInterval(interval, f.limitedTimeframes);
      reinitialise := f.symbol != prevSymbol || safe != prevInterval;
      notified := None;
      if reinitialise {
        prevSymbol := f.symbol;
        prevInterval := safe;
        if f.limitedTimeframes && safe != interval && hasCallback {
          notified := Some(safe);
        }
        widgetInitialized := !widgetInitialized;
      }
    }
  }

  /**
   * The first props a fresh chart receives; `None` is an `interval` prop that
   * was not passed, which falls back to the hourly default. Returns whether
   * the widget is initialised and the options it would be built with.
   */
  method Mount(symbol: string, interval: Option<string>) returns (reinitialise: bool, options: WidgetOptions)
    ensures options.interval == (if interval.Some? then interval.value else "60")
    ensures options.allowSymbolChange
    ensures interval.None? ==> reinitialise
  {
    var w := new Widget();
    var given := interval.GetOr(DefaultInterval);
    var n;
    reinitialise, n := w.OnPropsChange(symbol, given, false);
    options := OptionsFor(symbol, given);
    OptionsAlwaysFree(symbol, given);
  }

  /** The same props twice in a row re-initialise only the first time. */
  method SamePropsTwice(symbol: string, interval: string) returns (first: bool, second: bool)
    ensures !second
    ensures first == (TradingSymbols.FormatTradingViewSymbol(symbol).symbol != "" || interval != "")
  {
    var w := new Widget();
    var n1, n2;
    first, n1 := w.OnPropsChange(symbol, interval, true);
    second, n2 := w.OnPropsChange(symbol, interval, true);
  }
}
