/**
 * The signal list `src/components/LiveSignals.tsx`: a single-open accordion
 * whose open item is kept as a number and handed back as a string.
 */
module LiveSignals {
  import opened Wrappers
  import opened JsNumber

  datatype Signal = Signal(pair: string, direction: string, confidence: int, aiModel: string)

  const Signals: seq<Signal> := [
    Signal("EUR/USD", "BUY", 89, "GPT-4 Omni"),
    Signal("GBP/JPY", "SELL", 82, "Claude 3.5 Sonnet")
  ]

  /** `expandedSignal`: `null`, a number, or `NaN` when the value does not parse. */
  datatype Expanded = Collapsed | Open(index: int) | NotANumber

  /** `onValueChange`: the empty value collapses, anything else goes through `parseInt`. */
  function FromValue(value: string): (e: Expanded)
    ensures e == Collapsed <==> value == ""
  {
    if value == "" then Collapsed
    else match ParseInt(value)
      case Some(n) => Open(n)
      case None => NotANumber
  }

  /** `expandedSignal?.toString()`: no value while collapsed. */
  function ToValue(e: Expanded): (v: Option<string>)
    ensures v.None? <==> e == Collapsed
  {
    match e
    case Collapsed => None
    case Open(n) => Some(IntToString(n))
    case NotANumber => Some("NaN")
  }

  /** The value of item `index`: `index.toString()`. */
  function ItemValue(index: nat): string {
    NatToString(index)
  }

  /** Opening an item stores its index and hands the same value back to the accordion. */
  lemma ItemValueRoundTrip(index: nat)
    ensures FromValue(ItemValue(index)) == Open(index)
    ensures ToValue(FromValue(ItemValue(index))) == Some(ItemValue(index))
  {
    ParseNatToString(index);
  }

  /** Any integer survives the trip through its string. */
  lemma NumberRoundTrip(n: int)
    ensures FromValue(IntToString(n)) == Open(n)
  {
    ParseIntToString(n);
  }

  /** An item is open when the accordion's value is the item's value. */
  predicate IsOpen(e: Expanded, index: nat) {
    ToValue(e) == Some(ItemValue(index))
  }

  /** At most one item is open. */
  lemma AtMostOneOpen(e: Expanded, i: nat, j: nat)
    requires IsOpen(e, i) && IsOpen(e, j)
    ensures i == j
  {
    NatToStringInjective(i, j);
  }

  /** The accordion state. */
  class SignalAccordion {
    var expanded: Expanded

    /** The first signal starts open. */
    constructor ()
      ensures expanded == Open(0)
    {
      expanded := Open(0);
    }

    method OnValueChange(value: string)
      modifies this
      ensures expanded == FromValue(value)
    {
      if value == "" {
        expanded := Collapsed;
      } else {
        match ParseInt(value)
        case Some(n) => expanded := Open(n);
        case None => expanded := NotANumber;
      }
    }

    function Value(): Option<string>
      reads this
    {
      ToValue(expanded)
    }
  }

  /** Initially the first signal is open; opening the second closes it; collapsing closes all. */
  method Scenario() returns (first: bool, second: bool, firstAfter: bool, anyAfterCollapse: bool)
    ensures first && second && !firstAfter && !anyAfterCollapse
  {
    var a := new SignalAccordion();
    first := IsOpen(a.expanded, 0);
    a.OnValueChange(ItemValue(1));
    ItemValueRoundTrip(1);
    second := IsOpen(a.expanded, 1);
    firstAfter := IsOpen(a.expanded, 0);
    if firstAfter {
      AtMostOneOpen(a.expanded, 0, 1);
    }
    a.OnValueChange("");
    anyAfterCollapse := IsOpen(a.expanded, 0) || IsOpen(a.expanded, 1);
  }

  /** A buy signal gets the profit badge, every other direction the loss badge. */
  predicate ProfitBadge(s: Signal) {
    s.direction == "BUY"
  }

  lemma SignalBadges()
    ensures ProfitBadge(Signals[0]) && !ProfitBadge(Signals[1])
  {
  }
}
