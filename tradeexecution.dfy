/**
 * The risk-management card of `src/components/TradeExecution.tsx`: each
 * field name is split before its capitals, every word capitalised, the
 * words joined by spaces, and the value coloured by what the name mentions.
 */
module TradeExecution {
  import opened JsString

  /** The field names of the risk-management record, in declaration order. */
  const RiskKeys: seq<string> := ["stopLoss", "takeProfit1", "takeProfit2", "riskReward", "maxLoss", "marginRequired"]

  datatype RiskManagement = RiskManagement(
    stopLoss: string, takeProfit1: string, takeProfit2: string,
    riskReward: string, maxLoss: string, marginRequired: string)

  /** `Object.entries(risk)`: the fields in declaration order. */
  function Entries(risk: RiskManagement): (e: seq<(string, string)>)
    ensures |e| == |RiskKeys| && forall i :: 0 <= i < |e| ==> e[i].0 == RiskKeys[i]
  {
    [("stopLoss", risk.stopLoss), ("takeProfit1", risk.takeProfit1), ("takeProfit2", risk.takeProfit2),
     ("riskReward", risk.riskReward), ("maxLoss", risk.maxLoss), ("marginRequired", risk.marginRequired)]
  }

  /** The index after the first word: the next capital after the first character, or the end. */
  function NextBreak(s: string, from: nat): (j: nat)
    requires 1 <= from <= |s|
    ensures from <= j <= |s|
    ensures forall k :: from <= k < j ==> !IsAsciiUpper(s[k])
    ensures j < |s| ==> IsAsciiUpper(s[j])
    decreases |s| - from
  {
    if from == |s| || IsAsciiUpper(s[from]) then from else NextBreak(s, from + 1)
  }

  /** `s.split(/(?=[A-Z])/)`: a cut before every capital except one in first position. */
  function Words(s: string): (w: seq<string>)
    ensures |w| >= 1
    decreases |s|
  {
    if s == [] then [""]
    else
      var j := NextBreak(s, 1);
      if j == |s| then [s] else [s[..j]] + Words(s[j..])
  }

  /** `word.charAt(0).toUpperCase() + word.slice(1)`. */
  function Capitalise(w: string): (c: string)
    ensures |c| == |w|
  {
    if w == [] then [] else [UpperChar(w[0])] + w[1..]
  }

  /** `.join(' ')`. */
  function Join(ws: seq<string>): string {
    if |ws| == 0 then ""
    else if |ws| == 1 then ws[0]
    else ws[0] + " " + Join(ws[1..])
  }

  function CapitaliseAll(ws: seq<string>): (r: seq<string>)
    ensures |r| == |ws|
    ensures forall i :: 0 <= i < |ws| ==> r[i] == Capitalise(ws[i])
  {
    seq(|ws|, i requires 0 <= i < |ws| => Capitalise(ws[i]))
  }

  /** The label shown for a field name (without its trailing colon). */
  function Label(key: string): string {
    Join(CapitaliseAll(Words(key)))
  }

  /** The reference reading, one character at a time: a space before every later capital. */
  function Spaced(t: string): string {
    if t == [] then [] else (if IsAsciiUpper(t[0]) then [' ', t[0]] else [t[0]]) + Spaced(t[1..])
  }

  function LabelReference(key: string): string {
    if key == [] then [] else [UpperChar(key[0])] + Spaced(key[1..])
  }

  lemma {:induction false} SpacedNoCapitals(t: string)
    requires forall k :: 0 <= k < |t| ==> !IsAsciiUpper(t[k])
    ensures Spaced(t) == t
  {
    if t != [] {
      SpacedNoCapitals(t[1..]);
    }
  }

  lemma {:induction false} SpacedConcat(a: string, b: string)
    ensures Spaced(a + b) == Spaced(a) + Spaced(b)
  {
    if a != [] {
      assert (a + b)[1..] == a[1..] + b;
      SpacedConcat(a[1..], b);
    } else {
      assert a + b == b;
    }
  }

  lemma JoinCons(w: string, ws: seq<string>)
    requires |ws| >= 1
    ensures Join([w] + ws) == w + " " + Join(ws)
  {
    assert ([w] + ws)[1..] == ws;
  }

  lemma CapitaliseAllCons(w: string, ws: seq<string>)
    ensures CapitaliseAll([w] + ws) == [Capitalise(w)] + CapitaliseAll(ws)
  {
    var l, r := CapitaliseAll([w] + ws), [Capitalise(w)] + CapitaliseAll(ws);
    assert |l| == |r|;
    forall i | 0 <= i < |l| ensures l[i] == r[i] {
      if i > 0 { assert ([w] + ws)[i] == ws[i - 1]; }
    }
  }

  lemma LabelStep(key: string)
    requires key != [] && NextBreak(key, 1) < |key|
    ensures var j := NextBreak(key, 1);
      Label(key) == Capitalise(key[..j]) + " " + Label(key[j..])
  {
    var j := NextBreak(key, 1);
    var rest := Words(key[j..]);
    assert Words(key) == [key[..j]] + rest;
    CapitaliseAllCons(key[..j], rest);
    JoinCons(Capitalise(key[..j]), CapitaliseAll(rest));
  }

  lemma SpacedCapitalHead(t: string)
    requires t != [] && IsAsciiUpper(t[0])
    ensures Spaced(t) == " " + LabelReference(t)
  {
    assert UpperChar(t[0]) == t[0];
  }

  lemma ReferenceAt(key: string, j: nat)
    requires 1 <= j < |key| && IsAsciiUpper(key[j])
    requires forall k :: 1 <= k < j ==> !IsAsciiUpper(key[k])
    ensures LabelReference(key) == Capitalise(key[..j]) + " " + LabelReference(key[j..])
  {
    var mid, rest := key[1..j], key[j..];
    var u := [UpperChar(key[0])];
    assert key[1..] == mid + rest;
    calc {
      LabelReference(key);
      u + Spaced(mid + rest);
      { SpacedConcat(mid, rest); }
      u + (Spaced(mid) + Spaced(rest));
      { SpacedNoCapitals(mid); SpacedCapitalHead(rest); }
      u + (mid + (" " + LabelReference(rest)));
      { assert Capitalise(key[..j]) == u + mid; }
      Capitalise(key[..j]) + " " + LabelReference(rest);
    }
  }

  lemma ReferenceStep(key: string)
    requires key != [] && NextBreak(key, 1) < |key|
    ensures var j := NextBreak(key, 1);
      LabelReference(key) == Capitalise(key[..j]) + " " + LabelReference(key[j..])
  {
    ReferenceAt(key, NextBreak(key, 1));
  }

  /** The split-capitalise-join pipeline agrees with the reference reading. */
  lemma {:induction false} LabelIsReference(key: string)
    ensures Label(key) == LabelReference(key)
    decreases |key|
  {
    if key != [] {
      var j := NextBreak(key, 1);
      if j == |key| {
        SpacedNoCapitals(key[1..]);
        assert Words(key) == [key];
      } else {
        LabelIsReference(key[j..]);
        LabelStep(key);
        ReferenceStep(key);
      }
    }
  }

  /** The number of capitals in a string. */
  function Capitals(t: string): nat {
    if t == [] then 0 else (if IsAsciiUpper(t[0]) then 1 else 0) + Capitals(t[1..])
  }

  /** Every character survives, with one space added before each capital. */
  lemma {:induction false} SpacedLength(t: string)
    ensures |Spaced(t)| == |t| + Capitals(t)
  {
    if t != [] {
      SpacedLength(t[1..]);
    }
  }

  /** A label is its name plus one space for every capital after the first character. */
  lemma LabelLength(key: string)
    requires key != []
    ensures |Label(key)| == |key| + Capitals(key[1..])
  {
    LabelIsReference(key);
    SpacedLength(key[1..]);
  }

  /** Counting capitals splits over concatenation. */
  lemma {:induction false} CapitalsConcat(a: string, b: string)
    ensures Capitals(a + b) == Capitals(a) + Capitals(b)
  {
    if a == [] {
      assert a + b == b;
    } else {
      assert (a + b)[0] == a[0] && (a + b)[1..] == a[1..] + b;
      CapitalsConcat(a[1..], b);
    }
  }

  /** A string without capitals counts none. */
  lemma {:induction false} NoCapitals(t: string)
    requires forall k :: 0 <= k < |t| ==> !IsAsciiUpper(t[k])
    ensures Capitals(t) == 0
  {
    if t != [] {
      NoCapitals(t[1..]);
    }
  }

  /** A camelCase name splits into one word more than it has capitals after its first character. */
  lemma {:induction false} WordCount(key: string)
    requires key != []
    ensures |Words(key)| == 1 + Capitals(key[1..])
    decreases |key|
  {
    var j := NextBreak(key, 1);
    assert key[1..] == key[1..j] + key[j..];
    CapitalsConcat(key[1..j], key[j..]);
    NoCapitals(key[1..j]);
    if j < |key| {
      var rest := key[j..];
      assert rest[1..] == key[j + 1..];
      WordCount(rest);
    }
  }

  /** A name made of a lower-case word and one capitalised word. */
  lemma TwoWordLabel(key: string, a: string, b: string)
    requires key == a + b && a != [] && b != [] && IsAsciiUpper(b[0])
    requires forall k :: 0 <= k < |a| ==> !IsAsciiUpper(a[k])
    requires forall k :: 1 <= k < |b| ==> !IsAsciiUpper(b[k])
    ensures Label(key) == Capitalise(a) + " " + b
  {
    LabelIsReference(key);
    assert key[..|a|] == a && key[|a|..] == b;
    assert forall k :: 1 <= k < |a| ==> key[k] == a[k];
    ReferenceAt(key, |a|);
    SpacedNoCapitals(b[1..]);
    assert UpperChar(b[0]) == b[0];
    assert LabelReference(b) == [b[0]] + b[1..] == b;
  }

  /** The card's captions, in field order. */
  const RiskLabels: seq<string> := ["Stop Loss", "Take Profit1", "Take Profit2", "Risk Reward", "Max Loss", "Margin Required"]

  lemma StopLossCaption(key: string)
    requires key == "stopLoss"
    ensures Label(key) == "Stop Loss"
  {
    TwoWordLabel(key, "stop", "Loss");
  }

  lemma TakeProfit1Caption(key: string)
    requires key == "takeProfit1"
    ensures Label(key) == "Take Profit1"
  {
    TwoWordLabel(key, "take", "Profit1");
  }

  lemma TakeProfit2Caption(key: string)
    requires key == "takeProfit2"
    ensures Label(key) == "Take Profit2"
  {
    TwoWordLabel(key, "take", "Profit2");
  }

  lemma RiskRewardCaption(key: string)
    requires key == "riskReward"
    ensures Label(key) == "Risk Reward"
  {
    TwoWordLabel(key, "risk", "Reward");
  }

  lemma MaxLossCaption(key: string)
    requires key == "maxLoss"
    ensures Label(key) == "Max Loss"
  {
    TwoWordLabel(key, "max", "Loss");
  }

  lemma MarginRequiredCaption(key: string)
    requires key == "marginRequired"
    ensures Label(key) == "Margin Required"
  {
    TwoWordLabel(key, "margin", "Required");
  }

  /** Each field name becomes its caption: two words, the first capitalised. */
  lemma RiskLabel(i: nat)
    requires i < |RiskKeys|
    ensures Label(RiskKeys[i]) == RiskLabels[i]
  {
    if i == 0 {
      StopLossCaption(RiskKeys[i]);
    } else if i == 1 {
      TakeProfit1Caption(RiskKeys[i]);
    } else if i == 2 {
      TakeProfit2Caption(RiskKeys[i]);
    } else if i == 3 {
      RiskRewardCaption(RiskKeys[i]);
    } else if i == 4 {
      MaxLossCaption(RiskKeys[i]);
    } else {
      MarginRequiredCaption(RiskKeys[i]);
    }
  }

  datatype ValueColour = LossColour | ProfitColour | PlainColour

  /** "Loss" in the name wins over "Profit"; anything else is plain. */
  function ColourOf(key: string): (c: ValueColour)
    ensures c == LossColour <==> Includes(key, "Loss")
    ensures c == ProfitColour <==> !Includes(key, "Loss") && Includes(key, "Profit")
  {
    if Includes(key, "Loss") then LossColour
    else if Includes(key, "Profit") then ProfitColour
    else PlainColour
  }

  /** A pattern can only occur where its first character does. */
  lemma NeedsFirstChar(s: string, p: string)
    requires p != []
    ensures Includes(s, p) ==> p[0] in s
  {
    if Includes(s, p) {
      var k := IncludesWitness(s, p);
      assert s[k] == p[0];
    }
  }

  /** The colours in field order: both losses red, both targets green, the rest plain. */
  const RiskColours: seq<ValueColour> := [LossColour, ProfitColour, ProfitColour, PlainColour, LossColour, PlainColour]

  lemma StopLossColour(key: string)
    requires key == "stopLoss"
    ensures ColourOf(key) == LossColour
  {
    IncludesAt(key, "Loss", 4);
  }

  lemma MaxLossColour(key: string)
    requires key == "maxLoss"
    ensures ColourOf(key) == LossColour
  {
    IncludesAt(key, "Loss", 3);
  }

  lemma TakeProfit1Colour(key: string)
    requires key == "takeProfit1"
    ensures ColourOf(key) == ProfitColour
  {
    NeedsFirstChar(key, "Loss");
    IncludesAt(key, "Profit", 4);
  }

  lemma TakeProfit2Colour(key: string)
    requires key == "takeProfit2"
    ensures ColourOf(key) == ProfitColour
  {
    NeedsFirstChar(key, "Loss");
    IncludesAt(key, "Profit", 4);
  }

  lemma RiskRewardColour(key: string)
    requires key == "riskReward"
    ensures ColourOf(key) == PlainColour
  {
    NeedsFirstChar(key, "Loss");
    NeedsFirstChar(key, "Profit");
  }

  lemma MarginRequiredColour(key: string)
    requires key == "marginRequired"
    ensures ColourOf(key) == PlainColour
  {
    NeedsFirstChar(key, "Loss");
    NeedsFirstChar(key, "Profit");
  }

  lemma RiskColour(i: nat)
    requires i < |RiskKeys|
    ensures ColourOf(RiskKeys[i]) == RiskColours[i]
  {
    if i == 0 {
      StopLossColour(RiskKeys[i]);
    } else if i == 1 {
      TakeProfit1Colour(RiskKeys[i]);
    } else if i == 2 {
      TakeProfit2Colour(RiskKeys[i]);
    } else if i == 3 {
      RiskRewardColour(RiskKeys[i]);
    } else if i == 4 {
      MaxLossColour(RiskKeys[i]);
    } else {
      MarginRequiredColour(RiskKeys[i]);
    }
  }

  /** One row of the card: the label with its colon, the value, and its colour. */
  datatype RiskRow = RiskRow(caption: string, value: string, colour: ValueColour)

  function Rows(risk: RiskManagement): (rows: seq<RiskRow>)
    ensures |rows| == |RiskKeys|
    ensures forall i :: 0 <= i < |rows| ==>
      rows[i] == RiskRow(Label(RiskKeys[i]) + ":", Entries(risk)[i].1, ColourOf(RiskKeys[i]))
  {
    var e := Entries(risk);
    seq(|e|, i requires 0 <= i < |e| => RiskRow(Label(e[i].0) + ":", e[i].1, ColourOf(e[i].0)))
  }

  /** What the card shows for each field: its caption with a colon, its value, its colour. */
  lemma RowShown(risk: RiskManagement, i: nat)
    requires i < |RiskKeys|
    ensures Rows(risk)[i] == RiskRow(RiskLabels[i] + ":", Entries(risk)[i].1, RiskColours[i])
  {
    RiskLabel(i);
    RiskColour(i);
  }
}
