/**
 * The analysis result card `src/components/AnalysisDisplay.tsx`: badge
 * colours, arrows and texts chosen from the analysis' string fields.
 */
module AnalysisDisplay {
  import opened JsString

  datatype Tone = Green | Red | Yellow | Amber | Blue

  datatype Icon = ArrowUp | ArrowDown | InfoIcon | CheckIcon | WarningIcon

  /** `isBullish`: exactly the signal "BUY". */
  predicate IsBullish(signal: string) {
    signal == "BUY"
  }

  /** `getSignalVariant()`: green for BUY, red for SELL, yellow for anything else. */
  function SignalTone(signal: string): (t: Tone)
    ensures t == Green <==> signal == "BUY"
    ensures t == Red <==> signal == "SELL"
    ensures t == Yellow <==> signal != "BUY" && signal != "SELL"
  {
    if signal == "BUY" then Green
    else if signal == "SELL" then Red
    else Yellow
  }

  /** The arrow on the signal badge: up when bullish, down in every other case. */
  function SignalArrow(signal: string): (i: Icon)
    ensures i == ArrowUp <==> IsBullish(signal)
    ensures i != ArrowUp ==> i == ArrowDown
  {
    if IsBullish(signal) then ArrowUp else ArrowDown
  }

  /** A neutral signal gets the yellow badge, and still the downward arrow of a sell. */
  lemma HoldLooksBearish(signal: string)
    requires signal != "BUY" && signal != "SELL"
    ensures SignalTone(signal) == Yellow && SignalArrow(signal) == SignalArrow("SELL") == ArrowDown
  {
  }

  /** `getRecommendationVariant()`: amber for the two strong recommendations, blue otherwise. */
  function RecommendationTone(recommendation: string): (t: Tone)
    ensures t == Amber <==> recommendation in ["STRONG_BUY", "STRONG_SELL"]
    ensures t != Amber ==> t == Blue
  {
    if recommendation == "STRONG_BUY" || recommendation == "STRONG_SELL" then Amber else Blue
  }

  /** `recommendation.replace('_', ' ')`: only the first underscore becomes a space. */
  function RecommendationText(recommendation: string): (r: string)
    ensures |r| == |recommendation|
  {
    ReplaceFirst(recommendation, '_', " ")
  }

  /** The text keeps everything around the first underscore in place. */
  lemma RecommendationTextSplit(pre: string, post: string)
    requires '_' !in pre
    ensures RecommendationText(pre + "_" + post) == pre + " " + post
  {
    ReplaceFirstSplit(pre + "_" + post, '_', " ", pre, post);
  }

  /** A later underscore stays: "A_B_C" reads "A B_C". */
  lemma SecondUnderscoreKept(pre: string, mid: string, post: string)
    requires '_' !in pre
    ensures RecommendationText(pre + "_" + mid + "_" + post) == pre + " " + mid + "_" + post
  {
    assert pre + "_" + mid + "_" + post == pre + "_" + (mid + "_" + post);
    RecommendationTextSplit(pre, mid + "_" + post);
  }

  /** "STRONG_BUY" reads "STRONG BUY", "STRONG_SELL" reads "STRONG SELL", whatever follows the underscore. */
  lemma StrongRecommendationText(side: string)
    ensures RecommendationText("STRONG_" + side) == "STRONG " + side
  {
    assert "STRONG_" + side == "STRONG" + "_" + side;
    assert "STRONG" + " " + side == "STRONG " + side;
    RecommendationTextSplit("STRONG", side);
  }

  /** `value || 'N/A'`: an empty string shows "N/A". */
  function OrNotAvailable(value: string): (shown: string)
    ensures shown != ""
    ensures value != "" ==> shown == value
  {
    if value == "" then "N/A" else value
  }

  /** The breakout icon: up for "UP", down for "DOWN", an information sign otherwise. */
  function DirectionIcon(direction: string): (i: Icon)
    ensures i == ArrowUp <==> direction == "UP"
    ensures i == ArrowDown <==> direction == "DOWN"
    ensures i == InfoIcon <==> direction != "UP" && direction != "DOWN"
  {
    if direction == "UP" then ArrowUp
    else if direction == "DOWN" then ArrowDown
    else InfoIcon
  }

  /** The volume icon: a check for "High", a warning for anything else, "Low" included. */
  function VolumeIcon(volume: string): (i: Icon)
    ensures i == CheckIcon <==> volume == "High"
    ensures i != CheckIcon ==> i == WarningIcon
  {
    if volume == "High" then CheckIcon else WarningIcon
  }

  /** The string fields of an analysis the card reads. */
  datatype Analysis = Analysis(signal: string, recommendation: string, breakoutDirection: string, volumeConfirmation: string)

  /** What the card shows for those fields. */
  datatype Card = Card(
    signalTone: Tone, signalArrow: Icon, signalText: string,
    recommendationTone: Tone, recommendationText: string,
    directionIcon: Icon, directionText: string, volumeIcon: Icon, volumeText: string)

  function Render(a: Analysis): Card {
    Card(SignalTone(a.signal), SignalArrow(a.signal), a.signal,
      RecommendationTone(a.recommendation), RecommendationText(a.recommendation),
      DirectionIcon(a.breakoutDirection), OrNotAvailable(a.breakoutDirection),
      VolumeIcon(a.volumeConfirmation), OrNotAvailable(a.volumeConfirmation))
  }

  /** A missing breakout direction shows the information sign and "N/A". */
  lemma MissingDirection(a: Analysis)
    requires a.breakoutDirection == ""
    ensures Render(a).directionIcon == InfoIcon && Render(a).directionText == "N/A"
  {
  }

  /** The signal badge's colour and arrow agree only for BUY and SELL. */
  lemma BadgeAgreement(a: Analysis)
    ensures (Render(a).signalTone == Green) <==> (Render(a).signalArrow == ArrowUp)
    ensures Render(a).signalArrow == ArrowDown <==> Render(a).signalTone in {Red, Yellow}
  {
  }
}
