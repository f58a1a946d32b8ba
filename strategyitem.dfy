/**
 * `src/components/StrategyItem.tsx`: how a strategy card resolves its props
 * (`||` for the name, `??` for the rest), which callback a click reaches, its
 * style, and the badge variant for its tier.
 */
module StrategyItem {
  import opened Wrappers

  /** The old-style `strategy` prop. */
  datatype StrategyData = StrategyData(name: string, credits: int, winRate: int, risk: string, tier: string)

  /**
   * The props; `None` stands for a prop that was not passed, and the two
   * booleans say whether `onSelect` and `onClick` were passed.
   */
  datatype ItemProps = ItemProps(
    strategy: Option<StrategyData>,
    isSelected: Option<bool>, isDisabled: Option<bool>, hasOnSelect: bool,
    name: Option<string>, credits: Option<int>, winRate: Option<int>,
    risk: Option<string>, tier: Option<string>, hasOnClick: bool)

  /** JavaScript `a || b` on strings: `b` when `a` is missing or empty. */
  function OrElse(a: Option<string>, b: string): (r: string)
    ensures r == b <== a.None? || a == Some("")
    ensures a.Some? && a.value != "" ==> r == a.value
  {
    if a.Some? && a.value != "" then a.value else b
  }

  /** JavaScript `a ?? b`: `b` only when `a` is missing. */
  function Coalesce<T>(a: Option<T>, b: T): (r: T)
    ensures a.Some? ==> r == a.value
    ensures a.None? ==> r == b
  {
    a.GetOr(b)
  }

  /** The values the card displays. */
  datatype Resolved = Resolved(name: string, credits: int, winRate: int, risk: string, tier: string)

  function StrategyName(s: Option<StrategyData>): Option<string> {
    if s.Some? then Some(s.value.name) else None
  }

  function Resolve(p: ItemProps): Resolved {
    Resolved(
      OrElse(p.name, OrElse(StrategyName(p.strategy), "")),
      Coalesce(p.credits, if p.strategy.Some? then p.strategy.value.credits else 0),
      Coalesce(p.winRate, if p.strategy.Some? then p.strategy.value.winRate else 0),
      Coalesce(p.risk, if p.strategy.Some? then p.strategy.value.risk else ""),
      Coalesce(p.tier, if p.strategy.Some? then p.strategy.value.tier else ""))
  }

  /** An empty `name` falls through to the strategy's name, and then to "". */
  lemma ResolveName(p: ItemProps)
    ensures p.name.Some? && p.name.value != "" ==> Resolve(p).name == p.name.value
    ensures (p.name.None? || p.name == Some("")) && p.strategy.Some? ==> Resolve(p).name == p.strategy.value.name
    ensures (p.name.None? || p.name == Some("")) && p.strategy.None? ==> Resolve(p).name == ""
  {
  }

  /** A credits or win rate of 0 is kept; only a missing one falls back, finally to 0. */
  lemma ResolveNumbers(p: ItemProps)
    ensures p.credits.Some? ==> Resolve(p).credits == p.credits.value
    ensures p.credits.None? ==> Resolve(p).credits == if p.strategy.Some? then p.strategy.value.credits else 0
    ensures p.winRate.Some? ==> Resolve(p).winRate == p.winRate.value
    ensures p.winRate.None? ==> Resolve(p).winRate == if p.strategy.Some? then p.strategy.value.winRate else 0
  {
  }

  /** Risk and tier: an empty string is kept, a missing one falls back, finally to "". */
  lemma ResolveTexts(p: ItemProps)
    ensures p.risk.Some? ==> Resolve(p).risk == p.risk.value
    ensures p.risk.None? ==> Resolve(p).risk == if p.strategy.Some? then p.strategy.value.risk else ""
    ensures p.tier.Some? ==> Resolve(p).tier == p.tier.value
    ensures p.tier.None? ==> Resolve(p).tier == if p.strategy.Some? then p.strategy.value.tier else ""
  {
  }

  /** The two operators part ways on the empty string. */
  lemma OrElseVersusCoalesce(fallback: string)
    requires fallback != ""
    ensures OrElse(Some(""), fallback) == fallback
    ensures Coalesce(Some(""), fallback) == ""
  {
  }

  /** What a click on the card does. */
  datatype ClickAction = CallOnClick | CallOnSelect(name: string) | NoCallback

  /** `handleClick`: `onClick` first, else `onSelect(strategy.name)` when both are given. */
  function HandleClick(p: ItemProps): ClickAction {
    if p.hasOnClick then CallOnClick
    else if p.hasOnSelect && p.strategy.Some? then CallOnSelect(p.strategy.value.name)
    else NoCallback
  }

  /** The card's `onClick`: `!isDisabled && handleClick()`. */
  function OnCardClick(p: ItemProps): ClickAction {
    if Coalesce(p.isDisabled, false) then NoCallback else HandleClick(p)
  }

  /** A disabled card calls nothing. */
  lemma DisabledClickDoesNothing(p: ItemProps)
    requires p.isDisabled == Some(true)
    ensures OnCardClick(p) == NoCallback
  {
  }

  /**
   * An enabled card calls `onClick` when given; `onSelect` is reached only
   * without `onClick` and with a `strategy`, and it receives the strategy's
   * own name rather than the resolved one.
   */
  lemma ClickDispatch(p: ItemProps)
    requires p.isDisabled != Some(true)
    ensures p.hasOnClick ==> OnCardClick(p) == CallOnClick
    ensures OnCardClick(p).CallOnSelect? <==> !p.hasOnClick && p.hasOnSelect && p.strategy.Some?
    ensures OnCardClick(p).CallOnSelect? ==> OnCardClick(p).name == p.strategy.value.name
  {
  }

  datatype CardStyle = SelectedStyle | DisabledStyle | NormalStyle

  function Style(p: ItemProps): CardStyle {
    if Coalesce(p.isSelected, false) then SelectedStyle
    else if Coalesce(p.isDisabled, false) then DisabledStyle
    else NormalStyle
  }

  /**
   * The selected style wins over the disabled one, though such a card still
   * ignores clicks; with neither flag passed the card is normal.
   */
  lemma StylePrecedence(p: ItemProps)
    ensures p.isSelected == Some(true) ==> Style(p) == SelectedStyle
    ensures p.isSelected == Some(true) && p.isDisabled == Some(true) ==> OnCardClick(p) == NoCallback
    ensures Style(p) == DisabledStyle <==> p.isSelected != Some(true) && p.isDisabled == Some(true)
    ensures p.isSelected.None? && p.isDisabled.None? ==> Style(p) == NormalStyle
  {
  }

  datatype BadgeVariant = Secondary | Default | Destructive

  /** The badge variant: "free" secondary, "pro" default, anything else destructive. */
  function TierVariant(tier: string): (v: BadgeVariant)
    ensures v == Secondary <==> tier == "free"
    ensures v == Default <==> tier == "pro"
    ensures v == Destructive <==> tier != "free" && tier != "pro"
  {
    if tier == "free" then Secondary else if tier == "pro" then Default else Destructive
  }

  /** A card with no tier at all shows the destructive variant. */
  lemma MissingTierIsDestructive(p: ItemProps)
    requires p.tier.None? && p.strategy.None?
    ensures TierVariant(Resolve(p).tier) == Destructive
  {
  }
}
