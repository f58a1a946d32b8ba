/**
 * The pricing page `src/pages/Pricing.tsx`: three plans and a monthly/annual
 * switch that charges ten months for a year.
 */
module Pricing {
  import opened JsNumber

  datatype Plan = Plan(key: string, name: string, price: int, period: string, popular: bool, dailyCredits: nat)

  const Plans: seq<Plan> := [
    Plan("free", "Free (Basics)", 0, "month", false, 750),
    Plan("pro", "Pro", 69, "month", true, 2500),
    Plan("max", "Max (Premium)", 139, "month", false, 10000)
  ]

  /** The months charged for a year: two are free. */
  const MonthsChargedPerYear: int := 10

  /** `getPrice(basePrice)`: a free plan stays free, a year costs ten months. */
  function GetPrice(basePrice: int, isAnnual: bool): (p: int)
    ensures basePrice == 0 ==> p == 0
    ensures basePrice != 0 && !isAnnual ==> p == basePrice
    ensures basePrice != 0 && isAnnual ==> p == MonthsChargedPerYear * basePrice
  {
    if basePrice == 0 then 0
    else if isAnnual then MonthsChargedPerYear * basePrice
    else basePrice
  }

  /** `getSavings(basePrice)`: two months' price, nothing for a free plan. */
  function GetSavings(basePrice: int): (s: int)
    ensures s == 2 * basePrice
  {
    if basePrice == 0 then 0 else basePrice * 2
  }

  /** The annual price plus the advertised saving is twelve monthly payments. */
  lemma AnnualPlusSavingsIsTwelveMonths(basePrice: int)
    ensures GetPrice(basePrice, true) + GetSavings(basePrice) == 12 * GetPrice(basePrice, false)
  {
  }

  /** The saving line appears for a paid plan on annual billing. */
  predicate ShowsSavings(plan: Plan, isAnnual: bool) {
    isAnnual && plan.price > 0
  }

  /** The line under the price. */
  function SavingsNote(plan: Plan): string {
    "Save $" + IntToString(GetSavings(plan.price)) + " annually"
  }

  /** `/year` or the plan's own period. */
  function PeriodLabel(plan: Plan, isAnnual: bool): string {
    if isAnnual then "year" else plan.period
  }

  /** The shown prices: 0, 69 and 139 a month; 0, 690 and 1390 a year. */
  lemma PlanPrices()
    ensures [GetPrice(Plans[0].price, false), GetPrice(Plans[1].price, false), GetPrice(Plans[2].price, false)] == [0, 69, 139]
    ensures [GetPrice(Plans[0].price, true), GetPrice(Plans[1].price, true), GetPrice(Plans[2].price, true)] == [0, 690, 1390]
    ensures !ShowsSavings(Plans[0], true) && ShowsSavings(Plans[1], true) && ShowsSavings(Plans[2], true)
  {
  }

  /** A saving is shown only on annual billing, and never for the free plan. */
  lemma SavingsOnlyAnnualPaid(i: nat, isAnnual: bool)
    requires i < |Plans|
    ensures ShowsSavings(Plans[i], isAnnual) <==> isAnnual && i != 0
  {
  }

  /** Exactly one plan is marked most popular: Pro. */
  lemma OnePopularPlan(i: nat)
    requires i < |Plans|
    ensures Plans[i].popular <==> Plans[i].key == "pro"
  {
  }

  /** The billing switch. */
  class PricingPage {
    var isAnnual: bool

    constructor ()
      ensures !isAnnual
    {
      isAnnual := false;
    }

    /** `onCheckedChange={setIsAnnual}`. */
    method SetAnnual(checked: bool)
      modifies this
      ensures isAnnual == checked
    {
      isAnnual := checked;
    }

    function PriceOf(plan: Plan): int
      reads this
    {
      GetPrice(plan.price, isAnnual)
    }
  }

  /** The page first shows monthly prices; after switching to annual each paid plan costs ten months. */
  method SwitchToAnnual(plan: Plan) returns (monthly: int, annual: int)
    ensures monthly == plan.price
    ensures plan.price != 0 ==> annual == 10 * monthly
    ensures plan.price == 0 ==> annual == 0
  {
    var page := new PricingPage();
    monthly := page.PriceOf(plan);
    page.SetAnnual(true);
    annual := page.PriceOf(plan);
  }
}
