/**
 * The AI model picker `src/components/AiModelsSelection.tsx`: three tiers of
 * models, their credit badges and an uncapped multi-selection.
 */
module AiModels {
  import opened JsString
  import opened JsNumber
  import opened SelectionRules

  /** A model's price: a number of credits, or a text such as "Variable". */
  datatype Credits = Amount(n: int) | Label(text: string)

  datatype Model = Model(name: string, description: string, credits: Credits, accuracy: int)

  const FreeModels: seq<Model> := [
    Model("Claude Haiku", "Fast technical analysis", Amount(1), 78),
    Model("Gemini 1.5 Flash", "Market sentiment", Amount(1), 75),
    Model("Mistral 7B", "Pattern recognition", Amount(1), 72),
    Model("Llama 3.1 8B", "Support/resistance", Amount(1), 74)
  ]

  const ProModels: seq<Model> := [
    Model("GPT-4 Omni", "Advanced analysis", Amount(150), 89),
    Model("Claude 3.5 Sonnet", "Deep patterns", Amount(150), 91),
    Model("Gemini 1.5 Pro", "News integration", Amount(150), 87)
  ]

  const MaxModels: seq<Model> := [
    Model("GPT-4 Turbo", "Institutional analysis", Amount(100), 94),
    Model("Claude 3 Opus", "Deep reasoning", Amount(100), 92),
    Model("Grok AI", "Pay-per-use", Label("Variable"), 88)
  ]

  function Names(models: seq<Model>): (r: seq<string>)
    ensures |r| == |models|
    ensures forall i :: 0 <= i < |models| ==> r[i] == models[i].name
  {
    seq(|models|, i requires 0 <= i < |models| => models[i].name)
  }

  /** How JSX renders `{model.credits}`. */
  function CreditsText(c: Credits): string {
    match c
    case Amount(n) => IntToString(n)
    case Label(t) => t
  }

  /** The free tier's unit: `credits === 1 ? 'credit' : 'credits'`. */
  function FreeUnit(c: Credits): (u: string)
    ensures u == "credit" <==> c == Amount(1)
    ensures u != "credit" ==> u == "credits"
  {
    if c == Amount(1) then "credit" else "credits"
  }

  /** The max tier's unit: `'credits'` for a number, nothing for a text. */
  function MaxUnit(c: Credits): (u: string)
    ensures u == "" <==> c.Label?
    ensures c.Amount? ==> u == "credits"
  {
    if c.Amount? then "credits" else ""
  }

  /** The badge of a free, pro and max model: the credits, a space, the unit. */
  function FreeBadge(m: Model): string { CreditsText(m.credits) + " " + FreeUnit(m.credits) }
  function ProBadge(m: Model): string { CreditsText(m.credits) + " credits" }
  function MaxBadge(m: Model): string { CreditsText(m.credits) + " " + MaxUnit(m.credits) }

  /** Every free model costs one credit, so every free badge reads "1 credit". */
  lemma FreeBadges(i: nat)
    requires i < |FreeModels|
    ensures FreeBadge(FreeModels[i]) == "1 credit"
  {
  }

  /** A text price in the max tier keeps the separating space and no unit. */
  lemma MaxBadgeOfText(m: Model)
    requires m.credits.Label?
    ensures MaxBadge(m) == m.credits.text + " "
  {
  }

  lemma GrokBadge()
    ensures MaxBadge(MaxModels[2]) == "Variable "
  {
    MaxBadgeOfText(MaxModels[2]);
  }

  /** The tier headers' counts and the distinct model names across all tiers. */
  lemma TierCounts()
    ensures |FreeModels| == 4 && |ProModels| == 3 && |MaxModels| == 3
    ensures NoDuplicates(Names(FreeModels + ProModels + MaxModels))
  {
    var n := Names(FreeModels + ProModels + MaxModels);
    assert n == ["Claude Haiku", "Gemini 1.5 Flash", "Mistral 7B", "Llama 3.1 8B",
      "GPT-4 Omni", "Claude 3.5 Sonnet", "Gemini 1.5 Pro", "GPT-4 Turbo", "Claude 3 Opus", "Grok AI"];
  }

  /** The selection: `toggleModel` has no cap. */
  class ModelSelection {
    var selected: seq<string>

    predicate Valid()
      reads this
    {
      NoDuplicates(selected)
    }

    constructor ()
      ensures selected == [] && Valid()
    {
      selected := [];
    }

    method ToggleModel(name: string)
      requires Valid()
      modifies this
      ensures selected == Toggle(old(selected), name)
      ensures Valid()
    {
      ToggleNoDuplicates(selected, name);
      if name in selected {
        selected := Without(selected, name);
      } else {
        selected := selected + [name];
      }
    }

    /** A model card is highlighted when its name is selected. */
    function IsHighlighted(m: Model): bool
      reads this
    {
      m.name in selected
    }
  }

  /** Any number of models can be selected: selecting all ten in turn keeps all ten. */
  lemma AllModelsSelectable()
    ensures ApplyToggles([], Names(FreeModels + ProModels + MaxModels)) == Names(FreeModels + ProModels + MaxModels)
  {
    TierCounts();
    var all := Names(FreeModels + ProModels + MaxModels);
    assert [] + all == all;
    ApplyTogglesFresh([], all);
  }
}
