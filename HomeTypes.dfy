/** The Home feature's state, intents and side effects: plain values. */
module HomeTypes {
  import opened Entity

  /** The coarse lifecycle stage of the Home screen. */
  datatype Phase = Loading | Loaded | Error(message: string)

  /** The whole UI state of the Home screen. */
  datatype HomeState = HomeState(phase: Phase, items: seq<ListItemEntity>)

  /** `HomeState()`: the default field values. */
  const DefaultHomeState: HomeState := HomeState(Loading, [])

  /** Every event that can change the Home state. */
  datatype HomeIntent =
    | InitialLoad
    | Refresh
    | LoadCompleted(items: seq<ListItemEntity>)
    | LoadFailed(message: string)

  /** The asynchronous work the Home reducer can ask for. */
  datatype HomeSideEffect = FetchItems

  /** The intents a user raises, as opposed to the results a fetch sends back. */
  predicate IsUserIntent(intent: HomeIntent)
  {
    intent.InitialLoad? || intent.Refresh?
  }

  /** How many user intents a sequence holds. */
  function UserIntentCount(intents: seq<HomeIntent>): nat
  {
    if intents == [] then 0
    else (if IsUserIntent(intents[0]) then 1 else 0) + UserIntentCount(intents[1..])
  }

  /**
   * Three phases; equality is structural, so two error phases are equal
   * exactly when their messages are.
   */
  lemma PhaseCases(p: Phase, a: string, b: string)
    ensures p.Loading? || p.Loaded? || p.Error?
    ensures Error(a) == Error(b) <==> a == b
    ensures Loading != Loaded && Loading != Error(a) && Loaded != Error(a)
  {
  }

  /** Two states are equal exactly when their phases and their items are. */
  lemma HomeStateEquality(s: HomeState, t: HomeState)
    ensures s == t <==> (s.phase == t.phase && s.items == t.items)
  {
  }

  /** The single kind of side effect. */
  lemma SideEffectCases(e: HomeSideEffect)
    ensures e == FetchItems
  {
  }
}
