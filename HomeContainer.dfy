/**
 * The Home feature wired into the generic container: its pure reducer, its
 * effect handler (fetch, then send one result intent) and its initial state.
 */
module HomeContainer {
  import opened Wrappers
  import opened Entity
  import opened ListService
  import opened MockListFetch
  import opened Mvi
  import opened HomeTypes

  /** The container of the Home screen; the response to an effect is a fetch outcome. */
  type HomeMviContainer = Container<HomeState, HomeIntent, HomeSideEffect, FetchOutcome>

  /**
   * The reducer. Both user intents show the spinner and ask for a fetch;
   * `InitialLoad` clears the list while `Refresh` keeps it on screen. A result
   * intent never asks for more work: a completed load replaces the items
   * verbatim, a failed one keeps them and shows the message.
   */
  function Reduce(state: HomeState, intent: HomeIntent): (r: (HomeState, Option<HomeSideEffect>))
    ensures r.1.Some? <==> IsUserIntent(intent)
    ensures r.1.Some? ==> r.1.value == FetchItems
    ensures r.0.phase == Loading <==> IsUserIntent(intent)
    ensures intent.InitialLoad? ==> r.0.items == []
    ensures intent.Refresh? ==> r.0.items == state.items
    ensures intent.LoadCompleted? ==> r.0.phase == Loaded && r.0.items == intent.items
    ensures intent.LoadFailed? ==> r.0.phase == Error(intent.message) && r.0.items == state.items
  {
    match intent
    case InitialLoad => (state.(phase := Loading, items := []), Some(FetchItems))
    case Refresh => (state.(phase := Loading), Some(FetchItems))
    case LoadCompleted(items) => (state.(items := items, phase := Loaded), None)
    case LoadFailed(message) => (state.(phase := Error(message)), None)
  }

  /**
   * The effect handler: `FetchItems` awaits the service and sends exactly one
   * intent, the items on success or the error's localized description on
   * failure.
   */
  function HandleSideEffect(effect: HomeSideEffect, outcome: FetchOutcome): (sent: seq<HomeIntent>)
    ensures |sent| == 1 && !IsUserIntent(sent[0])
    ensures sent[0].LoadCompleted? <==> outcome.Ok?
    ensures outcome.Ok? ==> sent[0].items == outcome.items
    ensures outcome.Err? ==> sent[0].message == LocalizedDescription(outcome.error)
  {
    match effect
    case FetchItems =>
      match outcome
      case Ok(items) => [LoadCompleted(items)]
      case Err(error) => [LoadFailed(LocalizedDescription(error))]
  }

  /** Only the prior items can matter to the reducer, never the prior phase. */
  lemma ReduceIgnoresPhase(s: HomeState, t: HomeState, intent: HomeIntent)
    requires s.items == t.items
    ensures Reduce(s, intent) == Reduce(t, intent)
  {
  }

  /** `InitialLoad` and `LoadCompleted` do not depend on the prior state at all. */
  lemma ResetIntentsIgnoreState(s: HomeState, t: HomeState, xs: seq<ListItemEntity>)
    ensures Reduce(s, InitialLoad) == Reduce(t, InitialLoad) == (HomeState(Loading, []), Some(FetchItems))
    ensures Reduce(s, LoadCompleted(xs)) == Reduce(t, LoadCompleted(xs)) == (HomeState(Loaded, xs), None)
  {
  }

  /** Reducing the same intent twice gives the state of reducing it once. */
  lemma ReduceIdempotent(s: HomeState, intent: HomeIntent)
    ensures Reduce(Reduce(s, intent).0, intent) == Reduce(s, intent)
  {
  }

  /** What the handler sends never asks for another effect: no effect chains. */
  lemma HandledIntentsRequestNoEffect(s: HomeState, effect: HomeSideEffect, outcome: FetchOutcome)
    ensures Reduce(s, HandleSideEffect(effect, outcome)[0]).1 == None
  {
  }

  /** Over any run of intents, exactly one fetch is requested per user intent. */
  lemma {:induction false} OneFetchPerUserIntent(s: HomeState, intents: seq<HomeIntent>)
    ensures |Replay(Reduce, s, intents).1| == UserIntentCount(intents)
    decreases |intents|
  {
    if intents != [] {
      OneFetchPerUserIntent(Reduce(s, intents[0]).0, intents[1..]);
    }
  }

  /**
   * The items shown after any run of intents are the starting items, the
   * cleared list, or the payload of a completed load in that run.
   */
  lemma {:induction false} ItemsComeFromLoads(s: HomeState, intents: seq<HomeIntent>)
    ensures var items := Replay(Reduce, s, intents).0.items;
            items == s.items || items == [] || LoadCompleted(items) in intents
    decreases |intents|
  {
    if intents != [] {
      var next := Reduce(s, intents[0]).0;
      ItemsComeFromLoads(next, intents[1..]);
      var items := Replay(Reduce, s, intents).0.items;
      assert items == Replay(Reduce, next, intents[1..]).0.items;
      if LoadCompleted(items) in intents[1..] {
        assert LoadCompleted(items) in intents;
      } else if items == next.items && intents[0].LoadCompleted? {
        assert intents[0] == LoadCompleted(items);
      }
    }
  }

  /**
   * Result intents are applied in delivery order, with no generation check:
   * whatever was sent before, the last delivered result decides the state.
   */
  lemma LastResultWins(s: HomeState, earlier: seq<HomeIntent>, xs: seq<ListItemEntity>, m: string)
    ensures Replay(Reduce, s, earlier + [LoadCompleted(xs)]).0 == HomeState(Loaded, xs)
    ensures Replay(Reduce, s, earlier + [LoadFailed(m)]).0 ==
              HomeState(Error(m), Replay(Reduce, s, earlier).0.items)
  {
    ReplaySnoc(Reduce, s, earlier, LoadCompleted(xs));
    ReplaySnoc(Reduce, s, earlier, LoadFailed(m));
  }

  /** `HomeContainer(service:)`: a fresh container in the default state. */
  method NewHomeContainer() returns (c: HomeMviContainer)
    ensures fresh(c)
    ensures c.state == DefaultHomeState && c.pending == []
    ensures c.reduce == Reduce && c.handle == HandleSideEffect
  {
    c := new Container(DefaultHomeState, Reduce, HandleSideEffect);
  }

  /**
   * A fresh container sent `InitialLoad` is loading with one fetch queued;
   * once the fetch from a mock resolves it is loaded with the five fixture
   * items, or shows the mock's failure message with no items.
   */
  method InitialLoadWithMock(config: MockConfig) returns (c: HomeMviContainer)
    ensures c.pending == []
    ensures !config.shouldFail ==> c.state == HomeState(Loaded, Fixture()) && |c.state.items| == 5
    ensures config.shouldFail ==>
              c.state == HomeState(Error(NetworkErrorPrefix + SimulatedFailureText), [])
  {
    c := NewHomeContainer();
    c.Send(InitialLoad);
    assert c.state == HomeState(Loading, []) && c.pending == [FetchItems];
    var outcome := FetchListItems(config);
    var sent := HandleSideEffect(FetchItems, outcome);
    ReplayOne(Reduce, c.state, sent[0]);
    assert sent == [sent[0]];
    c.RunEffect(0, outcome);
    SimulatedFailureMessage();
  }

  /**
   * A container showing `item` that is sent `Refresh` is loading, still shows
   * `item`, and has exactly one fetch queued, as soon as `Send` returns.
   */
  method RefreshKeepsItems(item: ListItemEntity) returns (c: HomeMviContainer)
    ensures c.state == HomeState(Loading, [item])
    ensures c.pending == [FetchItems]
  {
    c := new Container(HomeState(Loaded, [item]), Reduce, HandleSideEffect);
    c.Send(Refresh);
  }

  /**
   * Two overlapping refreshes whose fetches complete out of order: the fetch
   * that was requested first but delivered last decides the state.
   */
  method OverlappingRefreshes(first: seq<ListItemEntity>, second: seq<ListItemEntity>)
    returns (c: HomeMviContainer)
    ensures c.state == HomeState(Loaded, first)
    ensures c.pending == []
  {
    c := NewHomeContainer();
    c.Send(Refresh);
    c.Send(Refresh);
    assert c.pending == [FetchItems, FetchItems];
    var s1 := c.state;
    ReplayOne(Reduce, s1, LoadCompleted(second));
    c.RunEffect(1, Ok(second));
    var s2 := c.state;
    ReplayOne(Reduce, s2, LoadCompleted(first));
    c.RunEffect(0, Ok(first));
  }
}
