# MVIDemo core in Dafny

A model of the state-management core of MVIDemo, a small iOS demo of the
Model-View-Intent pattern on one list screen:

- **Mvi** (`Mvi.dfy`): the generic container. It owns one `state`. `Send`
  runs a pure reducer, commits the new state before it returns, and
  schedules at most one side effect. The Swift `Task` that `send` spawns is
  an entry in the `pending` queue. `RunEffect` is that task running: the
  handler sends its result intents back through `Send`. The two methods a
  subclass must override become two function values given to the
  constructor. `Replay` folds the reducer over a run of intents and is the
  specification the container's loop is proved against.
- **HomeTypes** and **HomeContainer**: the Home feature. It has a three-case
  phase, a state of phase and items, four intents and one side effect
  (`FetchItems`). The reducer is a total function. The effect handler turns
  one fetch outcome into exactly one result intent. Lemmas cover the
  transition table, item preservation, idempotence, one fetch per user
  intent, the source of every shown item list, and "last delivered result
  wins". Scenario methods replay the integration tests.
- **Mvvm**: the legacy `HomeViewModel`, a class with the three fields
  `items`, `isRefreshing` and `pendingItems`.
- **ListService**: the classified service errors, the display string of
  each, and the outcome of one fetch (`Ok(items)` or `Err(error)`).
- **MockListFetch**: the test double: which delay setting wins, the forced
  failure, and the five-item fixture.
- **Entity**: the list item record.

The fetch is never awaited. Its result is a `FetchOutcome` value that the
caller passes to `RunEffect` or `FetchData`. The mock's delay is kept only
as configuration.

Two facts about the source shape the model:

- The declaration of `ListItemEntity` and its callers disagree. It is
  declared with `id`, `title`, `subtitle` and `content`
  (MVIDemo/src/Entity/ListItemEntity.swift:12-15), but every construction
  site uses `userId`, `id`, `title` and `body`
  (MVIDemo/src/Service/MockListFetchService.swift:58-62,
  MVIDemoTests/HomeContainerTests.swift:35). The model uses the callers'
  fields.
- The reducer accepts `loadCompleted` and `loadFailed` in every phase
  (MVIDemo/src/Home/HomeContainer.swift:51-60), not only while loading, and
  so does the model.

## Model

| member | source | states |
|---|---|---|
| Entity.Ids | MVIDemo/src/Entity/ListItemEntity.swift:11-12 | the identities of a list, one per item and in order |
| Entity.EntityEquality | MVIDemo/src/Entity/ListItemEntity.swift:11-15 | two items are equal exactly when all four fields are equal |
| Entity.ItemsEquality | MVIDemoTests/HomeContainerTests.swift:61 | two item arrays are equal exactly when they have the same length and are equal element by element |
| ListService.ErrorDescription | MVIDemo/src/Service/ListServiceProtocol.swift:26-37 | always returns a description, never nil; for network and decoding errors it is the fixed prefix followed by the underlying error's own description |
| ListService.LocalizedDescription | MVIDemo/src/Home/HomeContainer.swift:75 | the message of a thrown service error is its errorDescription; any other error keeps its own description |
| ListService.DescriptionIdentifiesError | MVIDemo/src/Service/ListServiceProtocol.swift:28-35 | equal descriptions mean the same error kind and, for the wrapping kinds, the same underlying description |
| MockListFetch.MakeMockConfig | MVIDemo/src/Service/MockListFetchService.swift:23-36 | an explicit delay overrides the range and becomes delay...delay; otherwise the given range (by default 3...5 seconds) is kept; shouldFail is stored as given |
| MockListFetch.DefaultMockConfig | MVIDemo/src/Service/MockListFetchService.swift:15-28 | with no arguments the mock does not fail and delays by 3 to 5 seconds; an explicit delay alone gives the degenerate range |
| MockListFetch.DelayOverridesRange | MVIDemo/src/Service/MockListFetchService.swift:31-35 | with an explicit delay, the delayRange argument makes no difference |
| MockListFetch.Fixture | MVIDemo/src/Service/MockListFetchService.swift:57-88 | five items with ids 1 to 5 in order, each with userId equal to id, so the ids are unique |
| MockListFetch.FetchListItems | MVIDemo/src/Service/MockListFetchService.swift:40-89 | fails exactly when shouldFail is set, with a network error around "Simulated network failure"; otherwise returns exactly the fixture: five items with unique ids 1 to 5 |
| MockListFetch.OutcomeIgnoresDelay | MVIDemo/src/Service/MockListFetchService.swift:42-56 | the outcome depends only on shouldFail, not on the delay configuration |
| MockListFetch.SimulatedFailureMessage | MVIDemo/src/Service/MockListFetchService.swift:49-53 | a failing mock's message is "Network error: " followed by "Simulated network failure" |
| Mvi.EffectList | MVIDemo/src/MVI/MVIContainer.swift:51-55 | a reducer result schedules one effect exactly when it carries one, and then exactly that effect |
| Mvi.ReplayAppend | MVIDemo/src/MVI/MVIContainer.swift:47-49 | sending two runs of intents one after the other reaches the state, and schedules the effects, of sending their concatenation |
| Mvi.ReplaySnoc | MVIDemo/src/MVI/MVIContainer.swift:47-55 | sending one more intent is one more reducer step after the rest, scheduling that step's effect last |
| Mvi.ReplayOne | MVIDemo/src/MVI/MVIContainer.swift:47-55 | sending a single intent is one reducer step |
| Mvi.ReplayEffectsBound | MVIDemo/src/MVI/MVIContainer.swift:48-55 | a run of n intents schedules at most n effects |
| Mvi.Container.constructor | MVIDemo/src/MVI/MVIContainer.swift:35-37 | the new container's state is the initial state and nothing is pending |
| Mvi.Container.Send | MVIDemo/src/MVI/MVIContainer.swift:47-56 | the state is the reducer's new state when Send returns; the pending effects gain the reducer's effect if it returned one, and nothing otherwise |
| Mvi.Container.RunEffect | MVIDemo/src/MVI/MVIContainer.swift:52-54 | running a scheduled effect removes it from the queue; the state then changes only through the handler's Send calls, in order, and their effects are queued |
| HomeTypes.PhaseCases | MVIDemo/src/Home/HomeState.swift:17-24 | a phase is one of three cases; two error phases are equal exactly when their messages are; distinct cases are unequal |
| HomeTypes.HomeStateEquality | MVIDemo/src/Home/HomeState.swift:14 | two states are equal exactly when their phases and items are equal |
| HomeTypes.SideEffectCases | MVIDemo/src/Home/HomeSideEffect.swift:14-18 | fetchItems is the only side effect |
| HomeContainer.Reduce | MVIDemo/src/Home/HomeContainer.swift:36-62 | a fetch is requested exactly for initialLoad and refresh, which are exactly the intents that give Loading; initialLoad clears the items and refresh keeps them; loadCompleted gives Loaded with its items verbatim; loadFailed gives Error with its message and keeps the items |
| HomeContainer.HandleSideEffect | MVIDemo/src/Home/HomeContainer.swift:68-79 | handling fetchItems sends exactly one result intent: loadCompleted with the fetched items on success, loadFailed with the error's description on failure |
| HomeContainer.ReduceIgnoresPhase | MVIDemo/src/Home/HomeContainer.swift:37-61 | the reducer's result depends on the prior state only through its items |
| HomeContainer.ResetIntentsIgnoreState | MVIDemo/src/Home/HomeContainer.swift:40-55 | for every state, initialLoad gives (Loading, [], fetchItems) and loadCompleted(xs) gives (Loaded, xs, no effect) |
| HomeContainer.ReduceIdempotent | MVIDemo/src/Home/HomeContainer.swift:39-61 | reducing any intent twice gives the same state and effect as reducing it once |
| HomeContainer.HandledIntentsRequestNoEffect | MVIDemo/src/Home/HomeContainer.swift:51-60 | the intent a handled fetch sends requests no further effect, so effects never chain |
| HomeContainer.OneFetchPerUserIntent | MVIDemo/src/Home/HomeContainer.swift:44-60 | over any run of intents, the number of fetches requested equals the number of user intents |
| HomeContainer.ItemsComeFromLoads | MVIDemo/src/Home/HomeContainer.swift:43-59 | after any run of intents the items are the starting items, the empty list, or the payload of a loadCompleted in the run |
| HomeContainer.LastResultWins | MVIDemo/src/Home/HomeContainer.swift:51-60 | whatever came before, a last delivered loadCompleted(xs) leaves (Loaded, xs), and a last loadFailed(m) leaves Error(m) with the earlier items |
| HomeContainer.NewHomeContainer | MVIDemo/src/Home/HomeContainer.swift:25-28 | a new Home container starts Loading with no items, nothing pending, and the Home reducer and handler |
| HomeContainer.InitialLoadWithMock | MVIDemoTests/HomeContainerTests.swift:100-132 | initialLoad followed by a mock fetch ends Loaded with the five fixture items, or, for a failing mock, in Error with the mock's failure message |
| HomeContainer.RefreshKeepsItems | MVIDemoTests/HomeContainerTests.swift:49-63 | as soon as Send(refresh) returns on a loaded container, the phase is Loading, the items are unchanged and one fetch is queued |
| HomeContainer.OverlappingRefreshes | MVIDemo/src/MVI/MVIContainer.swift:51-55 | when two refresh fetches complete in reverse order, the first-requested fetch is delivered last and decides the state |
| Mvvm.HomeViewModel.constructor | MVIDemo/src/Home/HomeViewModel.swift:23-37 | a new view model shows no items, is not refreshing and has nothing pending |
| Mvvm.HomeViewModel.FetchData | MVIDemo/src/Home/HomeViewModel.swift:43-51 | a successful fetch stages the fetched items and a failed one clears the stage; the shown items and the refresh flag are unchanged |
| Mvvm.HomeViewModel.EndRefresh | MVIDemo/src/Home/HomeViewModel.swift:54-56 | clears the refresh flag and changes neither the shown nor the staged items |
| Mvvm.HomeViewModel.ApplyPendingItems | MVIDemo/src/Home/HomeViewModel.swift:59-64 | staged items become the shown items and the stage is cleared; with nothing staged nothing changes |
| Mvvm.ApplyTwice | MVIDemoTests/HomeViewModelTests.swift:118-125 | a second consecutive apply is a no-op |
| Mvvm.FetchThenApply | MVIDemoTests/HomeViewModelTests.swift:73-85 | after a fetch nothing is shown yet; after the apply the five fixture items are shown on success, and still nothing on failure |

## Left out

- Concurrency machinery. The model leaves out `Task` spawning, the `@MainActor` hops and `Task.sleep`. A spawned task is a `pending` entry, and the scheduler that runs it is whoever calls `RunEffect`. The model says nothing about timing beyond the order of `Send` and `RunEffect` calls.
- `@Observable` change notification: observers are not modelled. The committed `state` is readable as soon as `Send` returns.
- `private(set)` on `state`: Dafny fields are public. In the model only `Send` assigns `state`, and `RunEffect` changes it only by calling `Send`.
- `[weak self]` in `send`: a container released before its effect runs drops the effect. The model has no deallocation, so a queued effect stays runnable.
- Mvi.Container.RunEffect: the handler is a function of the effect and the response only. A Swift `handleSideEffect` is an instance method that could read `state` and could `send` between awaits; the model's handler cannot read the state, and its intents are sent back to back. The Home handler does neither of those things.
- The `fatalError` defaults of the base class's `reduce` and `handleSideEffect`: in the model both are always supplied to the constructor.
- The service dependency of `HomeContainer` and `HomeViewModel`: they do not store a service. I/O is replaced by a `FetchOutcome` parameter.
- MockListFetch.FetchListItems: the random delay drawn from the range is not modelled, and neither is the cancellation error `Task.sleep` can throw. Delays are opaque numbers. A negative or non-finite delay makes the Swift fetch trap (in `Double.random(in:)` or the conversion to `UInt64` nanoseconds); the model returns its normal outcome instead.
- MockListFetch.MakeMockConfig: Swift's check that a `ClosedRange` has lower bound ≤ upper bound is not modelled.
- ListService.LocalizedDescription: the Foundation fallback text for a `LocalizedError` with no `errorDescription` is not modelled, because `errorDescription` never returns nil. Errors that are not service errors keep an opaque description.
- `ListItemEntity`'s `Codable` conformance and the production service (`URLSession` plus `JSONDecoder`) are network I/O and library decoding.
- The network-permission singleton, the SwiftUI views (home, detail, cell, empty view) and the vendor colour constants are rendering or I/O.
- `isLoading` and `initialLoad()` on `HomeViewModel` are used by its tests but not declared by the class, so the model does not have them.
