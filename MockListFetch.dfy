/**
 * The deterministic test double of the fetch service. Its artificial delay
 * is kept as configuration only: the sleep and the random draw from the
 * range are not modelled, so a delay is an opaque number of seconds.
 */
module MockListFetch {
  import opened Wrappers
  import opened Entity
  import opened ListService

  /** A closed range `lower...upper` of delays in seconds. */
  datatype DelayRange = DelayRange(lower: real, upper: real)

  /** The two `let` fields a mock service is built with. */
  datatype MockConfig = MockConfig(shouldFail: bool, delayRange: Option<DelayRange>)

  const EnableArtificialDelay: bool := true
  const DefaultDelayRange: DelayRange := DelayRange(3.0, 5.0)

  /** The default `delayRange` argument of the initializer. */
  const DefaultDelayRangeArgument: Option<DelayRange> :=
    if EnableArtificialDelay then Some(DefaultDelayRange) else None

  /**
   * The initializer: an explicit `delay` wins and becomes the degenerate
   * range `delay...delay`; otherwise the given `delayRange` is kept.
   */
  function MakeMockConfig(shouldFail: bool := false, delay: Option<real> := None,
                          delayRange: Option<DelayRange> := DefaultDelayRangeArgument): (c: MockConfig)
    ensures c.shouldFail == shouldFail
    ensures delay.Some? ==> c.delayRange.Some? && c.delayRange.value.lower == c.delayRange.value.upper == delay.value
    ensures delay.None? ==> c.delayRange == delayRange
  {
    if delay.Some? then MockConfig(shouldFail, Some(DelayRange(delay.value, delay.value)))
    else MockConfig(shouldFail, delayRange)
  }

  /** The error a failing mock throws. */
  const SimulatedFailureText: string := "Simulated network failure"
  const SimulatedFailure: ListServiceError :=
    NetworkError(ForeignError("MockListFetchService", -1, SimulatedFailureText))

  /** The detail texts of the fixture items. */
  const FirstBody: string :=
    "This is the detailed content for the first mock item. It contains some sample text to demonstrate how the content will be displayed in the detail view."
  const SecondBody: string :=
    "This is the detailed content for the second mock item. Lorem ipsum dolor sit amet, consectetur adipiscing elit. Sed do eiusmod tempor incididunt ut labore et dolore magna aliqua."
  const ThirdBody: string :=
    "This is the detailed content for the third mock item. It has even more text to show how scrolling works in the detail view with longer content that spans multiple lines."
  const FourthBody: string :=
    "This is the detailed content for the fourth mock item. Ut enim ad minim veniam, quis nostrud exercitation ullamco laboris nisi ut aliquip ex ea commodo consequat."
  const FifthBody: string :=
    "This is the detailed content for the fifth mock item. Duis aute irure dolor in reprehenderit in voluptate velit esse cillum dolore eu fugiat nulla pariatur."

  /** The five fixed items a succeeding mock returns. */
  function Fixture(): (r: seq<ListItemEntity>)
    ensures |r| == 5
    ensures forall k :: 0 <= k < |r| ==> r[k].id == k + 1 && r[k].userId == r[k].id
    ensures UniqueIds(r)
  {
    [ ListItemEntity(1, 1, "Mock Item One", FirstBody),
      ListItemEntity(2, 2, "Mock Item Two", SecondBody),
      ListItemEntity(3, 3, "Mock Item Three", ThirdBody),
      ListItemEntity(4, 4, "Mock Item Four", FourthBody),
      ListItemEntity(5, 5, "Mock Item Five", FifthBody) ]
  }

  /** `fetchListItems`: a configured failure, or the fixture. */
  function FetchListItems(config: MockConfig): (o: FetchOutcome)
    ensures o.Err? <==> config.shouldFail
    ensures o.Err? ==> o.error == ServiceError(SimulatedFailure)
    ensures o.Ok? ==> o.items == Fixture()
    ensures o.Ok? ==> |o.items| == 5 && UniqueIds(o.items) && Ids(o.items) == [1, 2, 3, 4, 5]
  {
    if config.shouldFail then Err(ServiceError(SimulatedFailure)) else Ok(Fixture())
  }

  /** The outcome depends on `shouldFail` alone, never on the delay settings. */
  lemma OutcomeIgnoresDelay(c1: MockConfig, c2: MockConfig)
    requires c1.shouldFail == c2.shouldFail
    ensures FetchListItems(c1) == FetchListItems(c2)
  {
  }

  /** `MockListFetchService()`: never fails, and delays by 3 to 5 seconds. */
  lemma DefaultMockConfig()
    ensures MakeMockConfig() == MockConfig(false, Some(DelayRange(3.0, 5.0)))
    ensures MakeMockConfig(delay := Some(0.1)) == MockConfig(false, Some(DelayRange(0.1, 0.1)))
  {
  }

  /** With an explicit delay the `delayRange` argument is irrelevant. */
  lemma DelayOverridesRange(shouldFail: bool, d: real, r1: Option<DelayRange>, r2: Option<DelayRange>)
    ensures MakeMockConfig(shouldFail, Some(d), r1) == MakeMockConfig(shouldFail, Some(d), r2)
  {
  }

  /** The message a failing mock puts into `loadFailed`: "Network error: Simulated network failure". */
  lemma SimulatedFailureMessage()
    ensures LocalizedDescription(ServiceError(SimulatedFailure)) == NetworkErrorPrefix + SimulatedFailureText
  {
  }
}
