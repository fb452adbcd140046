/**
 * The legacy MVVM view model of the Home screen: three fields assigned in
 * place. A fetch only stages its items; they reach the screen when the
 * refresh animation has finished and `ApplyPendingItems` moves them over.
 */
module Mvvm {
  import opened Wrappers
  import opened Entity
  import opened ListService
  import opened MockListFetch

  class HomeViewModel {
    /** The items on screen. */
    var items: seq<ListItemEntity>
    /** Whether a pull-to-refresh is in progress; the view sets it. */
    var isRefreshing: bool
    /** Items fetched but not yet shown. */
    var pendingItems: Option<seq<ListItemEntity>>

    /** `init(service:)`: nothing shown, not refreshing, nothing staged. */
    constructor ()
      ensures items == [] && !isRefreshing && pendingItems == None
    {
      items := [];
      isRefreshing := false;
      pendingItems := None;
    }

    /**
     * `fetchData`, given what the awaited fetch resolved to: a success
     * stages its items, a failure drops anything staged. The screen is
     * untouched either way.
     */
    method FetchData(outcome: FetchOutcome)
      modifies this
      ensures outcome.Ok? ==> pendingItems == Some(outcome.items)
      ensures outcome.Err? ==> pendingItems == None
      ensures items == old(items) && isRefreshing == old(isRefreshing)
    {
      match outcome
      case Ok(fetched) =>
        pendingItems := Some(fetched);
      case Err(_) =>
        pendingItems := None;
    }

    /** The refresh control's animation completed. */
    method EndRefresh()
      modifies this
      ensures !isRefreshing
      ensures items == old(items) && pendingItems == old(pendingItems)
    {
      isRefreshing := false;
    }

    /**
     * Moves the staged items onto the screen and clears the stage; with
     * nothing staged it changes nothing.
     */
    method ApplyPendingItems()
      modifies this
      ensures old(pendingItems).Some? ==> items == old(pendingItems).value
      ensures old(pendingItems).None? ==> items == old(items)
      ensures pendingItems == None && isRefreshing == old(isRefreshing)
    {
      if pendingItems.Some? {
        items := pendingItems.value;
        pendingItems := None;
      }
    }
  }

  /** Applying twice in a row: the second call is a no-op. */
  method ApplyTwice(vm: HomeViewModel)
    modifies vm
    ensures vm.items == (if old(vm.pendingItems).Some? then old(vm.pendingItems).value else old(vm.items))
    ensures vm.pendingItems == None && vm.isRefreshing == old(vm.isRefreshing)
  {
    vm.ApplyPendingItems();
    ghost var once := vm.items;
    vm.ApplyPendingItems();
    assert vm.items == once;
  }

  /**
   * A fresh view model fetching from a mock, then applying: before the apply
   * nothing is shown; after it, the five fixture items on success, and still
   * nothing on failure.
   */
  method FetchThenApply(config: MockConfig) returns (vm: HomeViewModel, shownBeforeApply: seq<ListItemEntity>)
    ensures shownBeforeApply == []
    ensures config.shouldFail ==> vm.items == []
    ensures !config.shouldFail ==> vm.items == Fixture() && |vm.items| == 5
    ensures vm.pendingItems == None && !vm.isRefreshing
  {
    vm := new HomeViewModel();
    vm.FetchData(FetchListItems(config));
    shownBeforeApply := vm.items;
    vm.ApplyPendingItems();
  }
}
