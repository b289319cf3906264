/**
 * The dashboard screen: the back button's priority rule, the navigation
 * rail and the page back stack it drives, the list mixing income and
 * expenses by date, and when the highest-expense card shows.
 */
module DashboardScreen {
  import opened Collections
  import opened Model
  import opened Destinations
  import DashboardEnv

  // ------------------------------------------------------ rail and routes

  /** The rail's three items: dashboard, chart and export. */
  const RailItemCount: nat := 3

  /** The page each rail item opens. */
  function RailRoute(item: nat): string
    requires item < RailItemCount
  {
    if item == 0 then HomeRoute else if item == 1 then ChartRoute else ExportRoute
  }

  /** Different items open different pages, and only the first opens Home. */
  lemma RailRoutesDistinct(i: nat, j: nat)
    requires i < RailItemCount && j < RailItemCount
    ensures RailRoute(i) == RailRoute(j) <==> i == j
    ensures RailRoute(i) == HomeRoute <==> i == 0
  {
    FixedRoutesDistinct();
    var rs := [DashboardRoute, HomeRoute, ExportRoute, ChartRoute, SettingRoute, CurrencyRoute];
    assert rs[1] == HomeRoute && rs[2] == ExportRoute && rs[3] == ChartRoute;
  }

  /** The dashboard's page stack with `item` selected: Home alone, or Home under the item's page. */
  function StackFor(item: nat): seq<string>
    requires item < RailItemCount
  {
    if item == 0 then [HomeRoute] else [HomeRoute, RailRoute(item)]
  }

  // ----------------------------------------------------------- back button

  /** What a back press does. */
  datatype BackAction = HideSheet | HideNavRail | GoHome | Finish

  /** The first condition that holds decides: open sheet, open rail, a page other than Home, else leave. */
  function BackDecision(sheetVisible: bool, showNavRail: bool, currentRoute: string): (a: BackAction)
    ensures a == HideSheet <==> sheetVisible
    ensures a == HideNavRail <==> !sheetVisible && showNavRail
    ensures a == GoHome <==> !sheetVisible && !showNavRail && currentRoute != HomeRoute
  {
    if sheetVisible then HideSheet
    else if showNavRail then HideNavRail
    else if currentRoute != HomeRoute then GoHome
    else Finish
  }

  /** How many things a back press still has to close before the screen is left. */
  function Pending(sheetVisible: bool, showNavRail: bool, currentRoute: string): nat
  {
    (if sheetVisible then 1 else 0) + (if showNavRail then 1 else 0) + (if currentRoute != HomeRoute then 1 else 0)
  }

  /** The screen is left exactly when nothing is pending. */
  lemma FinishOnlyWhenNothingPending(sheetVisible: bool, showNavRail: bool, currentRoute: string)
    ensures BackDecision(sheetVisible, showNavRail, currentRoute) == Finish
        <==> Pending(sheetVisible, showNavRail, currentRoute) == 0
  {
  }

  class DashboardScreenState {
    var sheetVisible: bool
    var showNavRail: bool
    var selectedNavRailItem: nat
    var backStack: seq<string>
    var finished: bool

    /** The page stack always matches the selected rail item. */
    ghost predicate Valid()
      reads this
    {
      selectedNavRailItem < RailItemCount && backStack == StackFor(selectedNavRailItem)
    }

    function CurrentRoute(): string
      reads this
      requires backStack != []
    {
      backStack[|backStack| - 1]
    }

    constructor ()
      ensures Valid()
      ensures !sheetVisible && !showNavRail && selectedNavRailItem == 0 && !finished
      ensures backStack == [HomeRoute]
    {
      sheetVisible := false;
      showNavRail := false;
      selectedNavRailItem := 0;
      backStack := [HomeRoute];
      finished := false;
    }

    /** The page shown is always the selected item's page. */
    lemma CurrentRouteIsSelected()
      requires Valid()
      ensures backStack != [] && CurrentRoute() == RailRoute(selectedNavRailItem)
    {
    }

    /**
     * `popupDashboardNavigation`: pop everything above the start page (Home),
     * then push the target unless it is already on top.
     */
    method PopupDashboardNavigation(toRoute: string)
      requires backStack != [] && backStack[0] == HomeRoute
      modifies this`backStack
      ensures backStack == if toRoute == HomeRoute then [HomeRoute] else [HomeRoute, toRoute]
    {
      backStack := backStack[..1];
      if backStack[0] != toRoute {
        backStack := backStack + [toRoute];
      }
    }

    /** Choosing a rail item selects it and opens its page. */
    method OnRailItemSelected(item: nat)
      requires Valid() && item < RailItemCount
      modifies this`selectedNavRailItem, this`backStack
      ensures Valid() && selectedNavRailItem == item
      ensures CurrentRoute() == RailRoute(item)
    {
      selectedNavRailItem := item;
      RailRoutesDistinct(item, 0);
      PopupDashboardNavigation(RailRoute(item));
    }

    /** The menu button opens or closes the rail. */
    method ToggleNavRail()
      modifies this`showNavRail
      ensures showNavRail == !old(showNavRail)
    {
      showNavRail := !showNavRail;
    }

    method ShowFinancialSheet()
      modifies this`sheetVisible
      ensures sheetVisible
    {
      sheetVisible := true;
    }

    /**
     * The back handler. Each press closes one pending thing, in the order of
     * `BackDecision`, and leaves the screen only when nothing is pending.
     */
    method OnBack() returns (action: BackAction)
      requires Valid()
      modifies this
      ensures Valid()
      ensures action == BackDecision(old(sheetVisible), old(showNavRail), old(CurrentRoute()))
      ensures action == HideSheet ==>
        !sheetVisible && showNavRail == old(showNavRail) && selectedNavRailItem == old(selectedNavRailItem)
        && finished == old(finished)
      ensures action == HideNavRail ==>
        sheetVisible == old(sheetVisible) && !showNavRail && selectedNavRailItem == old(selectedNavRailItem)
        && finished == old(finished)
      ensures action == GoHome ==>
        sheetVisible == old(sheetVisible) && showNavRail == old(showNavRail) && selectedNavRailItem == 0
        && backStack == [HomeRoute] && finished == old(finished)
      ensures action == Finish ==>
        finished && sheetVisible == old(sheetVisible) && showNavRail == old(showNavRail)
        && selectedNavRailItem == old(selectedNavRailItem)
      ensures action != Finish ==>
        Pending(sheetVisible, showNavRail, CurrentRoute())
        == Pending(old(sheetVisible), old(showNavRail), old(CurrentRoute())) - 1
    {
      action := BackDecision(sheetVisible, showNavRail, CurrentRoute());
      if sheetVisible {
        sheetVisible := false;
      } else if showNavRail {
        showNavRail := false;
      } else if CurrentRoute() != HomeRoute {
        selectedNavRailItem := 0;
        PopupDashboardNavigation(HomeRoute);
      } else {
        finished := true;
      }
    }
  }

  // --------------------------------------------------- mixed transactions

  predicate SortedByDate(s: seq<Financial>)
  {
    forall i, j :: 0 <= i < j < |s| ==> s[i].dateCreated <= s[j].dateCreated
  }

  function DateOf(f: Financial): int { f.dateCreated }

  /** Puts `x` before the first element not older than it, so it goes ahead of its equals. */
  function InsertByDate(x: Financial, s: seq<Financial>): seq<Financial>
  {
    if s == [] || x.dateCreated <= s[0].dateCreated then [x] + s
    else [s[0]] + InsertByDate(x, s[1..])
  }

  /** `sortedBy { it.dateCreated }`, a stable sort. */
  function SortByDate(s: seq<Financial>): seq<Financial>
  {
    if s == [] then [] else InsertByDate(s[0], SortByDate(s[1..]))
  }

  /** The dashboard's transaction list: income followed by expenses, sorted by date. */
  function MixedTransactions(income: seq<Financial>, expense: seq<Financial>): seq<Financial>
  {
    SortByDate(income + expense)
  }

  /** Inserting adds `x` and nothing else, so the total grows by its amount. */
  lemma {:induction false} InsertByDateAdds(x: Financial, s: seq<Financial>)
    ensures multiset(InsertByDate(x, s)) == multiset(s) + multiset{x}
    ensures Total(InsertByDate(x, s)) == x.amount + Total(s)
  {
    if !(s == [] || x.dateCreated <= s[0].dateCreated) {
      InsertByDateAdds(x, s[1..]);
      assert s == [s[0]] + s[1..];
    }
  }

  /** Among transactions of its own date `x` lands first; other dates are untouched. */
  lemma {:induction false} InsertByDateStable(x: Financial, s: seq<Financial>, d: int)
    ensures WithKey(InsertByDate(x, s), DateOf, d) == (if x.dateCreated == d then [x] else []) + WithKey(s, DateOf, d)
  {
    if s == [] || x.dateCreated <= s[0].dateCreated {
      WithKeyCons(x, s, DateOf, d);
    } else {
      var tail := s[1..];
      InsertByDateStable(x, tail, d);
      WithKeyCons(s[0], InsertByDate(x, tail), DateOf, d);
      assert s == [s[0]] + tail;
      WithKeyCons(s[0], tail, DateOf, d);
      var hx := if x.dateCreated == d then [x] else [];
      var h0 := if s[0].dateCreated == d then [s[0]] else [];
      assert hx == [] || h0 == [];
      SwapWithEmpty(h0, hx, WithKey(tail, DateOf, d));
    }
  }

  lemma SwapWithEmpty(a: seq<Financial>, b: seq<Financial>, w: seq<Financial>)
    requires a == [] || b == []
    ensures a + (b + w) == b + (a + w)
  {
    if a == [] {
      assert a + (b + w) == b + w == b + (a + w);
    } else {
      assert b + (a + w) == a + w == a + (b + w);
    }
  }

  lemma WithKeyCons(y: Financial, rest: seq<Financial>, key: Financial -> int, k: int)
    ensures WithKey([y] + rest, key, k) == (if key(y) == k then [y] else []) + WithKey(rest, key, k)
  {
    assert ([y] + rest)[0] == y && ([y] + rest)[1..] == rest;
  }

  /** Inserting keeps every date at or above a bound that `x` and all of `s` respect. */
  lemma {:induction false} InsertByDateLowerBound(x: Financial, s: seq<Financial>, bound: int)
    requires bound <= x.dateCreated
    requires forall k :: 0 <= k < |s| ==> bound <= s[k].dateCreated
    ensures forall k :: 0 <= k < |InsertByDate(x, s)| ==> bound <= InsertByDate(x, s)[k].dateCreated
  {
    if !(s == [] || x.dateCreated <= s[0].dateCreated) {
      InsertByDateLowerBound(x, s[1..], bound);
    }
  }

  lemma {:induction false} InsertByDateSorted(x: Financial, s: seq<Financial>)
    requires SortedByDate(s)
    ensures SortedByDate(InsertByDate(x, s))
  {
    var r := InsertByDate(x, s);
    if !(s == [] || x.dateCreated <= s[0].dateCreated) {
      var t := InsertByDate(x, s[1..]);
      InsertByDateSorted(x, s[1..]);
      InsertByDateLowerBound(x, s[1..], s[0].dateCreated);
      assert r == [s[0]] + t;
      forall i, j | 0 <= i < j < |r| ensures r[i].dateCreated <= r[j].dateCreated {
        assert r[j] == t[j - 1];
        if i > 0 {
          assert r[i] == t[i - 1];
        }
      }
    }
  }

  lemma {:induction false} SortByDateSorted(s: seq<Financial>)
    ensures SortedByDate(SortByDate(s))
  {
    if s != [] {
      SortByDateSorted(s[1..]);
      InsertByDateSorted(s[0], SortByDate(s[1..]));
    }
  }

  lemma {:induction false} SortByDatePermutes(s: seq<Financial>)
    ensures multiset(SortByDate(s)) == multiset(s)
    ensures Total(SortByDate(s)) == Total(s)
  {
    if s != [] {
      SortByDatePermutes(s[1..]);
      InsertByDateAdds(s[0], SortByDate(s[1..]));
      assert s == [s[0]] + s[1..];
    }
  }

  lemma {:induction false} SortByDateStable(s: seq<Financial>, d: int)
    ensures WithKey(SortByDate(s), DateOf, d) == WithKey(s, DateOf, d)
  {
    if s != [] {
      SortByDateStable(s[1..], d);
      InsertByDateStable(s[0], SortByDate(s[1..]), d);
      assert s == [s[0]] + s[1..];
      WithKeyAppend([s[0]], s[1..], DateOf, d);
    }
  }

  /**
   * `sortedBy { it.dateCreated }`: a permutation sorted by date with the same
   * total, in which transactions of one date keep their order.
   */
  lemma SortByDateSpec(s: seq<Financial>)
    ensures SortedByDate(SortByDate(s))
    ensures multiset(SortByDate(s)) == multiset(s)
    ensures Total(SortByDate(s)) == Total(s)
    ensures forall d :: WithKey(SortByDate(s), DateOf, d) == WithKey(s, DateOf, d)
  {
    SortByDateSorted(s);
    SortByDatePermutes(s);
    forall d ensures WithKey(SortByDate(s), DateOf, d) == WithKey(s, DateOf, d) {
      SortByDateStable(s, d);
    }
  }

  /**
   * The mixed list is sorted by date and holds exactly the income and the
   * expenses; transactions of the same date keep their order, income first;
   * and its total is the income total plus the expense total.
   */
  lemma MixedTransactionsSpec(income: seq<Financial>, expense: seq<Financial>)
    ensures var m := MixedTransactions(income, expense);
      && SortedByDate(m)
      && multiset(m) == multiset(income) + multiset(expense)
      && (forall d :: WithKey(m, DateOf, d) == WithKey(income, DateOf, d) + WithKey(expense, DateOf, d))
      && Total(m) == Total(income) + Total(expense)
  {
    SortByDateSpec(income + expense);
    TotalAppend(income, expense);
    forall d ensures WithKey(income + expense, DateOf, d) == WithKey(income, DateOf, d) + WithKey(expense, DateOf, d) {
      WithKeyAppend(income, expense, DateOf, d);
    }
  }

  // --------------------------------------------------------------- cards

  /** The highest-expense card shows for a real category with a non-zero amount. */
  predicate HighestExpenseCardVisible(category: Category, amount: int)
  {
    category.id != DefaultCategoryId && amount != 0
  }

  /** Tapping the card opens the category's transactions, unless it is the default category. */
  function HighestExpenseCardTarget(category: Category): Option<string>
  {
    if category.id != DefaultCategoryId then Some(CategoryTransactionRoute(category.id)) else None
  }

  /**
   * Fed from the dashboard environment, the card shows exactly when the
   * winning group has a positive total and is not the default category's;
   * it then names an expense category whose total is that amount and no
   * smaller than any other, and its tap opens that category's route.
   */
  lemma HighestExpenseCardSpec(financialList: seq<Financial>)
    ensures var category := DashboardEnv.HighestExpenseCategory(financialList);
      var (id, amount) := DashboardEnv.HighestOf(financialList);
      HighestExpenseCardVisible(category, amount) <==> amount > 0 && id != DefaultCategoryId
    ensures var category := DashboardEnv.HighestExpenseCategory(financialList);
      var amount := DashboardEnv.HighestOf(financialList).1;
      var expenses := OfType(financialList, EXPENSE);
      HighestExpenseCardVisible(category, amount) ==>
        && category in Project(expenses, CategoryOf)
        && KeyTotal(expenses, CategoryIdOf, category.id) == amount
        && (forall id :: KeyTotal(expenses, CategoryIdOf, id) <= amount)
        && HighestExpenseCardTarget(category) == Some(CategoryTransactionRoute(category.id))
        && IntArgument(HighestExpenseCardTarget(category).value, CategoryTransactionPrefix) == Some(category.id)
  {
    var category := DashboardEnv.HighestExpenseCategory(financialList);
    DashboardEnv.HighestIsMaximum(financialList);
    DashboardEnv.HighestCategoryCarriesId(financialList);
    if DashboardEnv.HighestOf(financialList).1 > 0 {
      DashboardEnv.HighestIsFirstMaximal(financialList);
    }
    RoutesReadBack(category.id, INCOME);
  }

  /** The income and expense cards open the income/expense page for their own type. */
  lemma CardRoutesReadBack()
    ensures IncomeExpenseRoute(INCOME) != IncomeExpenseRoute(EXPENSE)
    ensures IntArgument(IncomeExpenseRoute(INCOME), IncomeExpensePrefix) == Some(0)
    ensures IntArgument(IncomeExpenseRoute(EXPENSE), IncomeExpensePrefix) == Some(1)
  {
    RoutesInjective(0, 0, INCOME, EXPENSE);
    IntArgumentReadsBack(IncomeExpensePrefix, 0);
    IntArgumentReadsBack(IncomeExpensePrefix, 1);
  }
}
