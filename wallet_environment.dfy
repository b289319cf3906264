/**
 * The wallet environment: the type filter applied to the current wallet's
 * transactions, the categories available for the selected wallet and type,
 * and one pie slice per such category.
 */
module WalletEnv {
  import opened Collections
  import opened Model

  /** The `when` on the selected type: which transaction types it keeps. */
  predicate KeepsType(selected: FinancialType, t: FinancialType)
  {
    match selected
    case INCOME => t == INCOME
    case EXPENSE => t == EXPENSE
    case NOTHING => t == INCOME || t == EXPENSE
    case ALL => t == INCOME || t == EXPENSE
  }

  /** `wallet.financials.filter { ... }` on the selected type, order kept. */
  function FilterByType(financials: seq<Financial>, selected: FinancialType): (r: seq<Financial>)
    ensures forall f :: f in r <==> f in financials && KeepsType(selected, f.financialType)
  {
    if financials == [] then []
    else
      var head := if KeepsType(selected, financials[0].financialType) then [financials[0]] else [];
      head + FilterByType(financials[1..], selected)
  }

  /**
   * INCOME keeps exactly the income, EXPENSE exactly the expenses, and NOTHING
   * and ALL keep both and only both.
   */
  lemma {:induction false} FilterByTypeSpec(financials: seq<Financial>, selected: FinancialType)
    ensures selected == INCOME ==> FilterByType(financials, selected) == OfType(financials, INCOME)
    ensures selected == EXPENSE ==> FilterByType(financials, selected) == OfType(financials, EXPENSE)
    ensures selected == NOTHING || selected == ALL ==>
      forall f :: f in FilterByType(financials, selected) <==>
        f in OfType(financials, INCOME) || f in OfType(financials, EXPENSE)
  {
    if financials != [] {
      FilterByTypeSpec(financials[1..], selected);
    }
  }

  /** `incomeList` / `expenseList`: the transactions of one wallet with exactly one type. */
  function WalletTransactions(financials: seq<Financial>, walletID: int, t: FinancialType): (r: seq<Financial>)
    ensures forall f :: f in r <==> f in financials && f.walletID == walletID && f.financialType == t
  {
    if financials == [] then []
    else
      var f := financials[0];
      var head := if f.walletID == walletID && f.financialType == t then [f] else [];
      head + WalletTransactions(financials[1..], walletID, t)
  }

  /** The list the categories and the pie are taken from, for the selected type. */
  function PieSource(financials: seq<Financial>, walletID: int, selected: FinancialType): seq<Financial>
  {
    match selected
    case INCOME => WalletTransactions(financials, walletID, INCOME)
    case EXPENSE => WalletTransactions(financials, walletID, EXPENSE)
    case _ => financials
  }

  /** `list.map { it.category }.distinctBy { it.id }`. */
  function DistinctCategories(list: seq<Financial>): seq<Category>
  {
    DistinctBy(Project(list, CategoryOf), CategoryKey)
  }

  /** The categories offered for the selected wallet and type. */
  function AvailableCategories(financials: seq<Financial>, walletID: int, selected: FinancialType): seq<Category>
  {
    match selected
    case INCOME => DistinctCategories(WalletTransactions(financials, walletID, INCOME))
    case EXPENSE => DistinctCategories(WalletTransactions(financials, walletID, EXPENSE))
    case _ => DistinctCategories(financials)
  }

  /**
   * The categories of a list, once each: ids pairwise distinct, every category
   * taken from the list, and every transaction's category id present.
   */
  lemma DistinctCategoriesSpec(list: seq<Financial>)
    ensures Distinct(Project(DistinctCategories(list), CategoryKey))
    ensures forall c :: c in DistinctCategories(list) ==> exists f :: f in list && f.category == c
    ensures forall f :: f in list ==> f.category.id in Project(DistinctCategories(list), CategoryKey)
  {
    var cats := Project(list, CategoryOf);
    forall c | c in DistinctCategories(list) ensures exists f :: f in list && f.category == c {
      var i :| 0 <= i < |cats| && cats[i] == c;
      assert list[i] in list;
    }
    forall f | f in list ensures f.category.id in Project(DistinctCategories(list), CategoryKey) {
      var i :| 0 <= i < |list| && list[i] == f;
      assert cats[i] == f.category && cats[i] in cats;
      assert CategoryKey(cats[i]) == f.category.id;
    }
  }

  /**
   * For INCOME and EXPENSE the offered categories come only from that wallet's
   * transactions of that type, and cover all of them; for NOTHING and ALL they
   * come from every transaction, whatever its wallet. Ids never repeat.
   */
  lemma AvailableCategoriesSpec(financials: seq<Financial>, walletID: int, selected: FinancialType)
    ensures var r := AvailableCategories(financials, walletID, selected);
      Distinct(Project(r, CategoryKey))
    ensures var r := AvailableCategories(financials, walletID, selected);
      selected == INCOME || selected == EXPENSE ==>
        && (forall c :: c in r ==>
              exists f :: f in financials && f.walletID == walletID && f.financialType == selected && f.category == c)
        && (forall f :: f in financials && f.walletID == walletID && f.financialType == selected ==>
              f.category.id in Project(r, CategoryKey))
    ensures var r := AvailableCategories(financials, walletID, selected);
      selected == NOTHING || selected == ALL ==>
        && (forall c :: c in r ==> exists f :: f in financials && f.category == c)
        && (forall f :: f in financials ==> f.category.id in Project(r, CategoryKey))
  {
    DistinctCategoriesSpec(PieSource(financials, walletID, selected));
  }

  /** A pie slice: the category's name, its id and its total. */
  datatype PieEntry = PieEntry(categoryName: string, categoryId: int, amount: int)

  /** One slice per category, in category order, holding the total of that category's transactions. */
  function PieEntries(financials: seq<Financial>, categories: seq<Category>): seq<PieEntry>
  {
    seq(|categories|, i requires 0 <= i < |categories| =>
      PieEntry(categories[i].name, categories[i].id, KeyTotal(financials, CategoryIdOf, categories[i].id)))
  }

  /**
   * `calculatePieEntry`: first pairs every category with its transactions,
   * then turns every pair into a slice.
   */
  method CalculatePieEntry(financials: seq<Financial>, categories: seq<Category>) returns (entries: seq<PieEntry>)
    ensures entries == PieEntries(financials, categories)
  {
    var grouped: seq<(Category, seq<Financial>)> := [];
    var i := 0;
    while i < |categories|
      invariant 0 <= i <= |categories|
      invariant |grouped| == i
      invariant forall k :: 0 <= k < i ==>
        grouped[k] == (categories[k], WithKey(financials, CategoryIdOf, categories[k].id))
    {
      grouped := grouped + [(categories[i], WithKey(financials, CategoryIdOf, categories[i].id))];
      i := i + 1;
    }
    entries := [];
    var j := 0;
    while j < |grouped|
      invariant 0 <= j <= |grouped|
      invariant entries == PieEntries(financials, categories[..j])
    {
      var (category, group) := grouped[j];
      PieEntriesSnoc(financials, categories, j);
      entries := entries + [PieEntry(category.name, category.id, Total(group))];
      j := j + 1;
    }
    assert categories[..j] == categories;
  }

  lemma PieEntriesSnoc(financials: seq<Financial>, categories: seq<Category>, j: nat)
    requires j < |categories|
    ensures PieEntries(financials, categories[..j + 1]) == PieEntries(financials, categories[..j]) +
      [PieEntry(categories[j].name, categories[j].id, KeyTotal(financials, CategoryIdOf, categories[j].id))]
  {
  }

  function SumAmounts(entries: seq<PieEntry>): int
  {
    if entries == [] then 0 else entries[0].amount + SumAmounts(entries[1..])
  }

  lemma {:induction false} SumAmountsKeyTotals(entries: seq<PieEntry>, financials: seq<Financial>, ks: seq<int>)
    requires |entries| == |ks|
    requires forall i :: 0 <= i < |ks| ==> entries[i].amount == KeyTotal(financials, CategoryIdOf, ks[i])
    ensures SumAmounts(entries) == SumKeyTotals(financials, CategoryIdOf, ks)
  {
    if entries != [] {
      SumAmountsKeyTotals(entries[1..], financials, ks[1..]);
    }
  }

  /** A category without transactions gets a zero slice. */
  lemma PieEntryWithoutTransactions(financials: seq<Financial>, categories: seq<Category>, i: int)
    requires 0 <= i < |categories|
    requires forall f :: f in financials ==> f.category.id != categories[i].id
    ensures PieEntries(financials, categories)[i].amount == 0
  {
    KeyTotalAbsent(financials, CategoryIdOf, categories[i].id);
  }

  /**
   * With the categories derived from the same list, as the environment does,
   * the slices add up to the list's total: nothing is counted twice or lost.
   */
  lemma PieEntriesSumToTotal(financials: seq<Financial>, walletID: int, selected: FinancialType)
    ensures var source := PieSource(financials, walletID, selected);
      SumAmounts(PieEntries(source, AvailableCategories(financials, walletID, selected))) == Total(source)
  {
    var source := PieSource(financials, walletID, selected);
    var categories := AvailableCategories(financials, walletID, selected);
    assert categories == DistinctCategories(source);
    var ks := Project(categories, CategoryKey);
    DistinctCategoriesSpec(source);
    SumAmountsKeyTotals(PieEntries(source, categories), source, ks);
    SumKeyTotalsCover(source, CategoryIdOf, ks);
  }

  class WalletEnvironment {
    var availableCategory: seq<Category>
    var currentWallet: Wallet
    var selectedFinancialType: FinancialType
    var selectedSortType: SortType
    var selectedGroupType: GroupType
    var selectedMonth: seq<int>
    var filterDate: (int, int)
    var pieEntry: seq<PieEntry>
    var lastSelectedWalletID: int

    constructor ()
      ensures availableCategory == [] && currentWallet == CashWallet
      ensures selectedFinancialType == INCOME
      ensures selectedSortType == A_TO_Z && selectedGroupType == DEFAULT_GROUP
      ensures selectedMonth == AllMonths && filterDate == FilterDateDefault
      ensures pieEntry == [] && lastSelectedWalletID == DefaultWalletId
    {
      availableCategory := [];
      currentWallet := CashWallet;
      selectedFinancialType := INCOME;
      selectedSortType := A_TO_Z;
      selectedGroupType := DEFAULT_GROUP;
      selectedMonth := AllMonths;
      filterDate := FilterDateDefault;
      pieEntry := [];
      lastSelectedWalletID := DefaultWalletId;
    }

    /** The current wallet's transactions the first collect body hands to the sorter. */
    function FilteredTransactions(): (r: seq<Financial>)
      reads this
      ensures forall f :: f in r <==>
        f in currentWallet.financials && KeepsType(selectedFinancialType, f.financialType)
    {
      FilterByType(currentWallet.financials, selectedFinancialType)
    }

    /**
     * `setWalletID`: the id is emitted twice (the default id, then `id`), so
     * the last one wins; `wallet` is what the repository returns for `id`.
     */
    method SetWalletID(id: int, wallet: Wallet)
      modifies this`lastSelectedWalletID, this`currentWallet
      ensures lastSelectedWalletID == id && currentWallet == wallet
    {
      lastSelectedWalletID := DefaultWalletId;
      lastSelectedWalletID := id;
      currentWallet := wallet;
    }

    method SetSortType(sortType: SortType)
      modifies this`selectedSortType
      ensures selectedSortType == sortType
    {
      selectedSortType := sortType;
    }

    method SetGroupType(groupType: GroupType)
      modifies this`selectedGroupType
      ensures selectedGroupType == groupType
    {
      selectedGroupType := groupType;
    }

    method SetFilterDate(date: (int, int))
      modifies this`filterDate
      ensures filterDate == date
    {
      filterDate := date;
    }

    method SetSelectedMonth(months: seq<int>)
      modifies this`selectedMonth
      ensures selectedMonth == months
    {
      selectedMonth := months;
    }

    method SetSelectedFinancialType(t: FinancialType)
      modifies this`selectedFinancialType
      ensures selectedFinancialType == t
    {
      selectedFinancialType := t;
    }

    /**
     * The second collect body: recompute the available categories and the pie
     * for the last selected wallet and the selected type.
     */
    method UpdateCategoriesAndPie(financials: seq<Financial>)
      modifies this`availableCategory, this`pieEntry
      ensures availableCategory == AvailableCategories(financials, lastSelectedWalletID, selectedFinancialType)
      ensures pieEntry == PieEntries(PieSource(financials, lastSelectedWalletID, selectedFinancialType), availableCategory)
    {
      var incomeList := WalletTransactions(financials, lastSelectedWalletID, INCOME);
      var expenseList := WalletTransactions(financials, lastSelectedWalletID, EXPENSE);
      var categories := match selectedFinancialType
        case INCOME => DistinctCategories(incomeList)
        case EXPENSE => DistinctCategories(expenseList)
        case _ => DistinctCategories(financials);
      availableCategory := categories;
      var source := match selectedFinancialType
        case INCOME => incomeList
        case EXPENSE => expenseList
        case _ => financials;
      pieEntry := CalculatePieEntry(source, categories);
    }
  }
}
