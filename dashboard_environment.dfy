/**
 * The dashboard environment: its selection state, the "highest expense
 * category" it derives from every transaction, and the two twelve-month line
 * series (income and expense) it feeds to the chart.
 */
module DashboardEnv {
  import opened Collections
  import opened Model

  /** A chart point: `x` is the month index, `y` the amount (kept exact, not as a float). */
  datatype Entry = Entry(x: int, y: int)

  /** `entryTemp`: one zero point per month. */
  const EntryTemp: seq<Entry> := seq(12, i requires 0 <= i < 12 => Entry(i, 0))

  /** Keys of `list.groupBy(key)`, in the order the map iterates them (first appearance). */
  function GroupKeys(fs: seq<Financial>, key: Financial -> int): seq<int>
  {
    Project(DistinctBy(fs, key), key)
  }

  lemma GroupKeysCover(fs: seq<Financial>, key: Financial -> int, k: int)
    requires k !in GroupKeys(fs, key)
    ensures KeyTotal(fs, key, k) == 0
  {
    KeyTotalAbsent(fs, key, k);
  }

  // ---------------------------------------------------------------------------
  // Highest expense category

  /**
   * The scan over the expense groups: `acc` is the running `highest` pair
   * (category id, amount), replaced only when a group total is strictly larger.
   */
  function ScanHighest(keys: seq<int>, expenses: seq<Financial>, acc: (int, int)): (int, int)
  {
    if keys == [] then acc
    else
      var amount := KeyTotal(expenses, CategoryIdOf, keys[0]);
      ScanHighest(keys[1..], expenses, if amount > acc.1 then (keys[0], amount) else acc)
  }

  /** The (category id, amount) pair the scan ends with, starting from (default id, 0). */
  function HighestOf(financialList: seq<Financial>): (int, int)
  {
    var expenses := OfType(financialList, EXPENSE);
    ScanHighest(GroupKeys(expenses, CategoryIdOf), expenses, (DefaultCategoryId, 0))
  }

  /** `categories.find { it.id == id } ?: Category.default`. */
  function FindCategory(categories: seq<Category>, id: int): (c: Category)
    ensures if exists i :: 0 <= i < |categories| && categories[i].id == id
      then exists i :: 0 <= i < |categories| && categories[i] == c && c.id == id
             && forall j :: 0 <= j < i ==> categories[j].id != id
      else c == DefaultCategory
  {
    if categories == [] then DefaultCategory
    else if categories[0].id == id then categories[0]
    else FindCategory(categories[1..], id)
  }

  /** The category reported beside the highest amount. */
  function HighestExpenseCategory(financialList: seq<Financial>): Category
  {
    FindCategory(Project(OfType(financialList, EXPENSE), CategoryOf), HighestOf(financialList).0)
  }

  /**
   * The collect body over all transactions: keep the expenses, group them by
   * category id, and keep the group with the strictly largest total.
   */
  method ComputeHighestExpense(financialList: seq<Financial>) returns (category: Category, amount: int)
    ensures amount == HighestOf(financialList).1
    ensures category == HighestExpenseCategory(financialList)
  {
    var highest := (DefaultCategoryId, 0);
    var financials := OfType(financialList, EXPENSE);
    var categories := Project(financials, CategoryOf);
    var keys := GroupKeys(financials, CategoryIdOf);
    var i := 0;
    while i < |keys|
      invariant 0 <= i <= |keys|
      invariant ScanHighest(keys[i..], financials, highest) == HighestOf(financialList)
    {
      assert keys[i..][1..] == keys[i + 1..];
      var groupAmount := KeyTotal(financials, CategoryIdOf, keys[i]);
      if groupAmount > highest.1 {
        highest := (keys[i], groupAmount);
      }
      i := i + 1;
    }
    category := FindCategory(categories, highest.0);
    amount := highest.1;
  }

  /**
   * What one scan guarantees about its amount: it never drops below the
   * start, it bounds every group it visits, and it stays at the start only
   * when nothing replaced it.
   */
  lemma {:induction false} ScanHighestBound(keys: seq<int>, expenses: seq<Financial>, acc: (int, int))
    ensures var r := ScanHighest(keys, expenses, acc);
      && r.1 >= acc.1
      && (forall j :: 0 <= j < |keys| ==> KeyTotal(expenses, CategoryIdOf, keys[j]) <= r.1)
      && (r.1 == acc.1 ==> r == acc)
  {
    if keys != [] {
      var amount := KeyTotal(expenses, CategoryIdOf, keys[0]);
      var acc' := if amount > acc.1 then (keys[0], amount) else acc;
      ScanHighestBound(keys[1..], expenses, acc');
      var r := ScanHighest(keys, expenses, acc);
      assert r == ScanHighest(keys[1..], expenses, acc');
      forall j | 0 <= j < |keys| ensures KeyTotal(expenses, CategoryIdOf, keys[j]) <= r.1 {
        if j > 0 { assert keys[j] == keys[1..][j - 1]; }
      }
    }
  }

  /**
   * When the scan rose above its start, it ended on the first group (in
   * visiting order) reaching the final total: the strict `>` keeps ties on
   * the earlier group.
   */
  lemma {:induction false} ScanHighestFirst(keys: seq<int>, expenses: seq<Financial>, acc: (int, int))
    ensures var r := ScanHighest(keys, expenses, acc);
      r.1 > acc.1 ==>
        exists p :: 0 <= p < |keys| && keys[p] == r.0
          && KeyTotal(expenses, CategoryIdOf, keys[p]) == r.1
          && forall j :: 0 <= j < p ==> KeyTotal(expenses, CategoryIdOf, keys[j]) < r.1
  {
    if keys != [] {
      var amount := KeyTotal(expenses, CategoryIdOf, keys[0]);
      var acc' := if amount > acc.1 then (keys[0], amount) else acc;
      ScanHighestBound(keys[1..], expenses, acc');
      var r := ScanHighest(keys, expenses, acc);
      assert r == ScanHighest(keys[1..], expenses, acc');
      if r.1 > acc.1 {
        if r.1 == acc'.1 {
          assert r == acc' && amount > acc.1;
          assert keys[0] == r.0 && KeyTotal(expenses, CategoryIdOf, keys[0]) == r.1;
        } else {
          ScanHighestFirst(keys[1..], expenses, acc');
          var p :| 0 <= p < |keys[1..]| && keys[1..][p] == r.0
            && KeyTotal(expenses, CategoryIdOf, keys[1..][p]) == r.1
            && forall j :: 0 <= j < p ==> KeyTotal(expenses, CategoryIdOf, keys[1..][j]) < r.1;
          assert keys[p + 1] == r.0;
          forall j | 0 <= j < p + 1 ensures KeyTotal(expenses, CategoryIdOf, keys[j]) < r.1 {
            if j > 0 { assert keys[j] == keys[1..][j - 1]; }
          }
        }
      }
    }
  }

  /**
   * The reported amount is never negative and is at least the expense total of
   * every category id; when it is 0 (no category total is positive) the id is
   * the default one.
   */
  lemma HighestIsMaximum(financialList: seq<Financial>)
    ensures var expenses := OfType(financialList, EXPENSE);
      && HighestOf(financialList).1 >= 0
      && (forall id :: KeyTotal(expenses, CategoryIdOf, id) <= HighestOf(financialList).1)
      && (HighestOf(financialList).1 == 0 ==> HighestOf(financialList).0 == DefaultCategoryId)
      && (HighestOf(financialList).1 > 0 <==> exists id :: KeyTotal(expenses, CategoryIdOf, id) > 0)
  {
    var expenses := OfType(financialList, EXPENSE);
    var keys := GroupKeys(expenses, CategoryIdOf);
    ScanHighestBound(keys, expenses, (DefaultCategoryId, 0));
    ScanHighestFirst(keys, expenses, (DefaultCategoryId, 0));
    var r := HighestOf(financialList);
    forall id ensures KeyTotal(expenses, CategoryIdOf, id) <= r.1 {
      if id in keys {
        var j :| 0 <= j < |keys| && keys[j] == id;
      } else {
        GroupKeysCover(expenses, CategoryIdOf, id);
      }
    }
    if r.1 > 0 {
      var p :| 0 <= p < |keys| && keys[p] == r.0 && KeyTotal(expenses, CategoryIdOf, keys[p]) == r.1
        && forall j :: 0 <= j < p ==> KeyTotal(expenses, CategoryIdOf, keys[j]) < r.1;
    }
  }

  /**
   * When the amount is positive it is the expense total of the reported
   * category, that category is one of the expenses' categories, and no group
   * visited before it reaches the same total: ties go to the first group.
   */
  lemma HighestIsFirstMaximal(financialList: seq<Financial>)
    requires HighestOf(financialList).1 > 0
    ensures var expenses := OfType(financialList, EXPENSE);
      var keys := GroupKeys(expenses, CategoryIdOf);
      var (id, amount) := HighestOf(financialList);
      && HighestExpenseCategory(financialList).id == id
      && HighestExpenseCategory(financialList) in Project(expenses, CategoryOf)
      && KeyTotal(expenses, CategoryIdOf, id) == amount
      && exists p :: 0 <= p < |keys| && keys[p] == id
           && forall j :: 0 <= j < p ==> KeyTotal(expenses, CategoryIdOf, keys[j]) < amount
  {
    var expenses := OfType(financialList, EXPENSE);
    var keys := GroupKeys(expenses, CategoryIdOf);
    ScanHighestFirst(keys, expenses, (DefaultCategoryId, 0));
    var (id, amount) := HighestOf(financialList);
    var p :| 0 <= p < |keys| && keys[p] == id && KeyTotal(expenses, CategoryIdOf, keys[p]) == amount
      && forall j :: 0 <= j < p ==> KeyTotal(expenses, CategoryIdOf, keys[j]) < amount;
    var d := DistinctBy(expenses, CategoryIdOf);
    assert d[p] in expenses && d[p].category.id == id;
    var q :| 0 <= q < |expenses| && expenses[q] == d[p];
    var categories := Project(expenses, CategoryOf);
    assert categories[q].id == id;
  }

  /** Whatever the amount, the reported category carries the reported id. */
  lemma HighestCategoryCarriesId(financialList: seq<Financial>)
    ensures HighestExpenseCategory(financialList).id == HighestOf(financialList).0
  {
    HighestIsMaximum(financialList);
    if HighestOf(financialList).1 > 0 {
      HighestIsFirstMaximal(financialList);
    }
  }

  /**
   * With no positive expense total, and no expense filed under the default
   * category id, the reported category is `Category.default` itself.
   */
  lemma HighestDefaultWhenNothingPositive(financialList: seq<Financial>)
    requires HighestOf(financialList).1 == 0
    requires forall f :: f in OfType(financialList, EXPENSE) ==> f.category.id != DefaultCategoryId
    ensures HighestExpenseCategory(financialList) == DefaultCategory
  {
    HighestStaysDefault(financialList);
    var expenses := OfType(financialList, EXPENSE);
    var categories := Project(expenses, CategoryOf);
    forall i | 0 <= i < |categories| ensures categories[i].id != DefaultCategoryId {
      assert expenses[i] in expenses;
    }
  }

  /**
   * With no positive expense total but an expense filed under the default
   * category id, the lookup by the default id finds that expense's category,
   * which need not be `Category.default`.
   */
  lemma HighestDefaultIdFound(financialList: seq<Financial>, f: Financial)
    requires HighestOf(financialList).1 == 0
    requires f in OfType(financialList, EXPENSE) && f.category.id == DefaultCategoryId
    ensures HighestExpenseCategory(financialList) in Project(OfType(financialList, EXPENSE), CategoryOf)
    ensures HighestExpenseCategory(financialList).id == DefaultCategoryId
  {
    HighestStaysDefault(financialList);
    var expenses := OfType(financialList, EXPENSE);
    var categories := Project(expenses, CategoryOf);
    var i :| 0 <= i < |expenses| && expenses[i] == f;
    FindCategoryPresent(categories, DefaultCategoryId, i);
  }

  /** A scan that never rose ends where it started. */
  lemma HighestStaysDefault(financialList: seq<Financial>)
    requires HighestOf(financialList).1 == 0
    ensures HighestOf(financialList) == (DefaultCategoryId, 0)
  {
    var expenses := OfType(financialList, EXPENSE);
    ScanHighestBound(GroupKeys(expenses, CategoryIdOf), expenses, (DefaultCategoryId, 0));
  }

  /** A lookup for an id some category carries returns one of the categories, with that id. */
  lemma FindCategoryPresent(categories: seq<Category>, id: int, i: nat)
    requires i < |categories| && categories[i].id == id
    ensures FindCategory(categories, id) in categories && FindCategory(categories, id).id == id
  {
    var c := FindCategory(categories, id);
    var j :| 0 <= j < |categories| && categories[j] == c && c.id == id;
  }

  /** A transaction that is not an expense, wherever it sits, changes neither result. */
  lemma HighestIgnoresNonExpense(before: seq<Financial>, f: Financial, after: seq<Financial>)
    requires f.financialType != EXPENSE
    ensures HighestOf(before + [f] + after) == HighestOf(before + after)
    ensures HighestExpenseCategory(before + [f] + after) == HighestExpenseCategory(before + after)
  {
    ExpensesIgnoreNonExpense(before, f, after);
  }

  lemma ExpensesIgnoreNonExpense(before: seq<Financial>, f: Financial, after: seq<Financial>)
    requires f.financialType != EXPENSE
    ensures OfType(before + [f] + after, EXPENSE) == OfType(before + after, EXPENSE)
  {
    OfTypeAppend(before + [f], after, EXPENSE);
    OfTypeAppend(before, [f], EXPENSE);
    OfTypeAppend(before, after, EXPENSE);
    assert OfType([f], EXPENSE) == [] + OfType([], EXPENSE) == [];
    assert OfType(before, EXPENSE) + [] == OfType(before, EXPENSE);
  }

  /** Only the expenses matter: the result over a list equals the result over its expenses. */
  lemma HighestDependsOnExpensesOnly(financialList: seq<Financial>)
    ensures HighestOf(OfType(financialList, EXPENSE)) == HighestOf(financialList)
    ensures HighestExpenseCategory(OfType(financialList, EXPENSE)) == HighestExpenseCategory(financialList)
  {
    OfTypeIdempotent(financialList, EXPENSE);
  }

  // ---------------------------------------------------------------------------
  // Twelve-month line series

  /** The series the chart shows: point `m` holds the total of the list's transactions in month `m`. */
  function MonthSeries(list: seq<Financial>): (r: seq<Entry>)
    ensures |r| == 12
    ensures forall m :: 0 <= m < 12 ==> r[m].x == m
  {
    seq(12, m requires 0 <= m < 12 => Entry(m, KeyTotal(list, MonthOf, m)))
  }

  function SumY(entries: seq<Entry>): int
  {
    if entries == [] then 0 else entries[0].y + SumY(entries[1..])
  }

  lemma {:induction false} SumYKeyTotals(entries: seq<Entry>, list: seq<Financial>, ks: seq<int>)
    requires |entries| == |ks|
    requires forall i :: 0 <= i < |ks| ==> entries[i].y == KeyTotal(list, MonthOf, ks[i])
    ensures SumY(entries) == SumKeyTotals(list, MonthOf, ks)
  {
    if entries != [] {
      SumYKeyTotals(entries[1..], list, ks[1..]);
    }
  }

  /** A month without transactions stays at 0. */
  lemma MonthSeriesEmptyMonth(list: seq<Financial>, m: Month)
    requires forall f :: f in list ==> MonthOf(f) != m
    ensures MonthSeries(list)[m] == Entry(m, 0)
  {
    KeyTotalAbsent(list, MonthOf, m);
  }

  /** The twelve points together account for every transaction of the list. */
  lemma MonthSeriesSum(list: seq<Financial>)
    ensures |MonthSeries(list)| == 12
    ensures SumY(MonthSeries(list)) == Total(list)
  {
    var series := MonthSeries(list);
    assert forall i :: 0 <= i < 12 ==> series[i].y == KeyTotal(list, MonthOf, AllMonths[i]);
    SumYKeyTotals(series, list, AllMonths);
    MonthsCovered(list);
    SumKeyTotalsCover(list, MonthOf, AllMonths);
  }

  lemma MonthsCovered(list: seq<Financial>)
    ensures Distinct(AllMonths)
    ensures forall f :: f in list ==> MonthOf(f) in AllMonths
  {
    forall f | f in list ensures MonthOf(f) in AllMonths {
      var m := MonthOf(f);
      assert 0 <= m < 12;
      assert AllMonths[m] == m;
    }
  }

  /**
   * Writes the totals of `list` into a copy of `entryTemp`, one slot per month
   * group, in group order.
   */
  method FillMonthEntries(entries: array<Entry>, list: seq<Financial>)
    requires entries.Length == 12 && entries[..] == EntryTemp
    modifies entries
    ensures entries[..] == MonthSeries(list)
  {
    var keys := GroupKeys(list, MonthOf);
    var j := 0;
    while j < |keys|
      invariant 0 <= j <= |keys|
      invariant Filled(entries[..], keys[..j], list)
    {
      KeyIsMonth(list, j);
      var entryIndex := keys[j];
      var entry := Entry(entryIndex, KeyTotal(list, MonthOf, entryIndex));
      ghost var before := entries[..];
      FillStep(before, keys[..j], entryIndex, list);
      entries[entryIndex] := entry;
      assert entries[..] == before[entryIndex := entry];
      TakeOneMore(keys, j);
      j := j + 1;
    }
    assert keys[..j] == keys;
    FilledIsSeries(entries[..], list);
  }

  lemma TakeOneMore(s: seq<int>, j: nat)
    requires j < |s|
    ensures s[..j + 1] == s[..j] + [s[j]]
  {
  }

  /** The slots of the months in `done` hold their totals; every other slot is still zero. */
  ghost predicate Filled(filled: seq<Entry>, done: seq<int>, list: seq<Financial>)
  {
    |filled| == 12 &&
    forall m :: 0 <= m < 12 ==>
      filled[m] == if m in done then Entry(m, KeyTotal(list, MonthOf, m)) else Entry(m, 0)
  }

  lemma FillStep(filled: seq<Entry>, done: seq<int>, k: int, list: seq<Financial>)
    requires Filled(filled, done, list) && 0 <= k < 12
    ensures Filled(filled[k := Entry(k, KeyTotal(list, MonthOf, k))], done + [k], list)
  {
  }

  /** Slots of the months that have a group hold its total; the others kept their zero. */
  lemma FilledIsSeries(filled: seq<Entry>, list: seq<Financial>)
    requires Filled(filled, GroupKeys(list, MonthOf), list)
    ensures filled == MonthSeries(list)
  {
    forall m | 0 <= m < 12 ensures filled[m] == MonthSeries(list)[m] {
      if m !in GroupKeys(list, MonthOf) {
        GroupKeysCover(list, MonthOf, m);
      }
    }
  }

  lemma KeyIsMonth(list: seq<Financial>, j: int)
    requires 0 <= j < |GroupKeys(list, MonthOf)|
    ensures 0 <= GroupKeys(list, MonthOf)[j] < 12
  {
    var d := DistinctBy(list, MonthOf);
    assert d[j] in list;
    assert GroupKeys(list, MonthOf)[j] == MonthOf(d[j]);
  }

  class DashboardEnvironment {
    var selectedSortType: SortType
    var selectedGroupType: GroupType
    var selectedMonth: seq<int>
    var filterDate: (int, int)
    var highestExpenseCategory: Category
    var highestExpenseCategoryAmount: int
    var incomeEntry: seq<Entry>
    var expenseEntry: seq<Entry>
    /** The shared `entryTemp` list; nothing ever writes to it. */
    const entryTemp: array<Entry>

    ghost predicate Valid()
      reads this, entryTemp
    {
      entryTemp.Length == 12 && entryTemp[..] == EntryTemp
      && |incomeEntry| == 12 && |expenseEntry| == 12
    }

    constructor ()
      ensures Valid() && fresh(entryTemp)
      ensures selectedSortType == A_TO_Z && selectedGroupType == DEFAULT_GROUP
      ensures selectedMonth == AllMonths && filterDate == FilterDateDefault
      ensures highestExpenseCategory == DefaultCategory && highestExpenseCategoryAmount == 0
      ensures incomeEntry == EntryTemp && expenseEntry == EntryTemp
    {
      selectedSortType := A_TO_Z;
      selectedGroupType := DEFAULT_GROUP;
      selectedMonth := AllMonths;
      filterDate := FilterDateDefault;
      highestExpenseCategory := DefaultCategory;
      highestExpenseCategoryAmount := 0;
      incomeEntry := EntryTemp;
      expenseEntry := EntryTemp;
      entryTemp := new Entry[12](i requires 0 <= i < 12 => Entry(i, 0));
    }

    method SetSortType(sortType: SortType)
      modifies this`selectedSortType
      ensures selectedSortType == sortType
    {
      selectedSortType := sortType;
    }

    method SetGroupType(groupType: GroupType)
      modifies this`selectedGroupType
      ensures selectedGroupType == groupType
    {
      selectedGroupType := groupType;
    }

    method SetFilterDate(date: (int, int))
      modifies this`filterDate
      ensures filterDate == date
    {
      filterDate := date;
    }

    method SetSelectedMonth(months: seq<int>)
      modifies this`selectedMonth
      ensures selectedMonth == months
    {
      selectedMonth := months;
    }

    /**
     * `getLineDataSetEntry`: copies `entryTemp` twice and fills the copies
     * month by month. It changes no state, so `entryTemp` keeps its zeros.
     */
    method GetLineDataSetEntry(incomeList: seq<Financial>, expenseList: seq<Financial>)
      returns (incomeListEntry: seq<Entry>, expenseListEntry: seq<Entry>)
      requires Valid()
      ensures incomeListEntry == MonthSeries(incomeList)
      ensures expenseListEntry == MonthSeries(expenseList)
      ensures entryTemp[..] == EntryTemp
    {
      var incomeEntries := new Entry[12](i requires 0 <= i < 12 reads entryTemp => entryTemp[i]);
      var expenseEntries := new Entry[12](i requires 0 <= i < 12 reads entryTemp => entryTemp[i]);
      FillMonthEntries(incomeEntries, incomeList);
      FillMonthEntries(expenseEntries, expenseList);
      incomeListEntry, expenseListEntry := incomeEntries[..], expenseEntries[..];
    }

    /** The first collect body, without the sorter: recompute both line series. */
    method UpdateLineEntries(financials: seq<Financial>)
      requires Valid()
      modifies this`incomeEntry, this`expenseEntry
      ensures Valid()
      ensures incomeEntry == MonthSeries(OfType(financials, INCOME))
      ensures expenseEntry == MonthSeries(OfType(financials, EXPENSE))
    {
      incomeEntry, expenseEntry := GetLineDataSetEntry(OfType(financials, INCOME), OfType(financials, EXPENSE));
    }

    /** The second collect body: recompute the highest expense category and its amount. */
    method UpdateHighestExpense(financialList: seq<Financial>)
      requires Valid()
      modifies this`highestExpenseCategory, this`highestExpenseCategoryAmount
      ensures Valid()
      ensures highestExpenseCategory == HighestExpenseCategory(financialList)
      ensures highestExpenseCategoryAmount == HighestOf(financialList).1
    {
      highestExpenseCategory, highestExpenseCategoryAmount := ComputeHighestExpense(financialList);
    }
  }
}
