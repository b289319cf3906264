/**
 * The records the Dujer screens and environments work on: transactions
 * (`Financial`), their categories and wallets, and the sums taken over them.
 * Money amounts are whole minor units (`int`) instead of `Double`.
 */
module Model {
  import opened Collections

  /** Kind of a transaction; ordinals follow this declaration order. */
  datatype FinancialType = INCOME | EXPENSE | NOTHING | ALL

  datatype Category = Category(id: int, name: string)

  /** `Category.default`: its id marks "no category chosen". Its value is not part of this model. */
  const DefaultCategoryId: int
  const DefaultCategoryName: string
  const DefaultCategory: Category := Category(DefaultCategoryId, DefaultCategoryName)

  datatype Currency = Currency(countryCode: string, symbol: string)

  /** A month of the year, January = 0. */
  type Month = m: int | 0 <= m < 12

  /**
   * The month of a creation timestamp in the device's calendar. Which month a
   * timestamp falls in depends on the locale and time zone, so it is left
   * unspecified.
   */
  const MonthOfDate: int -> Month

  datatype Financial = Financial(
    id: int,
    name: string,
    amount: int,
    financialType: FinancialType,
    category: Category,
    currency: Currency,
    dateCreated: int,
    walletID: int)

  /** Selection values of the environments; only their defaults matter here. */
  datatype SortType = SortType(name: string)
  datatype GroupType = GroupType(name: string)
  const A_TO_Z: SortType := SortType("A_TO_Z")
  const DEFAULT_GROUP: GroupType := GroupType("DEFAULT")

  /** `AppUtil.filterDateDefault`, a (from, to) timestamp pair whose value is not part of this model. */
  const FilterDateDefault: (int, int)

  /** The twelve month indices, the default month selection. */
  const AllMonths: seq<int> := seq(12, i requires 0 <= i < 12 => i)

  /** `Financial.default`, the empty form record. */
  const DefaultFinancial: Financial

  datatype Wallet = Wallet(id: int, name: string, financials: seq<Financial>)

  /** `Wallet.default.id` and `Wallet.cash`. */
  const DefaultWalletId: int
  const CashWallet: Wallet

  function CategoryOf(f: Financial): Category { f.category }
  function CategoryIdOf(f: Financial): int { f.category.id }
  function CategoryKey(c: Category): int { c.id }
  function MonthOf(f: Financial): int { MonthOfDate(f.dateCreated) }

  /** `list.sumOf { it.amount }`. */
  function Total(fs: seq<Financial>): int
  {
    if fs == [] then 0 else fs[0].amount + Total(fs[1..])
  }

  lemma {:induction false} TotalAppend(a: seq<Financial>, b: seq<Financial>)
    ensures Total(a + b) == Total(a) + Total(b)
  {
    if a == [] {
      assert a + b == b;
    } else {
      assert (a + b)[1..] == a[1..] + b;
      TotalAppend(a[1..], b);
    }
  }

  /** `list.filter { it.financialType == t }`. */
  function OfType(fs: seq<Financial>, t: FinancialType): (r: seq<Financial>)
    ensures forall f :: f in r <==> f in fs && f.financialType == t
  {
    if fs == [] then []
    else (if fs[0].financialType == t then [fs[0]] else []) + OfType(fs[1..], t)
  }

  lemma {:induction false} OfTypeAppend(a: seq<Financial>, b: seq<Financial>, t: FinancialType)
    ensures OfType(a + b, t) == OfType(a, t) + OfType(b, t)
  {
    if a == [] {
      assert a + b == b;
    } else {
      assert (a + b)[1..] == a[1..] + b;
      OfTypeAppend(a[1..], b, t);
    }
  }

  /** Filtering on a type twice is filtering once. */
  lemma {:induction false} OfTypeIdempotent(fs: seq<Financial>, t: FinancialType)
    ensures OfType(OfType(fs, t), t) == OfType(fs, t)
  {
    if fs != [] {
      OfTypeIdempotent(fs[1..], t);
      if fs[0].financialType == t {
        assert OfType(fs, t) == [fs[0]] + OfType(fs[1..], t);
        assert OfType(fs, t)[1..] == OfType(fs[1..], t);
      } else {
        assert OfType(fs, t) == [] + OfType(fs[1..], t) == OfType(fs[1..], t);
      }
    }
  }

  /** `list.filter { key(it) == k }`: the group of `k` in `list.groupBy(key)`. */
  function WithKey(fs: seq<Financial>, key: Financial -> int, k: int): (r: seq<Financial>)
    ensures forall f :: f in r <==> f in fs && key(f) == k
  {
    if fs == [] then []
    else (if key(fs[0]) == k then [fs[0]] else []) + WithKey(fs[1..], key, k)
  }

  lemma {:induction false} WithKeyAppend(a: seq<Financial>, b: seq<Financial>, key: Financial -> int, k: int)
    ensures WithKey(a + b, key, k) == WithKey(a, key, k) + WithKey(b, key, k)
  {
    if a == [] {
      assert a + b == b;
    } else {
      assert (a + b)[1..] == a[1..] + b;
      WithKeyAppend(a[1..], b, key, k);
    }
  }

  /** Total amount of the transactions whose key is `k`. */
  function KeyTotal(fs: seq<Financial>, key: Financial -> int, k: int): int
  {
    Total(WithKey(fs, key, k))
  }

  /** A key that no transaction carries totals 0. */
  lemma {:induction false} KeyTotalAbsent(fs: seq<Financial>, key: Financial -> int, k: int)
    requires forall f :: f in fs ==> key(f) != k
    ensures WithKey(fs, key, k) == [] && KeyTotal(fs, key, k) == 0
  {
    if fs != [] {
      assert fs[0] in fs;
      KeyTotalAbsent(fs[1..], key, k);
    }
  }

  /** Sum of the per-key totals over the key list `ks`. */
  function SumKeyTotals(fs: seq<Financial>, key: Financial -> int, ks: seq<int>): int
  {
    if ks == [] then 0 else KeyTotal(fs, key, ks[0]) + SumKeyTotals(fs, key, ks[1..])
  }

  /**
   * Splitting a list into groups loses nothing: when every transaction's key
   * occurs exactly once in `ks`, the group totals add up to the list total.
   */
  lemma {:induction false} SumKeyTotalsCover(fs: seq<Financial>, key: Financial -> int, ks: seq<int>)
    requires Distinct(ks)
    requires forall f :: f in fs ==> key(f) in ks
    ensures SumKeyTotals(fs, key, ks) == Total(fs)
  {
    if fs == [] {
      SumKeyTotalsEmpty(key, ks);
    } else {
      SumKeyTotalsCover(fs[1..], key, ks);
      SumKeyTotalsCons(fs[0], fs[1..], key, ks);
      assert [fs[0]] + fs[1..] == fs;
    }
  }

  lemma {:induction false} SumKeyTotalsEmpty(key: Financial -> int, ks: seq<int>)
    ensures SumKeyTotals([], key, ks) == 0
  {
    if ks != [] {
      SumKeyTotalsEmpty(key, ks[1..]);
    }
  }

  lemma KeyTotalCons(f: Financial, rest: seq<Financial>, key: Financial -> int, k: int)
    ensures KeyTotal([f] + rest, key, k) == KeyTotal(rest, key, k) + (if key(f) == k then f.amount else 0)
  {
    var fs := [f] + rest;
    assert fs[1..] == rest;
    var g := WithKey(rest, key, k);
    if key(f) == k {
      assert WithKey(fs, key, k) == [f] + g;
      assert ([f] + g)[1..] == g;
    } else {
      assert WithKey(fs, key, k) == [] + g == g;
    }
  }

  /** Adding one transaction in front adds its amount to exactly the group of its key. */
  lemma {:induction false} SumKeyTotalsCons(f: Financial, rest: seq<Financial>, key: Financial -> int, ks: seq<int>)
    requires Distinct(ks)
    ensures SumKeyTotals([f] + rest, key, ks)
         == SumKeyTotals(rest, key, ks) + (if key(f) in ks then f.amount else 0)
  {
    if ks != [] {
      DistinctTail(ks, key(f));
      SumKeyTotalsCons(f, rest, key, ks[1..]);
      KeyTotalCons(f, rest, key, ks[0]);
    }
  }
}
