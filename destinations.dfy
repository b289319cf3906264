/**
 * The navigation routes of the app: the fixed routes, the templates with a
 * `{placeholder}` for an argument, and the `createRoute` builders that put a
 * decimal number (or a type's ordinal, or an action name) in its place.
 */
module Destinations {
  import opened Collections
  import opened Model

  // ---------------------------------------------------------------- numbers

  predicate IsDigit(c: char) { '0' <= c <= '9' }

  predicate AllDigits(s: string) { forall i :: 0 <= i < |s| ==> IsDigit(s[i]) }

  function DigitChar(d: nat): (c: char)
    requires d < 10
    ensures IsDigit(c) && (c as int) - ('0' as int) == d
  {
    "0123456789"[d]
  }

  /** Decimal digits of `n`, no leading zeros. */
  function NatToString(n: nat): (s: string)
    ensures s != [] && AllDigits(s)
    decreases n
  {
    if n < 10 then [DigitChar(n)] else NatToString(n / 10) + [DigitChar(n % 10)]
  }

  /** Kotlin's string template on an `Int`: a `-` before the digits of a negative number. */
  function IntToString(i: int): string
  {
    if i < 0 then "-" + NatToString(-i) else NatToString(i)
  }

  /** The value of a string of decimal digits. */
  function ParseDigits(s: string): nat
    requires AllDigits(s)
  {
    if s == [] then 0
    else ParseDigits(s[..|s| - 1]) * 10 + ((s[|s| - 1] as int) - ('0' as int))
  }

  /** Reading an integer argument back from a route segment. */
  function ParseInt(s: string): Option<int>
  {
    if |s| > 1 && s[0] == '-' && AllDigits(s[1..]) then
      var n: int := ParseDigits(s[1..]);
      Some(-n)
    else if s != [] && AllDigits(s) then Some(ParseDigits(s))
    else None
  }

  lemma {:induction false} ParseNatToString(n: nat)
    ensures ParseDigits(NatToString(n)) == n
    decreases n
  {
    if n >= 10 {
      var s := NatToString(n);
      ParseNatToString(n / 10);
      assert s[..|s| - 1] == NatToString(n / 10);
    }
  }

  /** Every integer written into a route reads back as itself. */
  lemma ParseIntToString(i: int)
    ensures ParseInt(IntToString(i)) == Some(i)
  {
    var s := IntToString(i);
    if i < 0 {
      var digits := NatToString(-i);
      assert s[1..] == digits && |s| > 1 && s[0] == '-';
      ParseNatToString(-i);
      assert AllDigits(s[1..]);
      var n: int := ParseDigits(s[1..]);
      assert n == -i;
      assert ParseInt(s) == Some(-n);
    } else {
      assert IsDigit(s[0]);
      ParseNatToString(i);
      assert ParseInt(s) == Some(ParseDigits(s) as int);
    }
  }

  lemma IntToStringInjective(a: int, b: int)
    requires IntToString(a) == IntToString(b)
    ensures a == b
  {
    ParseIntToString(a);
    ParseIntToString(b);
  }

  // ---------------------------------------------------------- substitution

  /** `s` with every occurrence of `pattern` replaced by `value`, scanning left to right. */
  function Replace(s: string, pattern: string, value: string): string
    requires pattern != []
    decreases |s|
  {
    if |s| < |pattern| then s
    else if s[..|pattern|] == pattern then value + Replace(s[|pattern|..], pattern, value)
    else [s[0]] + Replace(s[1..], pattern, value)
  }

  /**
   * A placeholder that follows text free of its first character is replaced
   * once, and the scan goes on after it.
   */
  lemma {:induction false} ReplaceAfterLiteral(prefix: string, pattern: string, value: string, rest: string)
    requires pattern != [] && pattern[0] !in prefix
    ensures Replace(prefix + pattern + rest, pattern, value) == prefix + value + Replace(rest, pattern, value)
    decreases |prefix|
  {
    if prefix == [] {
      ReplaceAtPattern(pattern, value, rest);
      assert prefix + pattern + rest == pattern + rest;
    } else {
      var tail := prefix[1..] + pattern + rest;
      ConsThree(prefix, pattern, rest);
      ReplaceSkip(prefix[0], tail, pattern, value);
      ReplaceAfterLiteral(prefix[1..], pattern, value, rest);
      ConsThree(prefix, value, Replace(rest, pattern, value));
    }
  }

  lemma ConsThree(a: string, b: string, c: string)
    requires a != []
    ensures a + b + c == [a[0]] + (a[1..] + b + c)
  {
    assert a == [a[0]] + a[1..];
  }

  lemma ReplaceAtPattern(pattern: string, value: string, rest: string)
    requires pattern != []
    ensures Replace(pattern + rest, pattern, value) == value + Replace(rest, pattern, value)
  {
    var s := pattern + rest;
    assert s[..|pattern|] == pattern && s[|pattern|..] == rest;
  }

  lemma ReplaceSkip(c: char, tail: string, pattern: string, value: string)
    requires pattern != [] && c != pattern[0]
    ensures Replace([c] + tail, pattern, value) == [c] + Replace(tail, pattern, value)
  {
    var s := [c] + tail;
    assert s[1..] == tail;
    if |s| >= |pattern| {
      assert s[..|pattern|][0] == c;
    }
  }

  lemma ReplaceSingle(prefix: string, pattern: string, value: string)
    requires pattern != [] && pattern[0] !in prefix
    ensures Replace(prefix + pattern, pattern, value) == prefix + value
  {
    ReplaceAfterLiteral(prefix, pattern, value, []);
    assert prefix + pattern + [] == prefix + pattern;
  }

  // ---------------------------------------------------------- fixed routes

  const DashboardRoute: string := "dashboard"
  const HomeRoute: string := DashboardRoute + "/home"
  const ExportRoute: string := DashboardRoute + "/export"
  const ChartRoute: string := DashboardRoute + "/chart"
  const SettingRoute: string := "setting"
  const CurrencyRoute: string := "currency"

  /** The fixed routes are pairwise different, and the three dashboard pages sit under the dashboard route. */
  lemma FixedRoutesDistinct()
    ensures Distinct([DashboardRoute, HomeRoute, ExportRoute, ChartRoute, SettingRoute, CurrencyRoute])
    ensures forall r :: r in [HomeRoute, ExportRoute, ChartRoute] ==>
      |r| > |DashboardRoute| + 1 && r[..|DashboardRoute| + 1] == DashboardRoute + "/"
  {
    var rs := [DashboardRoute, HomeRoute, ExportRoute, ChartRoute, SettingRoute, CurrencyRoute];
    assert |DashboardRoute| == 9 && |HomeRoute| == 14 && |ExportRoute| == 16 && |ChartRoute| == 15;
    assert HomeRoute[10] == 'h' && ExportRoute[10] == 'e' && ChartRoute[10] == 'c';
    assert DashboardRoute[0] == 'd' && SettingRoute[0] == 's' && CurrencyRoute[0] == 'c';
    assert |SettingRoute| == 7 && |CurrencyRoute| == 8;
  }

  // --------------------------------------------------------- route builders

  const WalletPrefix: string := "wallet/"
  const StatisticPrefix: string := "statistic/"
  const CategoryTransactionPrefix: string := "category_transaction/"
  const IncomeExpensePrefix: string := "incomeExpense/"
  const CategoryPrefix: string := "category/"

  /** The route templates: `wallet/{id}`, `statistic/{walletID}`, `category_transaction/{categoryID}`, `incomeExpense/{type}` and `category/{action}/{id}`. */
  const WalletTemplate: string := WalletPrefix + "{id}"
  const StatisticTemplate: string := StatisticPrefix + "{walletID}"
  const CategoryTransactionTemplate: string := CategoryTransactionPrefix + "{categoryID}"
  const IncomeExpenseTemplate: string := IncomeExpensePrefix + "{type}"
  const CategoryTemplate: string := CategoryPrefix + "{action}" + "/{id}"

  function WalletRoute(walletID: int): string { WalletPrefix + IntToString(walletID) }

  function StatisticRoute(walletID: int): string { StatisticPrefix + IntToString(walletID) }

  function CategoryTransactionRoute(categoryID: int): string
  {
    CategoryTransactionPrefix + IntToString(categoryID)
  }

  /**
   * The position of a type in the declaration of `FinancialType`, which is
   * what `ordinal` gives; the declaration order is INCOME, EXPENSE, NOTHING, ALL.
   */
  function Ordinal(t: FinancialType): nat
  {
    match t
    case INCOME => 0
    case EXPENSE => 1
    case NOTHING => 2
    case ALL => 3
  }

  /** `FinancialType.values()[i]`; an index outside the enum has no type. */
  function FromOrdinal(i: int): (r: Option<FinancialType>)
    ensures r.Some? <==> 0 <= i < 4
  {
    if i == 0 then Some(INCOME)
    else if i == 1 then Some(EXPENSE)
    else if i == 2 then Some(NOTHING)
    else if i == 3 then Some(ALL)
    else None
  }

  lemma FromOrdinalInverse(t: FinancialType, i: int)
    ensures FromOrdinal(Ordinal(t)) == Some(t)
    ensures FromOrdinal(i).Some? ==> Ordinal(FromOrdinal(i).value) == i
  {
  }

  function IncomeExpenseRoute(t: FinancialType): string
  {
    IncomeExpensePrefix + IntToString(Ordinal(t))
  }

  /** `CategorySwipeAction.NOTHING`, the default action; its text is not part of this model. */
  const CategorySwipeActionNothing: string

  function CategoryRoute(action: string, id: int): string
  {
    CategoryPrefix + action + "/" + IntToString(id)
  }

  /** `Category.createRoute()` with both defaults. */
  function DefaultCategoryRoute(): string
  {
    CategoryRoute(CategorySwipeActionNothing, DefaultCategoryId)
  }

  /** Every builder is its template with the placeholder replaced by the decimal argument. */
  lemma RoutesFillTemplates(id: int, t: FinancialType)
    ensures WalletRoute(id) == Replace(WalletTemplate, "{id}", IntToString(id))
    ensures StatisticRoute(id) == Replace(StatisticTemplate, "{walletID}", IntToString(id))
    ensures CategoryTransactionRoute(id) == Replace(CategoryTransactionTemplate, "{categoryID}", IntToString(id))
    ensures IncomeExpenseRoute(t) == Replace(IncomeExpenseTemplate, "{type}", IntToString(Ordinal(t)))
  {
    WalletRouteFills(id);
    StatisticRouteFills(id);
    CategoryTransactionRouteFills(id);
    IncomeExpenseRouteFills(t);
  }

  lemma WalletRouteFills(id: int)
    ensures WalletRoute(id) == Replace(WalletTemplate, "{id}", IntToString(id))
  {
    ReplaceSingle(WalletPrefix, "{id}", IntToString(id));
  }

  lemma StatisticRouteFills(id: int)
    ensures StatisticRoute(id) == Replace(StatisticTemplate, "{walletID}", IntToString(id))
  {
    ReplaceSingle(StatisticPrefix, "{walletID}", IntToString(id));
  }

  lemma CategoryTransactionRouteFills(id: int)
    ensures CategoryTransactionRoute(id) == Replace(CategoryTransactionTemplate, "{categoryID}", IntToString(id))
  {
    ReplaceSingle(CategoryTransactionPrefix, "{categoryID}", IntToString(id));
  }

  lemma IncomeExpenseRouteFills(t: FinancialType)
    ensures IncomeExpenseRoute(t) == Replace(IncomeExpenseTemplate, "{type}", IntToString(Ordinal(t)))
  {
    ReplaceSingle(IncomeExpensePrefix, "{type}", IntToString(Ordinal(t)));
  }

  /**
   * The category route is its template with `{action}` and then `{id}`
   * replaced, for any action text without a `{`.
   */
  lemma CategoryRouteFillsTemplate(action: string, id: int)
    requires '{' !in action
    ensures CategoryRoute(action, id)
         == Replace(Replace(CategoryTemplate, "{action}", action), "{id}", IntToString(id))
  {
    ReplaceAfterLiteral(CategoryPrefix, "{action}", action, "/{id}");
    assert Replace("/{id}", "{action}", action) == "/{id}";
    var p := CategoryPrefix + action + "/";
    assert CategoryPrefix + action + "/{id}" == p + "{id}";
    ReplaceSingle(p, "{id}", IntToString(id));
  }

  // -------------------------------------------------------------- read-back

  /** The text after `prefix`, when `route` starts with it. */
  function After(route: string, prefix: string): Option<string>
  {
    if |prefix| <= |route| && route[..|prefix|] == prefix then Some(route[|prefix|..]) else None
  }

  /** The integer argument of a route built on `prefix`. */
  function IntArgument(route: string, prefix: string): Option<int>
  {
    match After(route, prefix)
    case None => None
    case Some(rest) => ParseInt(rest)
  }

  lemma IntArgumentReadsBack(prefix: string, i: int)
    ensures IntArgument(prefix + IntToString(i), prefix) == Some(i)
  {
    var route := prefix + IntToString(i);
    assert route[..|prefix|] == prefix && route[|prefix|..] == IntToString(i);
    ParseIntToString(i);
  }

  /** Stripping the fixed prefix reads every builder's argument back, so each builder is injective. */
  lemma RoutesReadBack(id: int, t: FinancialType)
    ensures IntArgument(WalletRoute(id), WalletPrefix) == Some(id)
    ensures IntArgument(StatisticRoute(id), StatisticPrefix) == Some(id)
    ensures IntArgument(CategoryTransactionRoute(id), CategoryTransactionPrefix) == Some(id)
    ensures match IntArgument(IncomeExpenseRoute(t), IncomeExpensePrefix)
      case Some(i) => FromOrdinal(i) == Some(t)
      case None => false
  {
    IntArgumentReadsBack(WalletPrefix, id);
    IntArgumentReadsBack(StatisticPrefix, id);
    IntArgumentReadsBack(CategoryTransactionPrefix, id);
    IntArgumentReadsBack(IncomeExpensePrefix, Ordinal(t));
  }

  lemma RoutesInjective(a: int, b: int, s: FinancialType, t: FinancialType)
    ensures WalletRoute(a) == WalletRoute(b) ==> a == b
    ensures StatisticRoute(a) == StatisticRoute(b) ==> a == b
    ensures CategoryTransactionRoute(a) == CategoryTransactionRoute(b) ==> a == b
    ensures IncomeExpenseRoute(s) == IncomeExpenseRoute(t) ==> s == t
  {
    RoutesReadBack(a, s);
    RoutesReadBack(b, t);
  }

  /** Index of the last `c` in `s`, or -1. */
  function LastIndexOf(s: string, c: char): (i: int)
    ensures -1 <= i < |s|
    ensures i >= 0 ==> s[i] == c
    ensures forall j :: i < j < |s| ==> s[j] != c
  {
    if s == [] then -1
    else if s[|s| - 1] == c then |s| - 1
    else LastIndexOf(s[..|s| - 1], c)
  }

  /**
   * The action and id of a category route: the id is what follows the last
   * `/`, so an action holding `/` is still read back whole.
   */
  function CategoryArguments(route: string): Option<(string, int)>
  {
    match After(route, CategoryPrefix)
    case None => None
    case Some(rest) =>
      var k := LastIndexOf(rest, '/');
      if k < 0 then None
      else match ParseInt(rest[k + 1..])
        case None => None
        case Some(id) => Some((rest[..k], id))
  }

  lemma CategoryRouteReadsBack(action: string, id: int)
    ensures CategoryArguments(CategoryRoute(action, id)) == Some((action, id))
  {
    var digits := IntToString(id);
    var rest := action + ['/'] + digits;
    assert CategoryRoute(action, id) == CategoryPrefix + rest;
    AfterPrefix(CategoryPrefix, rest);
    IntToStringHasNoSlash(id);
    LastIndexAfter(action, '/', digits);
    assert rest[|action| + 1..] == digits && rest[..|action|] == action;
    ParseIntToString(id);
  }

  lemma AfterPrefix(prefix: string, rest: string)
    ensures After(prefix + rest, prefix) == Some(rest)
  {
    var route := prefix + rest;
    assert route[..|prefix|] == prefix && route[|prefix|..] == rest;
  }

  lemma IntToStringHasNoSlash(i: int)
    ensures forall j :: 0 <= j < |IntToString(i)| ==> IntToString(i)[j] != '/'
  {
    var s := IntToString(i);
    if i < 0 {
      var d := NatToString(-i);
      forall j | 0 <= j < |s| ensures s[j] != '/' {
        if j > 0 {
          assert s[j] == d[j - 1];
        }
      }
    }
  }

  /** With no `c` after it, the `c` between `p` and `q` is the last one. */
  lemma {:induction false} LastIndexAfter(p: string, c: char, q: string)
    requires forall j :: 0 <= j < |q| ==> q[j] != c
    ensures LastIndexOf(p + [c] + q, c) == |p|
    decreases |q|
  {
    var s := p + [c] + q;
    if q != [] {
      assert s[|s| - 1] == q[|q| - 1];
      assert s[..|s| - 1] == p + [c] + q[..|q| - 1];
      LastIndexAfter(p, c, q[..|q| - 1]);
    }
  }

  /** `Category.createRoute()` reads back as the default action and the default category id. */
  lemma DefaultCategoryRouteReadsBack()
    ensures CategoryArguments(DefaultCategoryRoute()) == Some((CategorySwipeActionNothing, DefaultCategoryId))
  {
    CategoryRouteReadsBack(CategorySwipeActionNothing, DefaultCategoryId);
  }

  lemma CategoryRouteInjective(a1: string, i1: int, a2: string, i2: int)
    requires CategoryRoute(a1, i1) == CategoryRoute(a2, i2)
    ensures a1 == a2 && i1 == i2
  {
    CategoryRouteReadsBack(a1, i1);
    CategoryRouteReadsBack(a2, i2);
  }
}
