# Dujer core, modelled in Dafny

Dujer is an Android app for recording income and expenses in wallets. This
project models the logic at the centre of five of its files:

- **Dashboard environment** (`dashboard_environment.dfy`): the dashboard's
  selections and their defaults; the "highest expense category", which
  groups the expenses by category id and keeps the first group with the
  strictly largest total; and the two twelve-month line series (income and
  expense), which are filled into copies of the shared `entryTemp` list.
- **Wallet environment** (`wallet_environment.dfy`): the type filter on the
  current wallet. It also covers the income and expense lists of the last
  selected wallet, the categories available for the selected type (distinct
  by id, in order of first appearance) and one pie slice per category.
- **Financial screen** (`financial_screen.dfy`): the add/edit form's state.
  This covers loading a transaction for editing, the reset when the screen
  is left, cleaning the amount the user types (signs, spaces and leading
  separators, with the cursor rule), and the save button's decision:
  update, insert, or the first failing check.
- **Dashboard screen** (`dashboard_screen.dfy`): the back button's priority
  rule, the navigation rail, and the dashboard's page stack that the rail
  drives. It also covers the list of all transactions sorted by date, and
  when the highest-expense card shows and where its tap leads.
- **Destinations** (`destinations.dfy`): the fixed routes and the route
  templates, and the `createRoute` builders that fill a template with a
  decimal number, a type's ordinal or an action name. Reading the argument
  back shows that every builder is injective.

Two further files hold shared definitions. `collections.dfy` has Kotlin's
`map`, `distinctBy` and the key order of `groupBy`. `model.dfy` has the
records and the sums taken over them.

Money amounts are whole minor units (`int`) in place of `Double`. Code that
works by updating state is modelled with classes whose methods update
fields: the environments, the form and the dashboard screen. The chart
series fill is kept on an `array`. Each method is proved against a
specification function, and the properties are lemmas about those
functions.

When no expense total is positive, the highest-expense category is looked up
by the default category id, as `categories.find { it.id == highest.first }
?: Category.default` does (DashboardEnvironment.kt:109-111). The result is
`Category.default` only when no expense is filed under the default id
(`HighestDefaultWhenNothingPositive`). Such an expense can exist, because
saving an edit does not check the category (FinancialScreen.kt:423-432). In
that case the lookup returns that expense's own category, which carries the
default id but need not equal `Category.default` (`HighestDefaultIdFound`).
The model follows the code here.

## Model

| member | source | states |
|---|---|---|
| Collections.DistinctBy | app/src/main/java/com/anafthdev/dujer/feature/wallet/environment/WalletEnvironment.kt:119-127 | `distinctBy` keeps only elements of the list, keeps one element for every key that occurs, and never repeats a key |
| Collections.DistinctByFirstAppearance | app/src/main/java/com/anafthdev/dujer/feature/wallet/environment/WalletEnvironment.kt:119-127 | for each key, the element kept is the first in the list carrying it, and the kept elements follow the order in which their keys first appear |
| Model.OfType | app/src/main/java/com/anafthdev/dujer/feature/dashboard/environment/DashboardEnvironment.kt:75-76 | the type filter keeps exactly the transactions of that type |
| Model.OfTypeIdempotent | app/src/main/java/com/anafthdev/dujer/feature/dashboard/environment/DashboardEnvironment.kt:97 | filtering on a type a second time changes nothing |
| Model.SumKeyTotalsCover | app/src/main/java/com/anafthdev/dujer/feature/dashboard/environment/DashboardEnvironment.kt:99-102 | `Model.Total` is `sumOf { it.amount }` and `Model.KeyTotal` is that sum over one group (line 102). This lemma: when every transaction's key occurs exactly once in the key list, the group totals add up to the total of the list |
| DashboardEnv.FindCategory | app/src/main/java/com/anafthdev/dujer/feature/dashboard/environment/DashboardEnvironment.kt:109-111 | `find` returns the first category with the id when one exists, and `Category.default` otherwise |
| DashboardEnv.ScanHighestBound | app/src/main/java/com/anafthdev/dujer/feature/dashboard/environment/DashboardEnvironment.kt:101-107 | `ScanHighest` is the `forEachMap` fold over the groups at lines 101-107, replacing the pair only on a strict `>`; `HighestOf` runs it over the expense groups from `(Category.default.id, 0)` (lines 96-99). This lemma: the strict-`>` scan never falls below its start, bounds every group it visits, and stays at its start only when no group beat it |
| DashboardEnv.ScanHighestFirst | app/src/main/java/com/anafthdev/dujer/feature/dashboard/environment/DashboardEnvironment.kt:101-107 | when the scan rises, it ends on the first group reaching its final total, so ties keep the earlier group |
| DashboardEnv.HighestIsMaximum | app/src/main/java/com/anafthdev/dujer/feature/dashboard/environment/DashboardEnvironment.kt:96-107 | the highest amount is at least 0 and at least every category's expense total; it is positive iff some category total is; at 0 the id is the default id |
| DashboardEnv.HighestIsFirstMaximal | app/src/main/java/com/anafthdev/dujer/feature/dashboard/environment/DashboardEnvironment.kt:99-111 | `GroupKeys` is the key order of `groupBy { it.category.id }` (line 99): keys in order of first appearance. This lemma: with a positive amount, the reported category is an expense category carrying the winning id, its total equals the amount, and every group before it in group order totals strictly less (ties go to the first) |
| DashboardEnv.HighestCategoryCarriesId | app/src/main/java/com/anafthdev/dujer/feature/dashboard/environment/DashboardEnvironment.kt:109-111 | `HighestExpenseCategory` is `categories.find { it.id == highest.first } ?: Category.default` over the expenses' categories (lines 98, 109-111). This lemma: the reported category always carries the winning id, including the default id |
| DashboardEnv.HighestDefaultWhenNothingPositive | app/src/main/java/com/anafthdev/dujer/feature/dashboard/environment/DashboardEnvironment.kt:96-111 | with no positive expense total and no expense filed under the default category id, the reported category is `Category.default` itself |
| DashboardEnv.HighestDefaultIdFound | app/src/main/java/com/anafthdev/dujer/feature/dashboard/environment/DashboardEnvironment.kt:96-111 | with no positive expense total but an expense filed under the default category id, the reported category is that expense's category (carrying the default id), not necessarily `Category.default` |
| DashboardEnv.HighestIgnoresNonExpense | app/src/main/java/com/anafthdev/dujer/feature/dashboard/environment/DashboardEnvironment.kt:97 | inserting a non-expense transaction anywhere changes neither the category nor the amount |
| DashboardEnv.HighestDependsOnExpensesOnly | app/src/main/java/com/anafthdev/dujer/feature/dashboard/environment/DashboardEnvironment.kt:97 | the result over a list equals the result over its expenses alone |
| DashboardEnv.ComputeHighestExpense | app/src/main/java/com/anafthdev/dujer/feature/dashboard/environment/DashboardEnvironment.kt:94-116 | the loop over the expense groups returns the amount and category of the specification scan |
| DashboardEnv.MonthSeries | app/src/main/java/com/anafthdev/dujer/feature/dashboard/environment/DashboardEnvironment.kt:214-227 | a series has exactly 12 points, and point m has x = m |
| DashboardEnv.MonthSeriesEmptyMonth | app/src/main/java/com/anafthdev/dujer/feature/dashboard/environment/DashboardEnvironment.kt:182-197 | `EntryTemp` is the twelve zero points `entryTemp` is built from (lines 214-227) and copied at lines 182-183. This lemma: a month with no transactions keeps its zero point |
| DashboardEnv.MonthSeriesSum | app/src/main/java/com/anafthdev/dujer/feature/dashboard/environment/DashboardEnvironment.kt:185-208 | the twelve points together hold the total of the list: no transaction is lost or counted twice |
| DashboardEnv.FillMonthEntries | app/src/main/java/com/anafthdev/dujer/feature/dashboard/environment/DashboardEnvironment.kt:188-208 | the month groups are `GroupKeys` over the month key, the order of `groupBy` at lines 185-186. This method: writing one slot per month group, in group order, into a copy of `entryTemp` yields the month series |
| DashboardEnv.DashboardEnvironment.constructor | app/src/main/java/com/anafthdev/dujer/feature/dashboard/environment/DashboardEnvironment.kt:35-62 | initial selections are A_TO_Z, DEFAULT, all twelve months and the default filter date; the highest category is the default with amount 0; both series are `entryTemp` |
| DashboardEnv.DashboardEnvironment.SetSortType | app/src/main/java/com/anafthdev/dujer/feature/dashboard/environment/DashboardEnvironment.kt:160-162 | replaces the sort type and nothing else |
| DashboardEnv.DashboardEnvironment.SetGroupType | app/src/main/java/com/anafthdev/dujer/feature/dashboard/environment/DashboardEnvironment.kt:164-166 | replaces the group type and nothing else |
| DashboardEnv.DashboardEnvironment.SetFilterDate | app/src/main/java/com/anafthdev/dujer/feature/dashboard/environment/DashboardEnvironment.kt:168-170 | replaces the filter date and nothing else |
| DashboardEnv.DashboardEnvironment.SetSelectedMonth | app/src/main/java/com/anafthdev/dujer/feature/dashboard/environment/DashboardEnvironment.kt:172-174 | replaces the month selection and nothing else |
| DashboardEnv.DashboardEnvironment.GetLineDataSetEntry | app/src/main/java/com/anafthdev/dujer/feature/dashboard/environment/DashboardEnvironment.kt:176-211 | returns the income and expense month series and leaves `entryTemp` all zeros |
| DashboardEnv.DashboardEnvironment.UpdateLineEntries | app/src/main/java/com/anafthdev/dujer/feature/dashboard/environment/DashboardEnvironment.kt:74-91 | the series become the month series of the income and of the expenses, and only they change |
| DashboardEnv.DashboardEnvironment.UpdateHighestExpense | app/src/main/java/com/anafthdev/dujer/feature/dashboard/environment/DashboardEnvironment.kt:94-116 | the stored category and amount become the highest-expense result |
| WalletEnv.FilterByType | app/src/main/java/com/anafthdev/dujer/feature/wallet/environment/WalletEnvironment.kt:81-89 | keeps exactly the wallet's transactions whose type the selection accepts |
| WalletEnv.FilterByTypeSpec | app/src/main/java/com/anafthdev/dujer/feature/wallet/environment/WalletEnvironment.kt:82-88 | `KeepsType` is the `when` at lines 82-88. This lemma: INCOME keeps exactly the income and EXPENSE exactly the expenses; NOTHING and ALL keep both and nothing else |
| WalletEnv.WalletTransactions | app/src/main/java/com/anafthdev/dujer/feature/wallet/environment/WalletEnvironment.kt:111-117 | the income and expense lists hold exactly the last selected wallet's transactions of that type |
| WalletEnv.DistinctCategoriesSpec | app/src/main/java/com/anafthdev/dujer/feature/wallet/environment/WalletEnvironment.kt:120-126 | `DistinctCategories` is `map { it.category }.distinctBy { it.id }` (lines 120-126). This lemma: the category list of a transaction list has pairwise distinct ids, holds only its categories, and covers every transaction's category id |
| WalletEnv.AvailableCategoriesSpec | app/src/main/java/com/anafthdev/dujer/feature/wallet/environment/WalletEnvironment.kt:119-127 | `PieSource` picks the income list, the expense list or all transactions by the selected type, and `AvailableCategories` takes `DistinctCategories` of it (lines 119-127). This lemma: for INCOME/EXPENSE the categories come only from, and cover, that wallet's list of that type; for other types they come from and cover all transactions, whatever the wallet |
| WalletEnv.CalculatePieEntry | app/src/main/java/com/anafthdev/dujer/feature/wallet/environment/WalletEnvironment.kt:217-244 | `PieEntries` is the specification of the two loops: one entry per category with the total of its id. This method: one slice per input category, in input order, with the category's name and id and the total of the transactions carrying its id |
| WalletEnv.PieEntryWithoutTransactions | app/src/main/java/com/anafthdev/dujer/feature/wallet/environment/WalletEnvironment.kt:226-239 | a category without transactions gets a zero slice |
| WalletEnv.PieEntriesSumToTotal | app/src/main/java/com/anafthdev/dujer/feature/wallet/environment/WalletEnvironment.kt:119-139 | with the categories derived from the same list, the slices add up to that list's total |
| WalletEnv.WalletEnvironment.constructor | app/src/main/java/com/anafthdev/dujer/feature/wallet/environment/WalletEnvironment.kt:37-67 | the initial state: no categories, the cash wallet, INCOME, A_TO_Z, DEFAULT, all months, the default filter date, no slices, the default wallet id |
| WalletEnv.WalletEnvironment.FilteredTransactions | app/src/main/java/com/anafthdev/dujer/feature/wallet/environment/WalletEnvironment.kt:80-89 | the list handed to the sorter holds exactly the current wallet's transactions of an accepted type |
| WalletEnv.WalletEnvironment.SetWalletID | app/src/main/java/com/anafthdev/dujer/feature/wallet/environment/WalletEnvironment.kt:152-159 | afterwards the last selected id is `id` and the current wallet is the one loaded for it; nothing else changes |
| WalletEnv.WalletEnvironment.SetSortType | app/src/main/java/com/anafthdev/dujer/feature/wallet/environment/WalletEnvironment.kt:185-187 | replaces the sort type and nothing else |
| WalletEnv.WalletEnvironment.SetGroupType | app/src/main/java/com/anafthdev/dujer/feature/wallet/environment/WalletEnvironment.kt:189-191 | replaces the group type and nothing else |
| WalletEnv.WalletEnvironment.SetFilterDate | app/src/main/java/com/anafthdev/dujer/feature/wallet/environment/WalletEnvironment.kt:193-195 | replaces the filter date and nothing else |
| WalletEnv.WalletEnvironment.SetSelectedMonth | app/src/main/java/com/anafthdev/dujer/feature/wallet/environment/WalletEnvironment.kt:197-199 | replaces the month selection and nothing else |
| WalletEnv.WalletEnvironment.SetSelectedFinancialType | app/src/main/java/com/anafthdev/dujer/feature/wallet/environment/WalletEnvironment.kt:201-203 | replaces the selected type and nothing else |
| WalletEnv.WalletEnvironment.UpdateCategoriesAndPie | app/src/main/java/com/anafthdev/dujer/feature/wallet/environment/WalletEnvironment.kt:110-140 | the available categories and the slices become those of the selected wallet and type; nothing else changes |
| FinancialForm.RemoveSignAndSpaceMembers | app/src/main/java/com/anafthdev/dujer/ui/financial/FinancialScreen.kt:242-246 | `RemoveSignAndSpace` is `replace(listOf("-", " "), "")` (lines 242-246). This lemma: the result holds exactly the characters of the text that are neither `-` nor a space |
| FinancialForm.RemoveSignAndSpaceUnchanged | app/src/main/java/com/anafthdev/dujer/ui/financial/FinancialScreen.kt:242-250 | the text is unchanged, so the cursor stays, exactly when it holds no `-` and no space |
| FinancialForm.StripLeadingSeparatorsSpec | app/src/main/java/com/anafthdev/dujer/ui/financial/FinancialScreen.kt:252-255 | `StripLeadingSeparators` is the `while (amount.startsWith(listOf(",", ".")))` loop (lines 252-255). This lemma: the result is the longest suffix not starting with `,` or `.`; everything dropped was a separator |
| FinancialForm.CleanAmountSpec | app/src/main/java/com/anafthdev/dujer/ui/financial/FinancialScreen.kt:242-255 | `CleanAmount` is both steps in turn (lines 242-255). This lemma: the cleaned amount holds no `-` or space, only characters of the input, and does not start with `,` or `.` |
| FinancialForm.CleanAmountSubsequence | app/src/main/java/com/anafthdev/dujer/ui/financial/FinancialScreen.kt:242-255 | the cleaned amount is a subsequence of the input: kept characters keep their order |
| FinancialForm.CleanAmountIdempotent | app/src/main/java/com/anafthdev/dujer/ui/financial/FinancialScreen.kt:242-255 | cleaning a cleaned amount changes neither the text nor the cursor |
| FinancialForm.CleanSelectionKeepsCursor | app/src/main/java/com/anafthdev/dujer/ui/financial/FinancialScreen.kt:248-255 | a text already clean is kept, and so is its selection |
| FinancialForm.SanitiseAmount | app/src/main/java/com/anafthdev/dujer/ui/financial/FinancialScreen.kt:241-255 | `CleanSelection` is the cursor rule: one left after a removal (lines 248-250), then 0 once a separator is dropped (line 254). This method: the strip loop ends with the cleaned amount; the cursor moves one left when a sign or space was removed, and to 0 when a separator was dropped |
| FinancialForm.Save | app/src/main/java/com/anafthdev/dujer/ui/financial/FinancialScreen.kt:421-459 | `IsBlank` is Kotlin's `isBlank()`, true when every character is whitespace (lines 435-441). This function: EDIT always updates; NEW never updates, inserts iff title and amount text are non-blank and the category is not the default, and otherwise reports exactly the first failing check (title, then amount, then category) |
| FinancialForm.SaveEditKeepsIdentity | app/src/main/java/com/anafthdev/dujer/ui/financial/FinancialScreen.kt:423-432 | an edit keeps the loaded record's id, type, currency and wallet, and takes name, amount, date and category from the form |
| FinancialForm.SaveNewCarriesForm | app/src/main/java/com/anafthdev/dujer/ui/financial/FinancialScreen.kt:444-456 | an insert carries the new id, the entered name, amount, type, category and date, and the current currency; its category is never the default |
| FinancialForm.UntouchedEditSavesOriginal | app/src/main/java/com/anafthdev/dujer/ui/financial/FinancialScreen.kt:91-106 | saving an edit whose loaded fields were not touched writes back the record unchanged |
| FinancialForm.FinancialFormState.constructor | app/src/main/java/com/anafthdev/dujer/ui/financial/FinancialScreen.kt:80-86 | initial form: default record, empty title and amount, cursor 0, the current time, default category, INCOME |
| FinancialForm.FinancialFormState.LoadForEdit | app/src/main/java/com/anafthdev/dujer/ui/financial/FinancialScreen.kt:91-106 | in EDIT mode, a record other than the loaded one is loaded (name, date, category, amount, formatted text) and a second load is a no-op; otherwise the form is unchanged; the selected type is never touched |
| FinancialForm.FinancialFormState.Reset | app/src/main/java/com/anafthdev/dujer/ui/financial/FinancialScreen.kt:110-128 | leaving the screen restores every field's default, with the current time and the formatted zero |
| FinancialForm.FinancialFormState.OnAmountChange | app/src/main/java/com/anafthdev/dujer/ui/financial/FinancialScreen.kt:241-270 | the amount becomes the parse of symbol plus cleaned text, the text its formatting, and the selection the cleaned cursor |
| FinancialForm.FinancialFormState.OnSave | app/src/main/java/com/anafthdev/dujer/ui/financial/FinancialScreen.kt:421-459 | the button's outcome is the save decision on the current fields |
| DashboardScreen.RailRoutesDistinct | app/src/main/java/com/anafthdev/dujer/ui/dashboard/DashboardScreen.kt:322-345 | `RailRoute` maps the rail items to their routes (lines 322-345). This lemma: items 0, 1 and 2 open Home, Chart and Export, three different pages; only item 0 opens Home |
| DashboardScreen.BackDecision | app/src/main/java/com/anafthdev/dujer/ui/dashboard/DashboardScreen.kt:225-238 | hide the sheet iff it is visible; otherwise close the rail iff it is shown; otherwise go Home iff not on Home; otherwise finish |
| DashboardScreen.FinishOnlyWhenNothingPending | app/src/main/java/com/anafthdev/dujer/ui/dashboard/DashboardScreen.kt:225-238 | back leaves the screen exactly when no sheet, no rail and no page other than Home is open |
| DashboardScreen.DashboardScreenState.constructor | app/src/main/java/com/anafthdev/dujer/ui/dashboard/DashboardScreen.kt:216-218 | the rail is hidden, item 0 is selected and only Home is on the page stack |
| DashboardScreen.DashboardScreenState.CurrentRouteIsSelected | app/src/main/java/com/anafthdev/dujer/ui/dashboard/DashboardScreen.kt:322-345 | `StackFor` is the page stack the navigation at lines 678-692 leaves for an item: [Home], or [Home, item's route]. This lemma: the page shown is always the selected rail item's page |
| DashboardScreen.DashboardScreenState.PopupDashboardNavigation | app/src/main/java/com/anafthdev/dujer/ui/dashboard/DashboardScreen.kt:678-692 | after navigating, the stack is Home alone, or Home under the target: popping to the start page and single-top never stack pages |
| DashboardScreen.DashboardScreenState.OnRailItemSelected | app/src/main/java/com/anafthdev/dujer/ui/dashboard/DashboardScreen.kt:322-345 | the item becomes selected and its page is shown, keeping the stack invariant |
| DashboardScreen.DashboardScreenState.ToggleNavRail | app/src/main/java/com/anafthdev/dujer/ui/dashboard/DashboardScreen.kt:282 | the menu button flips the rail's visibility |
| DashboardScreen.DashboardScreenState.ShowFinancialSheet | app/src/main/java/com/anafthdev/dujer/ui/dashboard/DashboardScreen.kt:206-209 | the sheet becomes visible |
| DashboardScreen.DashboardScreenState.OnBack | app/src/main/java/com/anafthdev/dujer/ui/dashboard/DashboardScreen.kt:225-238 | does what the priority rule decides and nothing else, keeps the stack invariant, and closes exactly one pending thing per press until it finishes |
| DashboardScreen.SortByDateSpec | app/src/main/java/com/anafthdev/dujer/ui/dashboard/DashboardScreen.kt:452-454 | `SortByDate` is a stable insertion sort, and `InsertByDate` places a transaction before the first one not earlier than it. This lemma: `sortedBy { dateCreated }` yields a date-ordered permutation with the same total, and keeps the order of transactions sharing a date (stable) |
| DashboardScreen.MixedTransactionsSpec | app/src/main/java/com/anafthdev/dujer/ui/dashboard/DashboardScreen.kt:452-457 | `MixedTransactions` is `incomeTransaction.merge(expenseTransaction).sortedBy { it.dateCreated }` (lines 452-454); the totals are `sumOf { it.amount }` (lines 456-457). This lemma: the mixed list is date-ordered and a permutation of income followed by expenses; same-date transactions keep their order, income first; its total is the income total plus the expense total |
| DashboardScreen.HighestExpenseCardSpec | app/src/main/java/com/anafthdev/dujer/ui/dashboard/DashboardScreen.kt:585-602 | `HighestExpenseCardVisible` is `id != Category.default.id && amount != 0.0` (lines 585-588); `HighestExpenseCardTarget` is the `CategoryTransaction` route its tap opens, and only for a non-default id (lines 593-600). This lemma: fed from the environment, the card shows iff the winning amount is positive and its id is not the default; it then names an expense category whose total is that maximal amount, and its tap opens that category's route |
| DashboardScreen.CardRoutesReadBack | app/src/main/java/com/anafthdev/dujer/ui/dashboard/DashboardScreen.kt:614-640 | the income and expense cards open different routes, carrying ordinals 0 and 1 |
| Destinations.NatToString | app/src/main/java/com/anafthdev/dujer/data/DujerDestination.kt:31-33 | a number's decimal text is non-empty and all digits |
| Destinations.ParseIntToString | app/src/main/java/com/anafthdev/dujer/data/DujerDestination.kt:31-33 | `IntToString` is Kotlin's decimal `Int` text in string templates, with `-` for negatives. This lemma: every integer written into a route parses back to itself, negative ones included |
| Destinations.IntToStringInjective | app/src/main/java/com/anafthdev/dujer/data/DujerDestination.kt:31-33 | different integers have different decimal texts |
| Destinations.FixedRoutesDistinct | app/src/main/java/com/anafthdev/dujer/data/DujerDestination.kt:22-50 | the fixed routes are pairwise different, and Home, Export and Chart are the dashboard route followed by `/` and a suffix |
| Destinations.FromOrdinal | app/src/main/java/com/anafthdev/dujer/ui/app/Dujer.kt:113-121 | `values()[i]` gives a type exactly for the indices 0 to 3 |
| Destinations.FromOrdinalInverse | app/src/main/java/com/anafthdev/dujer/data/DujerDestination.kt:7-10 | `Ordinal` is `type.ordinal` (line 9). This lemma: reading an ordinal back gives the type it came from |
| Destinations.RoutesFillTemplates | app/src/main/java/com/anafthdev/dujer/data/DujerDestination.kt:7-46 | `WalletRoute` (lines 31-33), `StatisticRoute` (lines 37-39), `CategoryTransactionRoute` (lines 43-45) and `IncomeExpenseRoute` (lines 8-10) are the four `createRoute` builders. This lemma: the wallet, statistic, category-transaction and income/expense builders equal their templates with the placeholder replaced by the decimal argument |
| Destinations.CategoryRouteFillsTemplate | app/src/main/java/com/anafthdev/dujer/data/DujerDestination.kt:13-20 | `CategoryRoute` is `"category/$action/$id"` (line 18). This lemma: the category route is `category/{action}/{id}` with both placeholders replaced |
| Destinations.RoutesReadBack | app/src/main/java/com/anafthdev/dujer/data/DujerDestination.kt:7-46 | stripping the fixed prefix reads back each builder's argument, and the type for the income/expense route |
| Destinations.RoutesInjective | app/src/main/java/com/anafthdev/dujer/data/DujerDestination.kt:7-46 | equal routes from the same builder come from equal arguments |
| Destinations.LastIndexOf | app/src/main/java/com/anafthdev/dujer/data/DujerDestination.kt:13-20 | finds the last occurrence of a character, or none |
| Destinations.CategoryRouteReadsBack | app/src/main/java/com/anafthdev/dujer/data/DujerDestination.kt:13-20 | the action and id read back from a category route, even when the action holds `/` |
| Destinations.DefaultCategoryRouteReadsBack | app/src/main/java/com/anafthdev/dujer/data/DujerDestination.kt:14-17 | `DefaultCategoryRoute` is `createRoute()` with both defaults (lines 15-16). This lemma: with both defaults the route carries the NOTHING action and the default category id |
| Destinations.CategoryRouteInjective | app/src/main/java/com/anafthdev/dujer/data/DujerDestination.kt:13-20 | different (action, id) pairs give different category routes |

## Left out

- The values of `Category.default`, `Wallet.default`, `Wallet.cash`, `Financial.default`, `AppUtil.filterDateDefault` and `CategorySwipeAction.NOTHING` are not modelled. Their files are not part of this model, so they are constants without a value and no proof depends on them. The same holds for the wallet id a `Financial` gets when none is passed.
- `FinancialType`'s declaration is not part of this model. Its ordinals are taken as INCOME 0, EXPENSE 1, NOTHING 2, ALL 3. `isIncome()` and `isExpense()` are taken as equality with INCOME and EXPENSE.
- `FinancialSorter.beginSort` is not modelled; its source is not part of this model. So neither environment's `transactions` output is modelled: the model stops at the list handed to the sorter.
- Flows, coroutines, `combine` and `collect` are not modelled. Each collect body is a method called with the latest values.
- The getters that only expose a flow are not modelled.
- The repository calls are left out: reading all transactions and wallets, `insertWallet`, `insertFinancial` and `updateWallet`. Their results are method parameters.
- WalletEnv.WalletEnvironment.SetWalletID: only the wallet's first emission is modelled. The default id emitted just before `id` is overwritten straight away, and a collector that sees it in between is not modelled.
- The month of a timestamp is not modelled. It uses `SimpleDateFormat`, the device locale and time zone, so it is an unspecified function into 0..11. The failing `indexOf` (-1) for a month name missing from `AppUtil.shortMonths` is not modelled.
- Floating point: amounts are exact integers in minor units. Chart and pie entries keep the exact amount instead of a `Float`.
- The currency formatter and parser are parameters of `OnAmountChange`, `LoadForEdit` and `Reset`; their behaviour is not modelled.
- The random id of a new transaction is a parameter of the save decision.
- Compose's clamping of a selection to the text length is not modelled, and neither is its handling of a negative index. The cursor rule produces one when a sign or space is removed while the cursor is at 0: typing `5-` with the cursor at the start gives `CleanSelection("5-", TextRange(0, 0)) == TextRange(-1, -1)` (FinancialScreen.kt:248-250).
- The form's action is a string compared with the EDIT constant; here it is the two-valued `FinancialAction`.
- The form's focus, date picker and category list are left out, except for the field they set. This version of the screen has no type selector: the row meant for it is empty (FinancialScreen.kt:414-419), and `financialType` is only ever set to INCOME (lines 86 and 116). The model matches this: the constructor and `Reset` set INCOME, `LoadForEdit` keeps the type, and no other method writes it, so every NEW save inserts an INCOME transaction.
- The financial sheet's visibility is app state; here it is a boolean on the dashboard screen. Its animations are left out.
- The dashboard's other UI is left out: wallets, the add-wallet sheet, the FAB and the budget card layout. The Home page registers its own back handler, enabled while the add-wallet sheet is open (DashboardScreen.kt:531-533). It is composed below the dashboard's handler at line 225, so it takes the press first and only hides that sheet. `BackDecision` and `OnBack` therefore describe back presses while the add-wallet sheet is closed.
- Navigation `saveState`/`restoreState` is not modelled.
- The nullable `currentDestination` before the graph is set is not modelled; the page stack always holds Home.
- The extensions `merge`, `replace(list, …)`, `startsWith(list)`, `replaceFirstChar("")`, `forEachMap` and `getBy` are not part of this model. They are read as concatenation, replacing every listed string, starting with any listed string, dropping the first character, iterating the map in insertion order, and mapping.
- Kotlin's `Int` is 32 bits; ids here are unbounded integers.
