/** The reports: the dashboard, the period, category and area reports and the chart data
    endpoint. Each works on a role scope of expenses; the clock readings they use (current
    year and month, the twelve monthly windows) are parameters. */
module Reports {
  import opened Wrappers
  import opened Models
  import opened Authorization
  import opened Aggregates
  import Listing

  const NO_REPORT_PERMISSION := "No tienes permisos para ver reportes."
  const ADMIN_ONLY_REPORT := "Solo administradores pueden ver este reporte."

  /** A report page: either a redirect with a flashed message, or the page's data. */
  datatype Gated<+T> = Redirected(message: string) | Shown(view: T)

  /** `require_supervisor_or_admin`: only the roles 'supervisor' and 'admin' pass. */
  function RequireSupervisorOrAdmin(actor: Actor): (gate: Outcome<string>)
    ensures gate.Pass? <==> actor.role == ROLE_SUPERVISOR || actor.role == ROLE_ADMIN
    ensures gate.Fail? ==> gate.error == NO_REPORT_PERMISSION
  {
    if IsSupervisorOrAdmin(actor) then Pass else Fail(NO_REPORT_PERMISSION)
  }

  /** The ids whose expense date falls in `year` (`extract('year', ...) == year`). */
  function InYear(exps: map<nat, Expense>, ids: set<nat>, year: int): (r: set<nat>)
    requires ids <= exps.Keys
    ensures r <= ids
    ensures forall id :: id in r <==> id in ids && exps[id].expenseDate.year == year
  {
    set id | id in ids && exps[id].expenseDate.year == year
  }

  /** The ids whose expense date falls in `month` of `year`. */
  function InMonth(exps: map<nat, Expense>, ids: set<nat>, year: int, month: int): (r: set<nat>)
    requires ids <= exps.Keys
    ensures r <= InYear(exps, ids, year)
    ensures forall id :: id in r <==> id in ids && exps[id].expenseDate.year == year && exps[id].expenseDate.month == month
  {
    set id | id in ids && exps[id].expenseDate.year == year && exps[id].expenseDate.month == month
  }

  /** The expenses of `ids` owned by user `u`. */
  function OwnedBy(exps: map<nat, Expense>, ids: set<nat>, u: nat): (r: set<nat>)
    requires ids <= exps.Keys
    ensures r <= ids
    ensures forall id :: id in r <==> id in ids && exps[id].userId == u
  {
    set id | id in ids && exps[id].userId == u
  }

  /** The users joined to at least one of the expenses `ids` (an inner join drops expenses
      whose owner row is missing). */
  function Owners(store: Store, ids: set<nat>): (us: set<nat>)
    requires ids <= store.expenses.Keys
    ensures us <= store.users.Keys
    ensures forall u :: u in us <==> u in store.users && exists id :: id in ids && store.expenses[id].userId == u
  {
    set id | id in ids && store.expenses[id].userId in store.users :: store.expenses[id].userId
  }

  /** Count and sum of each owner's expenses (`GROUP BY User.id`). */
  method UserTotals(exps: map<nat, Expense>, ids: set<nat>, owners: set<nat>) returns (totals: map<nat, Bucket>)
    requires ids <= exps.Keys
    ensures totals.Keys == owners
    ensures forall u :: u in totals ==> totals[u] == Bucket(|OwnedBy(exps, ids, u)|, Total(exps, OwnedBy(exps, ids, u)))
  {
    totals := map[];
    var todo := owners;
    while todo != {}
      invariant todo <= owners
      invariant totals.Keys == owners - todo
      invariant forall u :: u in totals ==> totals[u] == Bucket(|OwnedBy(exps, ids, u)|, Total(exps, OwnedBy(exps, ids, u)))
      decreases |todo|
    {
      var u :| u in todo;
      var mine := OwnedBy(exps, ids, u);
      var sum := SumAmounts(exps, mine);
      totals := totals[u := Bucket(|mine|, sum)];
      todo := todo - {u};
    }
  }

  /** One row of the dashboard's top spenders. */
  datatype UserRank = UserRank(userId: nat, firstName: string, lastName: string, count: nat, total: int)

  /** The row is the named user's count and sum over all expenses. */
  ghost predicate RankOf(store: Store, r: UserRank) {
    var mine := OwnedBy(store.expenses, store.expenses.Keys, r.userId);
    && r.userId in store.users
    && r.firstName == store.users[r.userId].firstName
    && r.lastName == store.users[r.userId].lastName
    && r.count == |mine|
    && r.total == Total(store.expenses, mine)
  }

  /** The rows of the listed users, from their buckets. */
  function ToRanks(store: Store, ids: seq<nat>, totals: map<nat, Bucket>): (rs: seq<UserRank>)
    requires forall i :: 0 <= i < |ids| ==> ids[i] in totals && ids[i] in store.users
    ensures |rs| == |ids|
    ensures forall i :: 0 <= i < |ids| ==>
      && rs[i].userId == ids[i]
      && rs[i].firstName == store.users[ids[i]].firstName && rs[i].lastName == store.users[ids[i]].lastName
      && rs[i].count == totals[ids[i]].count && rs[i].total == totals[ids[i]].total
  {
    seq(|ids|, i requires 0 <= i < |ids| =>
      UserRank(ids[i], store.users[ids[i]].firstName, store.users[ids[i]].lastName, totals[ids[i]].count, totals[ids[i]].total))
  }

  /** Each row is right and belongs to a user with expenses. */
  ghost predicate RowsRight(store: Store, owners: set<nat>, top: seq<UserRank>) {
    forall i :: 0 <= i < |top| ==> top[i].userId in owners && RankOf(store, top[i])
  }

  /** No user twice, sums never increasing. */
  ghost predicate RowsOrdered(top: seq<UserRank>) {
    forall i, j :: 0 <= i < j < |top| ==> top[i].userId != top[j].userId && top[i].total >= top[j].total
  }

  /** Nobody left out has a larger sum than the last row. */
  ghost predicate NoneBetterLeftOut(store: Store, owners: set<nat>, top: seq<UserRank>) {
    forall u :: u in owners && (forall i :: 0 <= i < |top| ==> top[i].userId != u) && |top| > 0 ==>
      Total(store.expenses, OwnedBy(store.expenses, store.expenses.Keys, u)) <= top[|top| - 1].total
  }

  /** `top` is the ranking of the five largest spenders among the users with expenses. */
  ghost predicate TopRanking(store: Store, top: seq<UserRank>) {
    var owners := Owners(store, store.expenses.Keys);
    && |top| == (if |owners| < 5 then |owners| else 5)
    && RowsRight(store, owners, top)
    && RowsOrdered(top)
    && NoneBetterLeftOut(store, owners, top)
  }

  /** The buckets are each owner's count and sum. */
  ghost predicate OwnerBuckets(store: Store, owners: set<nat>, totals: map<nat, Bucket>) {
    && totals.Keys == owners
    && forall u :: u in totals ==>
         totals[u] == Bucket(|OwnedBy(store.expenses, store.expenses.Keys, u)|, Total(store.expenses, OwnedBy(store.expenses, store.expenses.Keys, u)))
  }

  lemma RowsRightFromBuckets(store: Store, owners: set<nat>, totals: map<nat, Bucket>, kept: seq<nat>)
    requires owners <= store.users.Keys && OwnerBuckets(store, owners, totals)
    requires forall i :: 0 <= i < |kept| ==> kept[i] in owners
    ensures RowsRight(store, owners, ToRanks(store, kept, totals))
  {
  }

  lemma RowsOrderedFromSorted(store: Store, owners: set<nat>, totals: map<nat, Bucket>, key: map<nat, int>, kept: seq<nat>)
    requires owners <= store.users.Keys && OwnerBuckets(store, owners, totals)
    requires key.Keys == owners && forall u :: u in key ==> key[u] == totals[u].total
    requires forall i :: 0 <= i < |kept| ==> kept[i] in owners
    requires forall i, j :: 0 <= i < j < |kept| ==> kept[i] != kept[j] && key[kept[i]] >= key[kept[j]]
    ensures RowsOrdered(ToRanks(store, kept, totals))
  {
  }

  lemma NoneBetterFromSorted(store: Store, owners: set<nat>, totals: map<nat, Bucket>, key: map<nat, int>, kept: seq<nat>)
    requires owners <= store.users.Keys && OwnerBuckets(store, owners, totals)
    requires key.Keys == owners && forall u :: u in key ==> key[u] == totals[u].total
    requires forall i :: 0 <= i < |kept| ==> kept[i] in owners
    requires forall u :: u in owners && u !in kept && |kept| > 0 ==> key[u] <= key[kept[|kept| - 1]]
    ensures NoneBetterLeftOut(store, owners, ToRanks(store, kept, totals))
  {
    var top := ToRanks(store, kept, totals);
    forall u | u in owners && (forall i :: 0 <= i < |top| ==> top[i].userId != u) && |top| > 0
      ensures Total(store.expenses, OwnedBy(store.expenses, store.expenses.Keys, u)) <= top[|top| - 1].total
    {
      assert u !in kept by {
        forall i | 0 <= i < |kept| ensures kept[i] != u {
          assert top[i].userId == kept[i];
        }
      }
      var last := kept[|kept| - 1];
      assert top[|top| - 1].total == key[last];
      assert Total(store.expenses, OwnedBy(store.expenses, store.expenses.Keys, u)) == key[u];
    }
  }

  /** The first five of the owners sorted by sum, as rows, are right, ordered and leave
      nobody better out. */
  lemma RankingFromSorted(store: Store, owners: set<nat>, totals: map<nat, Bucket>, key: map<nat, int>,
                          sorted: seq<nat>, kept: seq<nat>)
    requires owners <= store.users.Keys && OwnerBuckets(store, owners, totals)
    requires key.Keys == owners && forall u :: u in key ==> key[u] == totals[u].total
    requires Listing.Enumerates(sorted, owners) && |sorted| == |owners|
    requires forall i :: 0 <= i < |sorted| ==> sorted[i] in key
    requires Listing.NonIncreasing(sorted, key)
    requires kept == Listing.Take(sorted, 5)
    ensures forall i :: 0 <= i < |kept| ==> kept[i] in owners && kept[i] in store.users
    ensures |kept| == if |owners| < 5 then |owners| else 5
    ensures RowsRight(store, owners, ToRanks(store, kept, totals))
    ensures RowsOrdered(ToRanks(store, kept, totals))
    ensures NoneBetterLeftOut(store, owners, ToRanks(store, kept, totals))
  {
    Listing.TakeSorted(sorted, owners, key, 5);
    RowsRightFromBuckets(store, owners, totals, kept);
    RowsOrderedFromSorted(store, owners, totals, key, kept);
    NoneBetterFromSorted(store, owners, totals, key, kept);
  }

  /** The five users with the largest expense sums, largest first. */
  method TopUsers(store: Store) returns (top: seq<UserRank>)
    ensures TopRanking(store, top)
  {
    var owners := Owners(store, store.expenses.Keys);
    var totals := UserTotals(store.expenses, store.expenses.Keys, owners);
    var key := map u | u in totals :: totals[u].total;
    var sorted := Listing.Descending(owners, key);
    var kept := Listing.Take(sorted, 5);
    RankingFromSorted(store, owners, totals, key, sorted, kept);
    top := ToRanks(store, kept, totals);
  }

  /** The `n` most recently created expenses of `ids`, newest first. */
  method Newest(exps: map<nat, Expense>, ids: set<nat>, n: nat) returns (recent: seq<nat>)
    requires ids <= exps.Keys
    ensures |recent| == if |ids| < n then |ids| else n
    ensures forall i :: 0 <= i < |recent| ==> recent[i] in ids
    ensures forall i, j :: 0 <= i < j < |recent| ==> recent[i] != recent[j]
    ensures forall i, j :: 0 <= i < j < |recent| ==> exps[recent[i]].createdAt >= exps[recent[j]].createdAt
    ensures forall id :: id in ids && id !in recent && |recent| > 0 ==>
      exps[id].createdAt <= exps[recent[|recent| - 1]].createdAt
  {
    var key := CreationKeys(exps);
    var sorted := Listing.Descending(ids, key);
    recent := Listing.Take(sorted, n);
    Listing.TakeKeepsTop(sorted, ids, key, n);
    assert forall i :: 0 <= i < |recent| ==> recent[i] == sorted[i];
  }

  /** The figures of the dashboard page. */
  datatype DashboardView = DashboardView(
    total: nat,
    pending: nat,
    approved: nat,
    rejected: nat,
    totalAmount: int,
    approvedAmount: int,
    monthCount: nat,
    monthAmount: int,
    topUsers: seq<UserRank>,
    byCategory: map<string, Bucket>,
    recent: seq<nat>)

  /** `dashboard`: counts and sums over the team scope, this month's share, the categories, the
      ten newest expenses, and for an admin only the top five spenders. */
  method Dashboard(store: Store, actor: Actor, thisYear: int, thisMonth: int) returns (r: Gated<DashboardView>)
    ensures r.Redirected? <==> !IsSupervisorOrAdmin(actor)
    ensures r.Redirected? ==> r.message == NO_REPORT_PERMISSION
    ensures r.Shown? ==>
      var exps := store.expenses;
      var scope := TeamScope(store, actor);
      var v := r.view;
      && v.total == |scope|
      && v.pending == |WithStatus(exps, scope, Pending)|
      && v.approved == |WithStatus(exps, scope, Approved)|
      && v.rejected == |WithStatus(exps, scope, Rejected)|
      && v.pending + v.approved + v.rejected <= v.total
      && v.totalAmount == Total(exps, scope)
      && v.approvedAmount == Total(exps, WithStatus(exps, scope, Approved))
      && v.monthCount == |InMonth(exps, scope, thisYear, thisMonth)|
      && v.monthAmount == Total(exps, InMonth(exps, scope, thisYear, thisMonth))
      && (!IsAdmin(actor) ==> v.topUsers == [])
      && (IsAdmin(actor) ==> TopRanking(store, v.topUsers))
      && GroupsOf(exps, scope, v.byCategory)
      && |v.recent| == (if |scope| < 10 then |scope| else 10)
      && (forall i :: 0 <= i < |v.recent| ==> v.recent[i] in scope)
      && (forall i, j :: 0 <= i < j < |v.recent| ==> v.recent[i] != v.recent[j])
      && (forall i, j :: 0 <= i < j < |v.recent| ==> exps[v.recent[i]].createdAt >= exps[v.recent[j]].createdAt)
      && (forall id :: id in scope && id !in v.recent && |v.recent| > 0 ==>
            exps[id].createdAt <= exps[v.recent[|v.recent| - 1]].createdAt)
  {
    if RequireSupervisorOrAdmin(actor).Fail? {
      return Redirected(NO_REPORT_PERMISSION);
    }
    var exps := store.expenses;
    var scope := TeamScope(store, actor);
    StatusCountsBounded(exps, scope);
    var totalAmount := SumAmounts(exps, scope);
    var approvedAmount := SumAmounts(exps, WithStatus(exps, scope, Approved));
    var monthAmount := SumAmounts(exps, InMonth(exps, scope, thisYear, thisMonth));
    var top: seq<UserRank> := [];
    if IsAdmin(actor) {
      top := TopUsers(store);
    }
    var byCategory := CategoryTotals(exps, scope);
    var recent := Newest(exps, scope, 10);
    r := Shown(DashboardView(
      |scope|, |WithStatus(exps, scope, Pending)|, |WithStatus(exps, scope, Approved)|,
      |WithStatus(exps, scope, Rejected)|, totalAmount, approvedAmount,
      |InMonth(exps, scope, thisYear, thisMonth)|, monthAmount, top, byCategory, recent));
  }

  /** One entry of `monthly_totals`. */
  datatype MonthRow = MonthRow(month: int, monthName: string, count: nat, total: int)

  /** `calendar.month_name[1..12]` in the default (C) locale. */
  const MONTH_NAMES: seq<string> := ["January", "February", "March", "April", "May", "June", "July",
    "August", "September", "October", "November", "December"]

  /** The figures of the period report. Expenses are listed as a set; the ordering by date is
      not modelled. */
  datatype PeriodView = PeriodView(
    year: int,
    month: Option<int>,
    expenses: set<nat>,
    monthlyTotals: seq<MonthRow>,
    totalAmount: int,
    totalCount: nat,
    availableYears: seq<int>)

  /** The distinct non-zero expense years over every expense, whoever asks. */
  function AvailableYears(exps: map<nat, Expense>): (years: set<int>)
    ensures 0 !in years
    ensures forall y :: y in years <==> y != 0 && exists id :: id in exps && exps[id].expenseDate.year == y
  {
    set id | id in exps && exps[id].expenseDate.year != 0 :: exps[id].expenseDate.year
  }

  /** `available_years`: the distinct non-zero expense years, read off the expenses sorted by
      year, in ascending order. */
  method YearsAscending(exps: map<nat, Expense>) returns (years: seq<int>)
    ensures forall y :: y in years <==> y in AvailableYears(exps)
    ensures Listing.StrictlyIncreasing(years)
  {
    var ids := set id | id in exps && exps[id].expenseDate.year != 0;
    var key := map id | id in exps :: exps[id].expenseDate.year;
    var sorted := Listing.Descending(ids, key);
    var column := seq(|sorted|, k requires 0 <= k < |sorted| => key[sorted[k]]);
    years := Listing.AscendingDistinct(column);
    forall y ensures y in column <==> y in AvailableYears(exps) {
      if y in AvailableYears(exps) {
        var id :| id in exps && exps[id].expenseDate.year == y && y != 0;
        assert id in ids;
        var k :| 0 <= k < |sorted| && sorted[k] == id;
        assert column[k] == y;
      }
      if y in column {
        var k :| 0 <= k < |column| && column[k] == y;
        assert sorted[k] in ids;
      }
    }
  }

  /** `monthly_totals`: twelve rows, month `k + 1` in row `k`. */
  ghost predicate MonthRows(exps: map<nat, Expense>, ids: set<nat>, year: int, rows: seq<MonthRow>)
    requires ids <= exps.Keys
  {
    && |rows| == 12
    && forall k :: 0 <= k < 12 ==>
         rows[k] == MonthRow(k + 1, MONTH_NAMES[k], |InMonth(exps, ids, year, k + 1)|, Total(exps, InMonth(exps, ids, year, k + 1)))
  }

  /** `by_period`: the scoped expenses of the year (and of the month, when one is given), their
      count and sum, the per-month rows (with their month names) when no month is given, and
      the available years in ascending order. A month of 0 counts as no month. */
  method ByPeriod(store: Store, actor: Actor, year: Option<int>, month: Option<int>, thisYear: int)
    returns (r: Gated<PeriodView>)
    ensures r.Redirected? <==> !IsSupervisorOrAdmin(actor)
    ensures r.Redirected? ==> r.message == NO_REPORT_PERMISSION
    ensures r.Shown? ==>
      var exps := store.expenses;
      var scope := TeamScope(store, actor);
      var y := if year.Some? then year.value else thisYear;
      var v := r.view;
      && v.year == y
      && v.expenses == (if month.Some? && month.value != 0 then InMonth(exps, scope, y, month.value) else InYear(exps, scope, y))
      && v.totalCount == |v.expenses|
      && v.totalAmount == Total(exps, v.expenses)
      && (month.Some? && month.value != 0 ==> v.monthlyTotals == [])
      && (!(month.Some? && month.value != 0) ==> MonthRows(exps, scope, y, v.monthlyTotals))
      && (forall y :: y in v.availableYears <==> y in AvailableYears(exps))
      && Listing.StrictlyIncreasing(v.availableYears)
  {
    if RequireSupervisorOrAdmin(actor).Fail? {
      return Redirected(NO_REPORT_PERMISSION);
    }
    var exps := store.expenses;
    var scope := TeamScope(store, actor);
    var y := if year.Some? then year.value else thisYear;
    var monthGiven := month.Some? && month.value != 0;
    var selected := if monthGiven then InMonth(exps, scope, y, month.value) else InYear(exps, scope, y);
    var rows: seq<MonthRow> := [];
    if !monthGiven {
      var m := 1;
      while m <= 12
        invariant 1 <= m <= 13
        invariant |rows| == m - 1
        invariant forall k :: 0 <= k < m - 1 ==>
          rows[k] == MonthRow(k + 1, MONTH_NAMES[k], |InMonth(exps, scope, y, k + 1)|, Total(exps, InMonth(exps, scope, y, k + 1)))
      {
        var these := InMonth(exps, scope, y, m);
        var sum := SumAmounts(exps, these);
        rows := rows + [MonthRow(m, MONTH_NAMES[m - 1], |these|, sum)];
        m := m + 1;
      }
    }
    var totalAmount := SumAmounts(exps, selected);
    var years := YearsAscending(exps);
    r := Shown(PeriodView(y, month, selected, rows, totalAmount, |selected|, years));
  }

  /** The expenses of `ids` in `year` whose month is between 1 and `k`. */
  ghost function UpToMonth(exps: map<nat, Expense>, ids: set<nat>, year: int, k: int): (r: set<nat>)
    requires ids <= exps.Keys
    ensures r <= ids
  {
    set id | id in ids && exps[id].expenseDate.year == year && 1 <= exps[id].expenseDate.month <= k
  }

  /** Row counts and row sums added up over the first `k` rows. */
  ghost function RowCounts(rows: seq<MonthRow>, k: nat): int
    requires k <= |rows|
  {
    if k == 0 then 0 else RowCounts(rows, k - 1) + rows[k - 1].count
  }

  ghost function RowTotals(rows: seq<MonthRow>, k: nat): int
    requires k <= |rows|
  {
    if k == 0 then 0 else RowTotals(rows, k - 1) + rows[k - 1].total
  }

  /** The first `k` rows add up to the expenses of months 1 to `k`. */
  lemma {:induction false} RowsAddUp(exps: map<nat, Expense>, ids: set<nat>, year: int, rows: seq<MonthRow>, k: nat)
    requires ids <= exps.Keys && MonthRows(exps, ids, year, rows) && k <= 12
    ensures RowCounts(rows, k) == |UpToMonth(exps, ids, year, k)|
    ensures RowTotals(rows, k) == Total(exps, UpToMonth(exps, ids, year, k))
  {
    if k == 0 {
      assert UpToMonth(exps, ids, year, 0) == {};
    } else {
      RowsAddUp(exps, ids, year, rows, k - 1);
      var before := UpToMonth(exps, ids, year, k - 1);
      var current := InMonth(exps, ids, year, k);
      assert UpToMonth(exps, ids, year, k) == before + current;
      assert before * current == {};
      TotalUnion(exps, before, current);
    }
  }

  /** When every expense of the year has a month from 1 to 12, the twelve rows add up to the
      year's count and sum. */
  lemma MonthlyRowsCoverYear(exps: map<nat, Expense>, ids: set<nat>, year: int, rows: seq<MonthRow>)
    requires ids <= exps.Keys && MonthRows(exps, ids, year, rows)
    requires forall id :: id in InYear(exps, ids, year) ==> 1 <= exps[id].expenseDate.month <= 12
    ensures RowCounts(rows, 12) == |InYear(exps, ids, year)|
    ensures RowTotals(rows, 12) == Total(exps, InYear(exps, ids, year))
  {
    RowsAddUp(exps, ids, year, rows, 12);
    assert UpToMonth(exps, ids, year, 12) == InYear(exps, ids, year);
  }

  /** `by_category`: count and sum per category over the team scope. The ordering by sum and the
      average, minimum and maximum columns are not modelled. */
  method ByCategory(store: Store, actor: Actor) returns (r: Gated<map<string, Bucket>>)
    ensures r.Redirected? <==> !IsSupervisorOrAdmin(actor)
    ensures r.Redirected? ==> r.message == NO_REPORT_PERMISSION
    ensures r.Shown? ==> GroupsOf(store.expenses, TeamScope(store, actor), r.view)
  {
    if RequireSupervisorOrAdmin(actor).Fail? {
      return Redirected(NO_REPORT_PERMISSION);
    }
    var groups := CategoryTotals(store.expenses, TeamScope(store, actor));
    r := Shown(groups);
  }

  /** One row of the area report. */
  datatype AreaRow = AreaRow(userCount: nat, expenseCount: nat, totalAmount: int, pending: nat, approved: nat, budgetUsage: real)

  /** The users assigned to area `a`. */
  function AreaMembers(store: Store, a: nat): (us: set<nat>)
    ensures forall u :: u in us <==> u in store.users && store.users[u].areaId == Some(a)
  {
    set u | u in store.users && store.users[u].areaId == Some(a)
  }

  /** The active areas (`filter_by(is_active=True)`). */
  function ActiveAreas(store: Store): (as_: set<nat>)
    ensures forall a :: a in as_ <==> a in store.areas && store.areas[a].isActive
  {
    set a | a in store.areas && store.areas[a].isActive
  }

  /** The budget share: total over the monthly budget, in percent, or 0 without a budget (a
      budget of 0 counts as none). */
  function BudgetUsage(total: int, budget: Option<int>): (pct: real)
    ensures budget.None? || budget.value == 0 ==> pct == 0.0
    ensures budget.Some? && budget.value != 0 ==> pct * (budget.value as real) == (total as real) * 100.0
  {
    if budget.Some? && budget.value != 0 then (total as real) / (budget.value as real) * 100.0 else 0.0
  }

  /** The area row from its definition. */
  ghost predicate AreaRowOf(store: Store, a: nat, row: AreaRow)
    requires a in store.areas
  {
    var mine := ExpensesOf(store, AreaMembers(store, a));
    && row.userCount == |AreaMembers(store, a)|
    && row.expenseCount == |mine|
    && row.totalAmount == Total(store.expenses, mine)
    && row.pending == |WithStatus(store.expenses, mine, Pending)|
    && row.approved == |WithStatus(store.expenses, mine, Approved)|
    && row.budgetUsage == BudgetUsage(row.totalAmount, store.areas[a].budgetMonthly)
  }

  /** `by_area` (admin only): one row per active area. */
  method ByArea(store: Store, actor: Actor) returns (r: Gated<map<nat, AreaRow>>)
    ensures r.Redirected? <==> !IsAdmin(actor)
    ensures r.Redirected? ==> r.message == ADMIN_ONLY_REPORT
    ensures r.Shown? ==> r.view.Keys == ActiveAreas(store)
    ensures r.Shown? ==> forall a :: a in r.view ==>
      && AreaRowOf(store, a, r.view[a])
      && r.view[a].pending + r.view[a].approved <= r.view[a].expenseCount
  {
    if !IsAdmin(actor) {
      return Redirected(ADMIN_ONLY_REPORT);
    }
    var rows: map<nat, AreaRow> := map[];
    var todo := ActiveAreas(store);
    while todo != {}
      invariant todo <= ActiveAreas(store)
      invariant rows.Keys == ActiveAreas(store) - todo
      invariant AreaRows(store, rows)
      decreases |todo|
    {
      var a :| a in todo;
      var row := AreaRowFor(store, a);
      AreaRowsAdd(store, rows, a, row);
      rows := rows[a := row];
      todo := todo - {a};
    }
    r := Shown(rows);
  }

  /** Every row is its area's row from the definition, and its pending and approved counts
      fit in its expense count. */
  ghost predicate AreaRows(store: Store, rows: map<nat, AreaRow>) {
    forall a :: a in rows ==>
      && a in store.areas
      && AreaRowOf(store, a, rows[a])
      && rows[a].pending + rows[a].approved <= rows[a].expenseCount
  }

  lemma AreaRowsAdd(store: Store, rows: map<nat, AreaRow>, a: nat, row: AreaRow)
    requires AreaRows(store, rows) && a in store.areas && AreaRowOf(store, a, row)
    requires row.pending + row.approved <= row.expenseCount
    ensures AreaRows(store, rows[a := row])
  {
  }

  /** One area's row: its members, their expenses, the sum, the pending and approved counts and
      the budget share. */
  method AreaRowFor(store: Store, a: nat) returns (row: AreaRow)
    requires a in store.areas
    ensures AreaRowOf(store, a, row)
    ensures row.pending + row.approved <= row.expenseCount
  {
    var members := AreaMembers(store, a);
    var mine := ExpensesOf(store, members);
    var total := SumAmounts(store.expenses, mine);
    var pending := WithStatus(store.expenses, mine, Pending);
    var approved := WithStatus(store.expenses, mine, Approved);
    assert pending * approved == {};
    Aggregates.SubsetCount(pending + approved, mine);
    row := AreaRow(|members|, |mine|, total, |pending|, |approved|,
                   BudgetUsage(total, store.areas[a].budgetMonthly));
  }

  /** The chart series: amounts per monthly window, amounts per category, counts per status,
      or nothing for an unknown chart type. */
  datatype Chart =
    | MonthlySeries(totals: seq<int>)
    | CategorySeries(sums: map<string, int>)
    | StatusSeries(counts: map<ExpenseStatus, nat>)
    | NoSeries

  /** A (year, month) window of the monthly chart. */
  datatype Window = Window(year: int, month: int)

  /** The statuses occurring among the ids. */
  function StatusesOf(exps: map<nat, Expense>, ids: set<nat>): (sts: set<ExpenseStatus>)
    requires ids <= exps.Keys
    ensures forall st :: st in sts <==> exists id :: id in ids && exps[id].status == st
  {
    set id | id in ids :: exps[id].status
  }

  /** `chart_data`: no role check at all; an admin charts every expense and anyone else the
      expenses of their direct reports. The chart type defaults to 'monthly'; `windows` are
      the twelve months the clock yields, oldest first. */
  method ChartData(store: Store, actor: Actor, chartType: Option<string>, windows: seq<Window>) returns (c: Chart)
    ensures var kind := if chartType.Some? then chartType.value else "monthly";
      var exps := store.expenses;
      var scope := TeamScope(store, actor);
      && (kind == "monthly" <==> c.MonthlySeries?)
      && (kind == "category" <==> c.CategorySeries?)
      && (kind == "status" <==> c.StatusSeries?)
      && (c.MonthlySeries? ==> |c.totals| == |windows| && forall i :: 0 <= i < |windows| ==>
            c.totals[i] == Total(exps, InMonth(exps, scope, windows[i].year, windows[i].month)))
      && (c.CategorySeries? ==> c.sums.Keys == Categories(exps, scope) && forall k :: k in c.sums ==>
            c.sums[k] == Total(exps, InCategory(exps, scope, k)))
      && (c.StatusSeries? ==> c.counts.Keys == StatusesOf(exps, scope) && forall st :: st in c.counts ==>
            c.counts[st] == |WithStatus(exps, scope, st)|)
  {
    var kind := if chartType.Some? then chartType.value else "monthly";
    var exps := store.expenses;
    var scope := TeamScope(store, actor);
    if kind == "monthly" {
      var totals: seq<int> := [];
      var i := 0;
      while i < |windows|
        invariant 0 <= i <= |windows|
        invariant |totals| == i
        invariant forall k :: 0 <= k < i ==>
          totals[k] == Total(exps, InMonth(exps, scope, windows[k].year, windows[k].month))
      {
        var sum := SumAmounts(exps, InMonth(exps, scope, windows[i].year, windows[i].month));
        totals := totals + [sum];
        i := i + 1;
      }
      c := MonthlySeries(totals);
    } else if kind == "category" {
      var groups := CategoryTotals(exps, scope);
      c := CategorySeries(map k | k in groups :: groups[k].total);
    } else if kind == "status" {
      c := StatusSeries(map st | st in StatusesOf(exps, scope) :: |WithStatus(exps, scope, st)|);
    } else {
      c := NoSeries;
    }
  }

  /** A plain user passes no report gate, yet the chart endpoint serves them the expenses of
      anyone who names them as supervisor. */
  lemma ChartScopeForPlainUser()
    ensures var e := Expense(2, 0, 5, Date(2024, 1, 1), "Transporte", "taxi", "r.png", None, None, None, Pending, 0, 0, None);
      var store := Store(map[2 := User("b@x.cl", None, "B", "B", ROLE_USER, None, Some(1), true, 0, None)],
                         map[], map[], map[], map[7 := e], []);
      var actor := Actor(1, ROLE_USER);
      RequireSupervisorOrAdmin(actor).Fail? && 7 in TeamScope(store, actor)
  {
  }
}
