/** The dashboard of script.js: the expense list it keeps, the totals and
    progress figures it shows, the category chart, the ordered list of
    budget alerts and the search filter. The current user and the expense
    list are the fields of a `Dashboard` object; the day of the month,
    which the dashboard reads from the clock, is passed in. */
module Client {
  import Wrappers
  import Usage
  import opened Categories

  /** An expense as the dashboard holds it. The date, owner and timestamps
      are carried by the original records but read by nothing modelled
      here. An empty `notes` stands for absent notes. */
  datatype Expense = Expense(id: int, name: string, amount: real, category: string, notes: string)

  // ---------------------------------------------------------------------
  // Totals (updateDashboard)

  /** Sum of all amounts (`expenses.reduce((sum, exp) => sum + exp.amount, 0)`). */
  function TotalSpent(es: seq<Expense>): real {
    if es == [] then 0.0 else es[0].amount + TotalSpent(es[1..])
  }

  datatype Totals = Totals(totalSpent: real, remaining: real, savings: real, percentUsed: real)

  /** The four figures of the budget cards and the progress bar. */
  function DashboardTotals(budget: real, savingsGoal: real, es: seq<Expense>): (t: Totals)
    ensures t.totalSpent == TotalSpent(es)
    ensures t.remaining == budget - t.totalSpent
    ensures t.remaining <= 0.0 ==> t.savings == 0.0
    ensures t.remaining > 0.0 ==>
      t.savings <= t.remaining && t.savings <= savingsGoal &&
      (t.savings == t.remaining || t.savings == savingsGoal)
    ensures t.percentUsed == Usage.PercentUsed(budget, t.totalSpent)
    ensures budget <= 0.0 ==> t.percentUsed == 0.0
  {
    var totalSpent := TotalSpent(es);
    var remaining := budget - totalSpent;
    var savings := if remaining > 0.0 then (if remaining <= savingsGoal then remaining else savingsGoal) else 0.0;
    Totals(totalSpent, remaining, savings, Usage.PercentUsed(budget, totalSpent))
  }

  /** With a goal no larger than what is left, the whole goal counts as
      saved; otherwise only what is left does, and nothing once the budget
      is used up. */
  lemma {:induction false} SavingsAchieved(budget: real, savingsGoal: real, es: seq<Expense>)
    requires savingsGoal >= 0.0
    ensures 0.0 <= DashboardTotals(budget, savingsGoal, es).savings <= savingsGoal
    ensures DashboardTotals(budget, savingsGoal, es).savings ==
      if budget - TotalSpent(es) <= 0.0 then 0.0
      else if budget - TotalSpent(es) >= savingsGoal then savingsGoal
      else budget - TotalSpent(es)
  {
  }

  // ---------------------------------------------------------------------
  // Category totals and the chart (renderCategoryChart)

  /** Each expense as a (category, amount) item, in list order. */
  function Items(es: seq<Expense>): (r: seq<CategoryTotal>)
    ensures |r| == |es|
    ensures forall i :: 0 <= i < |es| ==> r[i] == CategoryTotal(es[i].category, es[i].amount)
  {
    if es == [] then [] else [CategoryTotal(es[0].category, es[0].amount)] + Items(es[1..])
  }

  lemma {:induction false} ItemsTotal(es: seq<Expense>)
    ensures Total(Items(es)) == TotalSpent(es)
  {
    if es != [] {
      assert Items(es)[1..] == Items(es[1..]);
      ItemsTotal(es[1..]);
    }
  }

  /** The category strings that occur in the list. */
  function CategoriesOf(es: seq<Expense>): set<string> {
    set i | 0 <= i < |es| :: es[i].category
  }

  /** The category totals the dashboard builds from the current list. */
  function CategoryTotals(es: seq<Expense>): seq<CategoryTotal> {
    Group(Items(es))
  }

  /** What the chart and the alerts rely on: one entry per category string
      present in the list, first-met first, each holding that category's
      sum, and the entries together adding up to the total spent. */
  lemma {:induction false} CategoryTotalsSpec(es: seq<Expense>)
    ensures Distinct(Keys(CategoryTotals(es)))
    ensures forall c :: c in Keys(CategoryTotals(es)) <==> c in CategoriesOf(es)
    ensures InFirstEncounterOrder(Keys(CategoryTotals(es)), Keys(Items(es)))
    ensures forall c :: AmountOf(CategoryTotals(es), c) == CategorySum(Items(es), c)
    ensures Total(CategoryTotals(es)) == TotalSpent(es)
  {
    var items := Items(es);
    var totals := CategoryTotals(es);
    assert totals == Group(items);
    GroupKeys(items);
    GroupFirstEncounterOrder(items);
    forall c ensures AmountOf(totals, c) == CategorySum(items, c) {
      GroupAmounts(items, c);
    }
    GroupTotal(items);
    ItemsTotal(es);
    forall c ensures c in Keys(items) <==> c in CategoriesOf(es) {
      if c in Keys(items) {
        var i :| 0 <= i < |items| && Keys(items)[i] == c;
        assert es[i].category == c;
      }
      if c in CategoriesOf(es) {
        var i :| 0 <= i < |es| && es[i].category == c;
        assert Keys(items)[i] == c;
      }
    }
  }

  /** The accumulation loop of renderCategoryChart (`forEach` over the
      list, adding each amount to its category's entry). */
  method BuildCategoryTotals(es: seq<Expense>) returns (totals: seq<CategoryTotal>)
    ensures totals == CategoryTotals(es)
  {
    totals := [];
    var i := 0;
    while i < |es|
      invariant 0 <= i <= |es|
      invariant totals == Group(Items(es[..i]))
    {
      assert Items(es[..i + 1])[..i] == Items(es[..i]);
      totals := Upsert(totals, es[i].category, es[i].amount);
      i := i + 1;
    }
    assert es[..i] == es;
  }

  /** One bar of the chart. `width` is `amount / maxAmount * 100`; it is
      None when the largest total is 0, where the browser gets NaN or an
      infinity. */
  datatype Bar = Bar(category: string, amount: real, width: Wrappers.Option<real>)

  function BarWidth(amount: real, maxAmount: real): Wrappers.Option<real> {
    if maxAmount != 0.0 then Wrappers.Some(amount / maxAmount * 100.0) else Wrappers.None
  }

  /** The chart of a list of category totals: largest first, each scaled
      against the largest one; empty when there are no totals. */
  function Chart(totals: seq<CategoryTotal>): seq<Bar> {
    if totals == [] then []
    else
      var maxAmount := MaxAmount(totals);
      var sorted := SortDesc(totals);
      seq(|sorted|, k requires 0 <= k < |sorted| =>
        Bar(sorted[k].category, sorted[k].amount, BarWidth(sorted[k].amount, maxAmount)))
  }

  /** Bar k of the chart shows entry k of the sorted totals. */
  lemma {:induction false} ChartAt(totals: seq<CategoryTotal>, k: nat)
    requires k < |totals|
    ensures |Chart(totals)| == |totals|
    ensures Chart(totals)[k] ==
      Bar(SortDesc(totals)[k].category, SortDesc(totals)[k].amount, BarWidth(SortDesc(totals)[k].amount, MaxAmount(totals)))
  {
  }

  /** The bars are the sorted totals, and the sort keeps equal amounts in
      the totals' order. */
  lemma {:induction false} ChartTies(totals: seq<CategoryTotal>)
    ensures |Chart(totals)| == |totals|
    ensures forall k :: 0 <= k < |Chart(totals)| ==>
      CategoryTotal(Chart(totals)[k].category, Chart(totals)[k].amount) == SortDesc(totals)[k]
    ensures forall a :: WithAmount(SortDesc(totals), a) == WithAmount(totals, a)
  {
    forall a ensures WithAmount(SortDesc(totals), a) == WithAmount(totals, a) {
      SortStable(totals, a);
    }
    forall k | 0 <= k < |Chart(totals)|
      ensures CategoryTotal(Chart(totals)[k].category, Chart(totals)[k].amount) == SortDesc(totals)[k]
    {
      ChartAt(totals, k);
    }
  }

  /** Sorting keeps the set of categories. */
  lemma {:induction false} SortedKeys(totals: seq<CategoryTotal>)
    ensures forall c :: c in Keys(totals) <==> exists i :: 0 <= i < |SortDesc(totals)| && SortDesc(totals)[i].category == c
  {
    forall c | c in Keys(totals)
      ensures exists i :: 0 <= i < |SortDesc(totals)| && SortDesc(totals)[i].category == c
    {
      SortedHasKey(totals, c);
    }
    forall i | 0 <= i < |SortDesc(totals)| ensures SortDesc(totals)[i].category in Keys(totals) {
      SortedKeyIsKey(totals, i);
    }
  }

  lemma {:induction false} SortedHasKey(totals: seq<CategoryTotal>, c: string)
    requires c in Keys(totals)
    ensures exists i :: 0 <= i < |SortDesc(totals)| && SortDesc(totals)[i].category == c
  {
    var sorted := SortDesc(totals);
    var k :| 0 <= k < |totals| && Keys(totals)[k] == c;
    assert totals[k] in multiset(sorted);
    var i :| 0 <= i < |sorted| && sorted[i] == totals[k];
    assert sorted[i].category == c;
  }

  lemma {:induction false} SortedKeyIsKey(totals: seq<CategoryTotal>, i: nat)
    requires i < |SortDesc(totals)|
    ensures SortDesc(totals)[i].category in Keys(totals)
  {
    var sorted := SortDesc(totals);
    assert sorted[i] in multiset(totals);
    var k :| 0 <= k < |totals| && totals[k] == sorted[i];
    assert Keys(totals)[k] == sorted[i].category;
  }

  /** The chart has one bar per entry, largest amount first, and a bar for
      every category and for nothing else; the bars follow the sorted
      totals, in which equal amounts keep their order. */
  lemma {:induction false} ChartOrder(totals: seq<CategoryTotal>)
    ensures |Chart(totals)| == |totals|
    ensures forall i, j :: 0 <= i < j < |Chart(totals)| ==> Chart(totals)[i].amount >= Chart(totals)[j].amount
    ensures forall c :: c in Keys(totals) <==> exists i :: 0 <= i < |Chart(totals)| && Chart(totals)[i].category == c
    ensures forall k :: 0 <= k < |Chart(totals)| ==>
      CategoryTotal(Chart(totals)[k].category, Chart(totals)[k].amount) == SortDesc(totals)[k]
    ensures forall a :: WithAmount(SortDesc(totals), a) == WithAmount(totals, a)
  {
    var bars := Chart(totals);
    var sorted := SortDesc(totals);
    ChartTies(totals);
    SortedKeys(totals);
    forall c ensures c in Keys(totals) <==> exists i :: 0 <= i < |bars| && bars[i].category == c {
      if c in Keys(totals) {
        var i :| 0 <= i < |sorted| && sorted[i].category == c;
        assert bars[i].category == c;
      }
      if i :| 0 <= i < |bars| && bars[i].category == c {
        assert sorted[i].category == c;
      }
    }
  }

  /** The first bar, the largest total, is the full 100; when the largest
      total is positive no bar is wider. */
  lemma {:induction false} ChartWidths(totals: seq<CategoryTotal>)
    requires totals != []
    ensures MaxAmount(totals) != 0.0 ==> Chart(totals)[0].width == Wrappers.Some(100.0)
    ensures MaxAmount(totals) > 0.0 ==>
      forall i :: 0 <= i < |Chart(totals)| ==> Chart(totals)[i].width.Some? && Chart(totals)[i].width.value <= 100.0
  {
    var m := MaxAmount(totals);
    var sorted := SortDesc(totals);
    SortedHeadIsMax(totals);
    ChartAt(totals, 0);
    if m != 0.0 {
      BarFull(m);
    }
    if m > 0.0 {
      forall i | 0 <= i < |Chart(totals)|
        ensures Chart(totals)[i].width.Some? && Chart(totals)[i].width.value <= 100.0
      {
        ChartAt(totals, i);
        BarAtMostFull(sorted[i].amount, m);
      }
    }
  }

  lemma BarFull(m: real)
    requires m != 0.0
    ensures BarWidth(m, m) == Wrappers.Some(100.0)
  {
    var q := m / m;
    assert q * m == m;
    assert (q - 1.0) * m == 0.0;
  }

  /** An amount no larger than the positive maximum gets a bar no wider
      than 100. */
  lemma BarAtMostFull(amount: real, maxAmount: real)
    requires 0.0 < maxAmount && amount <= maxAmount
    ensures BarWidth(amount, maxAmount).Some? && BarWidth(amount, maxAmount).value <= 100.0
  {
    var q := amount / maxAmount;
    assert q * maxAmount == amount;
    Usage.ScaledAtLeast(1.0, q, maxAmount);
  }

  // ---------------------------------------------------------------------
  // Alerts (generateSmartAlerts)

  /** The four styles an alert is shown in. */
  datatype AlertType = Danger | Warning | Success | Info

  /** The alerts, in the source's order of rules; each carries the figures
      its message is formatted from. */
  datatype Alert =
    | OverBudget(overspent: real)
    | CriticalUsage(percentUsed: real)
    | HighUsage(percentUsed: real)
    | CategoryHeavy(category: string, amount: real, totalSpent: real)
    | SavingsReached(savingsGoal: real)
    | RunRate(avgDaily: real, overBy: real)
    | OnTrack
    | StartTracking
  {
    function Type(): AlertType {
      match this
      case OverBudget(_) => Danger
      case CriticalUsage(_) => Danger
      case HighUsage(_) => Warning
      case CategoryHeavy(_, _, _) => Warning
      case SavingsReached(_) => Success
      case RunRate(_, _) => Warning
      case OnTrack => Success
      case StartTracking => Info
    }

    /** Which rule produced the alert: budget status 0, category 1,
        savings 2, run rate 3, fallback 4. */
    function Rule(): nat {
      match this
      case OverBudget(_) => 0
      case CriticalUsage(_) => 0
      case HighUsage(_) => 0
      case CategoryHeavy(_, _, _) => 1
      case SavingsReached(_) => 2
      case RunRate(_, _) => 3
      case OnTrack => 4
      case StartTracking => 4
    }
  }

  /** Rule 1: at most one alert for how much of the budget is used. */
  function BudgetAlerts(budget: real, totalSpent: real): seq<Alert> {
    var percentUsed := Usage.PercentUsed(budget, totalSpent);
    match Usage.TierOf(percentUsed)
    case Exceeded => [OverBudget(Usage.Abs(budget - totalSpent))]
    case Critical => [CriticalUsage(percentUsed)]
    case Warning => [HighUsage(percentUsed)]
    case Normal => []
  }

  /** Rule 1 as the dashboard writes it: at most one alert, chosen by the
      share of the budget used. */
  method BudgetStatus(budget: real, totalSpent: real) returns (alerts: seq<Alert>)
    ensures alerts == BudgetAlerts(budget, totalSpent)
  {
    alerts := [];
    var percentUsed := Usage.PercentUsed(budget, totalSpent);
    var remaining := budget - totalSpent;
    if percentUsed >= 100.0 {
      alerts := alerts + [OverBudget(Usage.Abs(remaining))];
    } else if percentUsed >= 90.0 {
      alerts := alerts + [CriticalUsage(percentUsed)];
    } else if percentUsed >= 75.0 {
      alerts := alerts + [HighUsage(percentUsed)];
    }
  }

  /** `(amount / totalSpent) * 100 > 40` as the browser evaluates it: with
      nothing spent the quotient is +Infinity for a positive amount (the
      test passes), NaN for a zero amount and -Infinity for a negative one
      (the test fails). */
  predicate ExceedsShare(amount: real, totalSpent: real) {
    if totalSpent == 0.0 then amount > 0.0 else amount / totalSpent * 100.0 > 40.0
  }

  /** The 40% test without division: for a total that is not negative,
      5 * amount > 2 * total (with nothing spent this is "amount > 0");
      multiplying through by a negative total flips the comparison. */
  predicate OverShare(amount: real, totalSpent: real) {
    if totalSpent >= 0.0 then 5.0 * amount > 2.0 * totalSpent else 5.0 * amount < 2.0 * totalSpent
  }

  /** The browser's 40% test is the division-free one, for every total. */
  lemma ExceedsShareCross(amount: real, totalSpent: real)
    ensures ExceedsShare(amount, totalSpent) <==> OverShare(amount, totalSpent)
  {
    if totalSpent > 0.0 {
      ShareOfPositive(amount, totalSpent);
    } else if totalSpent < 0.0 {
      ShareOfNegative(amount, totalSpent);
    }
  }

  /** Over a positive total the share test keeps its direction once both
      sides are multiplied by the total. */
  lemma ShareOfPositive(amount: real, t: real)
    requires t > 0.0
    ensures amount / t * 100.0 > 40.0 <==> 5.0 * amount > 2.0 * t
  {
    var q := amount / t;
    assert q * t == amount;
    Usage.ScaledGreater(q * 100.0, 40.0, t);
    assert q * 100.0 * t == 100.0 * (q * t);
  }

  /** Over a negative total it turns round. */
  lemma ShareOfNegative(amount: real, t: real)
    requires t < 0.0
    ensures amount / t * 100.0 > 40.0 <==> 5.0 * amount < 2.0 * t
  {
    var q := amount / t;
    assert q * t == amount;
    Usage.ScaledGreater(q * 100.0, 40.0, -t);
    assert q * 100.0 * -t == -100.0 * (q * t);
  }

  /** Rule 2: one warning per category over 40% of the spending, in the
      order of the category totals. */
  function CategoryAlerts(totals: seq<CategoryTotal>, totalSpent: real): seq<Alert> {
    if totals == [] then []
    else
      var last := totals[|totals| - 1];
      CategoryAlerts(totals[..|totals| - 1], totalSpent) +
        (if ExceedsShare(last.amount, totalSpent) then [CategoryHeavy(last.category, last.amount, totalSpent)] else [])
  }

  /** The loop of rule 2: visits the totals in order and pushes a warning
      for each category over the share. */
  method CategoryWarnings(totals: seq<CategoryTotal>, totalSpent: real) returns (alerts: seq<Alert>)
    ensures alerts == CategoryAlerts(totals, totalSpent)
  {
    alerts := [];
    var i := 0;
    while i < |totals|
      invariant 0 <= i <= |totals|
      invariant alerts == CategoryAlerts(totals[..i], totalSpent)
    {
      var entry := totals[i];
      assert totals[..i + 1][..i] == totals[..i];
      if ExceedsShare(entry.amount, totalSpent) {
        alerts := alerts + [CategoryHeavy(entry.category, entry.amount, totalSpent)];
      }
      i := i + 1;
    }
    assert totals[..i] == totals;
  }

  /** Rule 3: the savings goal is reached. */
  function SavingsAlerts(remaining: real, savingsGoal: real): seq<Alert> {
    if remaining > 0.0 && remaining >= savingsGoal then [SavingsReached(savingsGoal)] else []
  }

  /** Rule 4: the daily average over the days so far, stretched to a
      30-day month, goes past the budget. */
  function RunRateAlerts(count: nat, totalSpent: real, budget: real, day: int): seq<Alert>
    requires day >= 1
  {
    if count > 0 then
      var avgDaily := totalSpent / (day as real);
      var projected := avgDaily * 30.0;
      if projected > budget then [RunRate(avgDaily, projected - budget)] else []
    else []
  }

  /** Rule 3 as the dashboard writes it. */
  method SavingsCheck(remaining: real, savingsGoal: real) returns (alerts: seq<Alert>)
    ensures alerts == SavingsAlerts(remaining, savingsGoal)
  {
    alerts := [];
    if remaining > 0.0 && remaining >= savingsGoal {
      alerts := alerts + [SavingsReached(savingsGoal)];
    }
  }

  /** Rule 4 as the dashboard writes it: the projection is only computed
      when there is at least one expense. */
  method RunRateCheck(count: nat, totalSpent: real, budget: real, day: int) returns (alerts: seq<Alert>)
    requires day >= 1
    ensures alerts == RunRateAlerts(count, totalSpent, budget, day)
  {
    alerts := [];
    if count > 0 {
      var avgDaily := totalSpent / (day as real);
      var projectedMonthly := avgDaily * 30.0;
      if projectedMonthly > budget {
        alerts := alerts + [RunRate(avgDaily, projectedMonthly - budget)];
      }
    }
  }

  /** The alert list: rules 1 to 4 in order, and when none of them fired,
      "on track" for a non-empty list or "start tracking" for an empty one. */
  function SmartAlerts(budget: real, savingsGoal: real, es: seq<Expense>, day: int): seq<Alert>
    requires 1 <= day <= 31
  {
    var totalSpent := TotalSpent(es);
    Combine(BudgetAlerts(budget, totalSpent),
            CategoryAlerts(CategoryTotals(es), totalSpent),
            SavingsAlerts(budget - totalSpent, savingsGoal),
            RunRateAlerts(|es|, totalSpent, budget, day),
            if |es| > 0 then OnTrack else StartTracking)
  }

  /** The four rule parts in order, or the fallback when all are empty. */
  function Combine(b: seq<Alert>, c: seq<Alert>, s: seq<Alert>, r: seq<Alert>, fallback: Alert): seq<Alert> {
    if b + c + s + r != [] then b + c + s + r else [fallback]
  }

  /** The alerts rules 1 to 4 produce, before the fallback. */
  function FiredAlerts(budget: real, savingsGoal: real, es: seq<Expense>, day: int): seq<Alert>
    requires 1 <= day <= 31
  {
    var totalSpent := TotalSpent(es);
    BudgetAlerts(budget, totalSpent) +
    CategoryAlerts(CategoryTotals(es), totalSpent) +
    SavingsAlerts(budget - totalSpent, savingsGoal) +
    RunRateAlerts(|es|, totalSpent, budget, day)
  }

  lemma {:induction false} SmartAlertsFromFired(budget: real, savingsGoal: real, es: seq<Expense>, day: int)
    requires 1 <= day <= 31
    ensures SmartAlerts(budget, savingsGoal, es, day) ==
      if FiredAlerts(budget, savingsGoal, es, day) != [] then FiredAlerts(budget, savingsGoal, es, day)
      else if |es| > 0 then [OnTrack] else [StartTracking]
  {
  }

  predicate AllFromRule(s: seq<Alert>, rule: nat) {
    forall i :: 0 <= i < |s| ==> s[i].Rule() == rule
  }

  /** Rule 2 produces alerts of its own rule only. */
  lemma {:induction false} CategoryAlertsRule(totals: seq<CategoryTotal>, totalSpent: real)
    ensures AllFromRule(CategoryAlerts(totals, totalSpent), 1)
  {
    if totals != [] {
      CategoryAlertsRule(totals[..|totals| - 1], totalSpent);
    }
  }

  /** Rule 2 on one entry: its warning when it is over the share, else
      nothing. */
  lemma CategoryAlertsSingle(x: CategoryTotal, totalSpent: real)
    ensures CategoryAlerts([x], totalSpent) ==
      if ExceedsShare(x.amount, totalSpent) then [CategoryHeavy(x.category, x.amount, totalSpent)] else []
  {
    assert [x][..0] == [];
  }

  /** Rule 2 visits the totals one by one: the warnings for two runs of
      totals are those of the first run followed by those of the second.
      With `CategoryAlertsSingle` this gives one warning per entry over
      the share, in visit order. */
  lemma {:induction false} CategoryAlertsAppend(a: seq<CategoryTotal>, b: seq<CategoryTotal>, totalSpent: real)
    ensures CategoryAlerts(a + b, totalSpent) == CategoryAlerts(a, totalSpent) + CategoryAlerts(b, totalSpent)
    decreases |b|
  {
    if b == [] {
      assert a + b == a;
    } else {
      var n := |b| - 1;
      var e := if ExceedsShare(b[n].amount, totalSpent) then [CategoryHeavy(b[n].category, b[n].amount, totalSpent)] else [];
      assert (a + b)[..|a + b| - 1] == a + b[..n];
      assert (a + b)[|a + b| - 1] == b[n];
      assert CategoryAlerts(a + b, totalSpent) == CategoryAlerts(a + b[..n], totalSpent) + e;
      CategoryAlertsAppend(a, b[..n], totalSpent);
      assert CategoryAlerts(b, totalSpent) == CategoryAlerts(b[..n], totalSpent) + e;
      var x, y := CategoryAlerts(a, totalSpent), CategoryAlerts(b[..n], totalSpent);
      assert (x + y) + e == x + (y + e);
    }
  }

  /** Every alert of rule 2 is a category warning carrying the figures of
      an entry over the share, every such entry has its warning, and there
      are no more warnings than totals. */
  lemma {:induction false} CategoryAlertsExact(totals: seq<CategoryTotal>, totalSpent: real)
    ensures AllFromRule(CategoryAlerts(totals, totalSpent), 1)
    ensures |CategoryAlerts(totals, totalSpent)| <= |totals|
    ensures forall a :: a in CategoryAlerts(totals, totalSpent) <==>
      exists k :: 0 <= k < |totals| && ExceedsShare(totals[k].amount, totalSpent) &&
        a == CategoryHeavy(totals[k].category, totals[k].amount, totalSpent)
  {
    if totals != [] {
      var n := |totals| - 1;
      CategoryAlertsExact(totals[..n], totalSpent);
      forall a ensures a in CategoryAlerts(totals, totalSpent) <==>
        exists k :: 0 <= k < |totals| && ExceedsShare(totals[k].amount, totalSpent) &&
          a == CategoryHeavy(totals[k].category, totals[k].amount, totalSpent)
      {
        if k :| (0 <= k < |totals| && ExceedsShare(totals[k].amount, totalSpent) &&
                 a == CategoryHeavy(totals[k].category, totals[k].amount, totalSpent)) {
          if k < n {
            assert totals[..n][k] == totals[k];
          }
        }
        if a in CategoryAlerts(totals[..n], totalSpent) {
          var k :| 0 <= k < n && ExceedsShare(totals[..n][k].amount, totalSpent) &&
            a == CategoryHeavy(totals[..n][k].category, totals[..n][k].amount, totalSpent);
          assert totals[k] == totals[..n][k];
        }
      }
    }
  }

  /** Rules 1, 3 and 4 each produce alerts of their own rule only. */
  lemma PartRules(budget: real, totalSpent: real, savingsGoal: real, count: nat, day: int)
    requires day >= 1
    ensures AllFromRule(BudgetAlerts(budget, totalSpent), 0)
    ensures AllFromRule(SavingsAlerts(budget - totalSpent, savingsGoal), 2)
    ensures AllFromRule(RunRateAlerts(count, totalSpent, budget, day), 3)
  {
  }

  /** Where index `i` of four concatenated parts falls decides its rule. */
  lemma {:induction false} RankInParts(b: seq<Alert>, c: seq<Alert>, s: seq<Alert>, r: seq<Alert>, i: nat)
    requires AllFromRule(b, 0) && AllFromRule(c, 1) && AllFromRule(s, 2) && AllFromRule(r, 3)
    requires i < |b + c + s + r|
    ensures (b + c + s + r)[i].Rule() ==
      if i < |b| then 0 else if i < |b| + |c| then 1 else if i < |b| + |c| + |s| then 2 else 3
  {
    var all := b + c + s + r;
    if i < |b| {
      assert all[i] == b[i];
    } else if i < |b| + |c| {
      assert all[i] == c[i - |b|];
    } else if i < |b| + |c| + |s| {
      assert all[i] == s[i - |b| - |c|];
    } else {
      assert all[i] == r[i - |b| - |c| - |s|];
    }
  }

  /** The alerts come in the order of the rules: budget status, categories,
      savings, run rate, fallback; and the list is never empty. */
  lemma {:induction false} AlertsInRuleOrder(budget: real, savingsGoal: real, es: seq<Expense>, day: int)
    requires 1 <= day <= 31
    ensures SmartAlerts(budget, savingsGoal, es, day) != []
    ensures forall i, j :: 0 <= i < j < |SmartAlerts(budget, savingsGoal, es, day)| ==>
      SmartAlerts(budget, savingsGoal, es, day)[i].Rule() <= SmartAlerts(budget, savingsGoal, es, day)[j].Rule()
  {
    var totalSpent := TotalSpent(es);
    var b := BudgetAlerts(budget, totalSpent);
    var c := CategoryAlerts(CategoryTotals(es), totalSpent);
    var s := SavingsAlerts(budget - totalSpent, savingsGoal);
    var r := RunRateAlerts(|es|, totalSpent, budget, day);
    CategoryAlertsRule(CategoryTotals(es), totalSpent);
    PartRules(budget, totalSpent, savingsGoal, |es|, day);
    var fired := b + c + s + r;
    assert fired == FiredAlerts(budget, savingsGoal, es, day);
    forall i, j | 0 <= i < j < |fired| ensures fired[i].Rule() <= fired[j].Rule() {
      RankInParts(b, c, s, r, i);
      RankInParts(b, c, s, r, j);
    }
  }

  /** In a combination of parts of rules 0 to 3 and a rule-4 fallback, an
      alert of rule k is present exactly when part k holds it. */
  lemma {:induction false} MemberOfParts(a: seq<Alert>, b: seq<Alert>, c: seq<Alert>, s: seq<Alert>, r: seq<Alert>, fallback: Alert, x: Alert)
    requires AllFromRule(b, 0) && AllFromRule(c, 1) && AllFromRule(s, 2) && AllFromRule(r, 3)
    requires fallback.Rule() == 4
    requires a == Combine(b, c, s, r, fallback)
    ensures x.Rule() == 0 ==> (x in a <==> x in b)
    ensures x.Rule() == 1 ==> (x in a <==> x in c)
    ensures x.Rule() == 2 ==> (x in a <==> x in s)
    ensures x.Rule() == 3 ==> (x in a <==> x in r)
    ensures x.Rule() == 4 ==> (x in a <==> b + c + s + r == [] && x == fallback)
  {
    if x in b {
      var i :| 0 <= i < |b| && b[i] == x;
    }
    if x in c {
      var i :| 0 <= i < |c| && c[i] == x;
    }
    if x in s {
      var i :| 0 <= i < |s| && s[i] == x;
    }
    if x in r {
      var i :| 0 <= i < |r| && r[i] == x;
    }
  }

  /** The list is the four rule parts combined with the fallback, and each
      part holds alerts of its own rule only. */
  lemma {:induction false} SmartAlertsShape(budget: real, savingsGoal: real, es: seq<Expense>, day: int)
    requires 1 <= day <= 31
    ensures SmartAlerts(budget, savingsGoal, es, day) ==
      Combine(BudgetAlerts(budget, TotalSpent(es)), CategoryAlerts(CategoryTotals(es), TotalSpent(es)),
              SavingsAlerts(budget - TotalSpent(es), savingsGoal), RunRateAlerts(|es|, TotalSpent(es), budget, day),
              if |es| > 0 then OnTrack else StartTracking)
    ensures FiredAlerts(budget, savingsGoal, es, day) ==
      BudgetAlerts(budget, TotalSpent(es)) + CategoryAlerts(CategoryTotals(es), TotalSpent(es)) +
      SavingsAlerts(budget - TotalSpent(es), savingsGoal) + RunRateAlerts(|es|, TotalSpent(es), budget, day)
    ensures AllFromRule(BudgetAlerts(budget, TotalSpent(es)), 0)
    ensures AllFromRule(CategoryAlerts(CategoryTotals(es), TotalSpent(es)), 1)
    ensures AllFromRule(SavingsAlerts(budget - TotalSpent(es), savingsGoal), 2)
    ensures AllFromRule(RunRateAlerts(|es|, TotalSpent(es), budget, day), 3)
  {
    CategoryAlertsRule(CategoryTotals(es), TotalSpent(es));
    PartRules(budget, TotalSpent(es), savingsGoal, |es|, day);
  }

  /** A budget-status alert is in the list exactly when rule 1 produced it. */
  lemma {:induction false} BudgetAlertIn(budget: real, savingsGoal: real, es: seq<Expense>, day: int, x: Alert)
    requires 1 <= day <= 31 && x.Rule() == 0
    ensures x in SmartAlerts(budget, savingsGoal, es, day) <==> x in BudgetAlerts(budget, TotalSpent(es))
  {
    var t := TotalSpent(es);
    var b, cs := BudgetAlerts(budget, t), CategoryAlerts(CategoryTotals(es), t);
    var s, r := SavingsAlerts(budget - t, savingsGoal), RunRateAlerts(|es|, t, budget, day);
    SmartAlertsShape(budget, savingsGoal, es, day);
    MemberOfParts(SmartAlerts(budget, savingsGoal, es, day), b, cs, s, r, if |es| > 0 then OnTrack else StartTracking, x);
  }

  /** A category warning is in the list exactly when rule 2 produced it. */
  lemma {:induction false} CategoryAlertIn(budget: real, savingsGoal: real, es: seq<Expense>, day: int, x: Alert)
    requires 1 <= day <= 31 && x.Rule() == 1
    ensures x in SmartAlerts(budget, savingsGoal, es, day) <==> x in CategoryAlerts(CategoryTotals(es), TotalSpent(es))
  {
    var t := TotalSpent(es);
    var b, cs := BudgetAlerts(budget, t), CategoryAlerts(CategoryTotals(es), t);
    var s, r := SavingsAlerts(budget - t, savingsGoal), RunRateAlerts(|es|, t, budget, day);
    SmartAlertsShape(budget, savingsGoal, es, day);
    MemberOfParts(SmartAlerts(budget, savingsGoal, es, day), b, cs, s, r, if |es| > 0 then OnTrack else StartTracking, x);
  }

  /** A savings alert is in the list exactly when rule 3 produced it. */
  lemma {:induction false} SavingsAlertIn(budget: real, savingsGoal: real, es: seq<Expense>, day: int, x: Alert)
    requires 1 <= day <= 31 && x.Rule() == 2
    ensures x in SmartAlerts(budget, savingsGoal, es, day) <==> x in SavingsAlerts(budget - TotalSpent(es), savingsGoal)
  {
    var t := TotalSpent(es);
    var b, cs := BudgetAlerts(budget, t), CategoryAlerts(CategoryTotals(es), t);
    var s, r := SavingsAlerts(budget - t, savingsGoal), RunRateAlerts(|es|, t, budget, day);
    var a := SmartAlerts(budget, savingsGoal, es, day);
    SmartAlertsShape(budget, savingsGoal, es, day);
    MemberOfParts(a, b, cs, s, r, if |es| > 0 then OnTrack else StartTracking, x);
    assert x in a <==> x in s;
  }

  /** A run-rate alert is in the list exactly when rule 4 produced it. */
  lemma {:induction false} RunRateAlertIn(budget: real, savingsGoal: real, es: seq<Expense>, day: int, x: Alert)
    requires 1 <= day <= 31 && x.Rule() == 3
    ensures x in SmartAlerts(budget, savingsGoal, es, day) <==> x in RunRateAlerts(|es|, TotalSpent(es), budget, day)
  {
    var t := TotalSpent(es);
    var b, cs := BudgetAlerts(budget, t), CategoryAlerts(CategoryTotals(es), t);
    var s, r := SavingsAlerts(budget - t, savingsGoal), RunRateAlerts(|es|, t, budget, day);
    SmartAlertsShape(budget, savingsGoal, es, day);
    MemberOfParts(SmartAlerts(budget, savingsGoal, es, day), b, cs, s, r, if |es| > 0 then OnTrack else StartTracking, x);
  }

  /** A fallback alert is in the list exactly when no rule fired, and it is
      "on track" for a non-empty list, "start tracking" for an empty one. */
  lemma {:induction false} FallbackAlertIn(budget: real, savingsGoal: real, es: seq<Expense>, day: int, x: Alert)
    requires 1 <= day <= 31 && x.Rule() == 4
    ensures x in SmartAlerts(budget, savingsGoal, es, day) <==>
      FiredAlerts(budget, savingsGoal, es, day) == [] && x == if |es| > 0 then OnTrack else StartTracking
  {
    var t := TotalSpent(es);
    var b, cs := BudgetAlerts(budget, t), CategoryAlerts(CategoryTotals(es), t);
    var s, r := SavingsAlerts(budget - t, savingsGoal), RunRateAlerts(|es|, t, budget, day);
    SmartAlertsShape(budget, savingsGoal, es, day);
    MemberOfParts(SmartAlerts(budget, savingsGoal, es, day), b, cs, s, r, if |es| > 0 then OnTrack else StartTracking, x);
  }

  /** Rule 1 without division: which budget alert (if any) follows from
      comparing the spending with fractions of a positive budget. */
  lemma BudgetAlertsBySpending(budget: real, totalSpent: real)
    ensures BudgetAlerts(budget, totalSpent) ==
      if budget <= 0.0 then []
      else if totalSpent >= budget then [OverBudget(totalSpent - budget)]
      else if 10.0 * totalSpent >= 9.0 * budget then [CriticalUsage(Usage.PercentUsed(budget, totalSpent))]
      else if 4.0 * totalSpent >= 3.0 * budget then [HighUsage(Usage.PercentUsed(budget, totalSpent))]
      else []
  {
    if budget > 0.0 {
      Usage.TierBySpending(budget, totalSpent);
    } else {
      Usage.NoBudgetStaysNormal(budget, totalSpent);
    }
  }

  /** A budget-status alert can only be the first alert. */
  lemma {:induction false} BudgetAlertFirst(budget: real, savingsGoal: real, es: seq<Expense>, day: int, i: nat)
    requires 1 <= day <= 31
    requires i < |SmartAlerts(budget, savingsGoal, es, day)| && SmartAlerts(budget, savingsGoal, es, day)[i].Rule() == 0
    ensures i == 0
  {
    var t := TotalSpent(es);
    var b := BudgetAlerts(budget, t);
    var cs := CategoryAlerts(CategoryTotals(es), t);
    var s := SavingsAlerts(budget - t, savingsGoal);
    var r := RunRateAlerts(|es|, t, budget, day);
    SmartAlertsFromFired(budget, savingsGoal, es, day);
    CategoryAlertsExact(CategoryTotals(es), t);
    PartRules(budget, t, savingsGoal, |es|, day);
    assert FiredAlerts(budget, savingsGoal, es, day) == b + cs + s + r;
    RankInParts(b, cs, s, r, i);
  }

  /** Rule 1 in terms of spending against the budget: at most one budget
      alert, always first, and which one it is follows the tier. With no
      positive budget, or under 75% of it, there is none. */
  lemma {:induction false} BudgetStatusAlert(budget: real, savingsGoal: real, es: seq<Expense>, day: int)
    requires 1 <= day <= 31
    ensures forall i :: 0 < i < |SmartAlerts(budget, savingsGoal, es, day)| ==>
      SmartAlerts(budget, savingsGoal, es, day)[i].Rule() != 0
    ensures budget > 0.0 && TotalSpent(es) >= budget ==>
      SmartAlerts(budget, savingsGoal, es, day)[0] == OverBudget(TotalSpent(es) - budget)
    ensures budget > 0.0 && TotalSpent(es) < budget && 10.0 * TotalSpent(es) >= 9.0 * budget ==>
      SmartAlerts(budget, savingsGoal, es, day)[0] == CriticalUsage(Usage.PercentUsed(budget, TotalSpent(es)))
    ensures budget > 0.0 && 10.0 * TotalSpent(es) < 9.0 * budget && 4.0 * TotalSpent(es) >= 3.0 * budget ==>
      SmartAlerts(budget, savingsGoal, es, day)[0] == HighUsage(Usage.PercentUsed(budget, TotalSpent(es)))
    ensures budget <= 0.0 || 4.0 * TotalSpent(es) < 3.0 * budget ==>
      forall i :: 0 <= i < |SmartAlerts(budget, savingsGoal, es, day)| ==> SmartAlerts(budget, savingsGoal, es, day)[i].Rule() != 0
  {
    var t := TotalSpent(es);
    var a := SmartAlerts(budget, savingsGoal, es, day);
    var b := BudgetAlerts(budget, t);
    AlertsInRuleOrder(budget, savingsGoal, es, day);
    BudgetAlertsBySpending(budget, t);
    forall i | 0 <= i < |a| && a[i].Rule() == 0 ensures i == 0 && a[i] in b {
      BudgetAlertFirst(budget, savingsGoal, es, day, i);
      BudgetAlertIn(budget, savingsGoal, es, day, a[i]);
    }
    if b != [] {
      BudgetAlertIn(budget, savingsGoal, es, day, b[0]);
      var j :| 0 <= j < |a| && a[j] == b[0];
      assert a[j].Rule() == 0;
    }
  }

  /** Each entry of the category totals is a category of the list and
      holds that category's sum. */
  lemma {:induction false} CategoryEntryOf(es: seq<Expense>, k: nat)
    requires k < |CategoryTotals(es)|
    ensures CategoryTotals(es)[k].amount == CategorySum(Items(es), CategoryTotals(es)[k].category)
    ensures CategoryTotals(es)[k].category in CategoriesOf(es)
  {
    var totals := CategoryTotals(es);
    CategoryTotalsSpec(es);
    AmountOfEntry(totals, k);
    assert Keys(totals)[k] == totals[k].category;
    assert totals[k].category in Keys(totals);
  }

  /** Each category of the list has its entry among the category totals. */
  lemma {:induction false} EntryForCategory(es: seq<Expense>, c: string) returns (k: nat)
    requires c in CategoriesOf(es)
    ensures k < |CategoryTotals(es)| && CategoryTotals(es)[k].category == c
    ensures CategoryTotals(es)[k].amount == CategorySum(Items(es), c)
  {
    var totals := CategoryTotals(es);
    CategoryTotalsSpec(es);
    assert c in Keys(totals);
    var j :| 0 <= j < |Keys(totals)| && Keys(totals)[j] == c;
    k := j;
    AmountOfEntry(totals, k);
  }

  /** A category warning in the list names a category of the list whose
      amounts make more than 40% of the total, and reports that sum and
      that total. */
  lemma {:induction false} AlertedCategoryIsHeavy(budget: real, savingsGoal: real, es: seq<Expense>, day: int, x: Alert)
    requires 1 <= day <= 31
    requires x in SmartAlerts(budget, savingsGoal, es, day) && x.CategoryHeavy?
    ensures x.category in CategoriesOf(es)
    ensures x.amount == CategorySum(Items(es), x.category)
    ensures x.totalSpent == TotalSpent(es)
    ensures OverShare(x.amount, x.totalSpent)
  {
    var t := TotalSpent(es);
    var totals := CategoryTotals(es);
    CategoryAlertIn(budget, savingsGoal, es, day, x);
    CategoryAlertsExact(totals, t);
    var k :| 0 <= k < |totals| && ExceedsShare(totals[k].amount, t) &&
      x == CategoryHeavy(totals[k].category, totals[k].amount, t);
    CategoryEntryOf(es, k);
    ExceedsShareCross(totals[k].amount, t);
  }

  /** A category of the list whose amounts make more than 40% of the total
      gets its warning, reporting its sum and the total. */
  lemma {:induction false} HeavyCategoryIsAlerted(budget: real, savingsGoal: real, es: seq<Expense>, day: int, c: string)
    requires 1 <= day <= 31
    requires c in CategoriesOf(es) && OverShare(CategorySum(Items(es), c), TotalSpent(es))
    ensures CategoryHeavy(c, CategorySum(Items(es), c), TotalSpent(es)) in SmartAlerts(budget, savingsGoal, es, day)
  {
    var t := TotalSpent(es);
    var totals := CategoryTotals(es);
    var k := EntryForCategory(es, c);
    ExceedsShareCross(totals[k].amount, t);
    HeavyEntryAlerted(totals, t, k);
    CategoryAlertIn(budget, savingsGoal, es, day, CategoryHeavy(c, CategorySum(Items(es), c), t));
  }

  /** With no entry over the share, rule 2 produces nothing. */
  lemma {:induction false} NoEntryOverShare(totals: seq<CategoryTotal>, totalSpent: real)
    requires forall k :: 0 <= k < |totals| ==> !ExceedsShare(totals[k].amount, totalSpent)
    ensures CategoryAlerts(totals, totalSpent) == []
  {
    if totals != [] {
      NoEntryOverShare(totals[..|totals| - 1], totalSpent);
    }
  }

  /** An entry over the share gives its warning in rule 2's part. */
  lemma {:induction false} HeavyEntryAlerted(totals: seq<CategoryTotal>, totalSpent: real, k: nat)
    requires k < |totals| && ExceedsShare(totals[k].amount, totalSpent)
    ensures CategoryHeavy(totals[k].category, totals[k].amount, totalSpent) in CategoryAlerts(totals, totalSpent)
  {
    CategoryAlertsExact(totals, totalSpent);
  }

  /** Rule 2 against the list itself: there is a warning for category `c`
      exactly when `c` occurs in the list and its amounts make more than
      40% of the total, in the division-free form of `OverShare`. */
  lemma {:induction false} CategoryAlertFor(budget: real, savingsGoal: real, es: seq<Expense>, day: int, c: string)
    requires 1 <= day <= 31
    ensures (exists x :: x in SmartAlerts(budget, savingsGoal, es, day) && x.CategoryHeavy? && x.category == c)
      <==> c in CategoriesOf(es) && OverShare(CategorySum(Items(es), c), TotalSpent(es))
  {
    if c in CategoriesOf(es) && OverShare(CategorySum(Items(es), c), TotalSpent(es)) {
      HeavyCategoryIsAlerted(budget, savingsGoal, es, day, c);
    }
    if x :| x in SmartAlerts(budget, savingsGoal, es, day) && x.CategoryHeavy? && x.category == c {
      AlertedCategoryIsHeavy(budget, savingsGoal, es, day, x);
    }
  }

  /** Each category's sum lies between 0 and the total when no amount is
      negative. */
  lemma {:induction false} CategorySumBounds(items: seq<CategoryTotal>, c: string)
    requires forall i :: 0 <= i < |items| ==> items[i].amount >= 0.0
    ensures 0.0 <= CategorySum(items, c) <= Total(items)
  {
    if items != [] {
      CategorySumBounds(items[1..], c);
    }
  }

  /** With no negative amounts and nothing spent there is no category
      warning: every category's sum is 0, and 0 / 0 is NaN. */
  lemma {:induction false} NoCategoryAlertWithoutSpending(budget: real, savingsGoal: real, es: seq<Expense>, day: int)
    requires 1 <= day <= 31
    requires forall i :: 0 <= i < |es| ==> es[i].amount >= 0.0
    requires TotalSpent(es) == 0.0
    ensures forall x :: x in SmartAlerts(budget, savingsGoal, es, day) ==> !x.CategoryHeavy?
  {
    var totals := CategoryTotals(es);
    ItemsTotal(es);
    forall k | 0 <= k < |totals| ensures !ExceedsShare(totals[k].amount, 0.0) {
      CategoryEntryOf(es, k);
      CategorySumBounds(Items(es), totals[k].category);
    }
    NoEntryOverShare(totals, 0.0);
    forall x | x in SmartAlerts(budget, savingsGoal, es, day) && x.CategoryHeavy?
      ensures x in CategoryAlerts(totals, TotalSpent(es))
    {
      CategoryAlertIn(budget, savingsGoal, es, day, x);
    }
  }

  /** Rule 3: the savings alert appears exactly when something is left and
      what is left reaches the goal. */
  lemma {:induction false} SavingsAlertIff(budget: real, savingsGoal: real, es: seq<Expense>, day: int)
    requires 1 <= day <= 31
    ensures SavingsReached(savingsGoal) in SmartAlerts(budget, savingsGoal, es, day) <==>
      budget - TotalSpent(es) > 0.0 && budget - TotalSpent(es) >= savingsGoal
  {
    SavingsAlertIn(budget, savingsGoal, es, day, SavingsReached(savingsGoal));
  }

  /** Rule 4: a run-rate warning appears exactly when the list is not empty
      and 30 * spent > budget * day; it reports the daily average and a
      positive overage. */
  lemma {:induction false} RunRateAlertIff(budget: real, savingsGoal: real, es: seq<Expense>, day: int)
    requires 1 <= day <= 31
    ensures (exists x :: x in SmartAlerts(budget, savingsGoal, es, day) && x.RunRate?)
      <==> |es| > 0 && 30.0 * TotalSpent(es) > budget * (day as real)
    ensures forall x :: x in SmartAlerts(budget, savingsGoal, es, day) && x.RunRate? ==>
      x.avgDaily == TotalSpent(es) / (day as real) && x.overBy > 0.0 &&
      x.overBy == TotalSpent(es) / (day as real) * 30.0 - budget
  {
    var t := TotalSpent(es);
    var r := RunRateAlerts(|es|, t, budget, day);
    Usage.ProjectionCross(t, budget, day);
    forall x | x in SmartAlerts(budget, savingsGoal, es, day) && x.RunRate?
      ensures x in r
    {
      RunRateAlertIn(budget, savingsGoal, es, day, x);
    }
    if r != [] {
      RunRateAlertIn(budget, savingsGoal, es, day, r[0]);
    }
  }

  /** With no expenses only the savings rule can fire: the list is the
      savings alert when the budget is positive and covers the goal, and
      the "start tracking" hint otherwise. */
  lemma EmptyListAlerts(budget: real, savingsGoal: real, day: int)
    requires 1 <= day <= 31
    ensures SmartAlerts(budget, savingsGoal, [], day) ==
      if budget > 0.0 && budget >= savingsGoal then [SavingsReached(savingsGoal)] else [StartTracking]
  {
    assert CategoryTotals([]) == [];
  }

  /** No rule fires: under 75% of a positive budget (or no budget at all),
      no category over 40%, the savings goal not reached and no projected
      overrun. */
  predicate Quiet(budget: real, savingsGoal: real, es: seq<Expense>, day: int) {
    var t := TotalSpent(es);
    && (budget <= 0.0 || 4.0 * t < 3.0 * budget)
    && (forall c :: c in CategoriesOf(es) ==> !OverShare(CategorySum(Items(es), c), t))
    && !(budget - t > 0.0 && budget - t >= savingsGoal)
    && 30.0 * t <= budget * (day as real)
  }

  /** A quiet list fires no rule. */
  lemma {:induction false} QuietFiresNothing(budget: real, savingsGoal: real, es: seq<Expense>, day: int)
    requires 1 <= day <= 31
    requires Quiet(budget, savingsGoal, es, day)
    ensures FiredAlerts(budget, savingsGoal, es, day) == []
  {
    var t := TotalSpent(es);
    var totals := CategoryTotals(es);
    var cs := CategoryAlerts(totals, t);
    BudgetAlertsBySpending(budget, t);
    Usage.ProjectionCross(t, budget, day);
    forall k | 0 <= k < |totals| ensures !ExceedsShare(totals[k].amount, t) {
      CategoryEntryOf(es, k);
      ExceedsShareCross(totals[k].amount, t);
    }
    NoEntryOverShare(totals, t);
  }

  /** A non-empty list that is not quiet fires some rule. */
  lemma {:induction false} NotQuietFires(budget: real, savingsGoal: real, es: seq<Expense>, day: int)
    requires 1 <= day <= 31
    requires es != []
    requires !Quiet(budget, savingsGoal, es, day)
    ensures FiredAlerts(budget, savingsGoal, es, day) != []
  {
    var t := TotalSpent(es);
    var totals := CategoryTotals(es);
    var b := BudgetAlerts(budget, t);
    var cs := CategoryAlerts(totals, t);
    var s := SavingsAlerts(budget - t, savingsGoal);
    var r := RunRateAlerts(|es|, t, budget, day);
    assert FiredAlerts(budget, savingsGoal, es, day) == b + cs + s + r;
    BudgetAlertsBySpending(budget, t);
    if c :| c in CategoriesOf(es) && OverShare(CategorySum(Items(es), c), t) {
      var k := EntryForCategory(es, c);
      ExceedsShareCross(totals[k].amount, t);
      HeavyEntryAlerted(totals, t, k);
      assert cs != [];
    } else {
      Usage.ProjectionCross(t, budget, day);
    }
  }

  /** The "on track" alert appears exactly when the list is not empty and
      quiet; it is then the only alert. */
  lemma {:induction false} OnTrackIff(budget: real, savingsGoal: real, es: seq<Expense>, day: int)
    requires 1 <= day <= 31
    requires es != []
    ensures OnTrack in SmartAlerts(budget, savingsGoal, es, day) <==> Quiet(budget, savingsGoal, es, day)
    ensures OnTrack in SmartAlerts(budget, savingsGoal, es, day) ==> SmartAlerts(budget, savingsGoal, es, day) == [OnTrack]
  {
    FallbackAlertIn(budget, savingsGoal, es, day, OnTrack);
    SmartAlertsFromFired(budget, savingsGoal, es, day);
    if Quiet(budget, savingsGoal, es, day) {
      QuietFiresNothing(budget, savingsGoal, es, day);
    } else {
      NotQuietFires(budget, savingsGoal, es, day);
    }
  }

  // ---------------------------------------------------------------------
  // Search and category filter (filterExpenses)

  /** ASCII lower-casing (`toLowerCase`). */
  function LowerChar(c: char): char {
    if 'A' <= c <= 'Z' then (c as int + 32) as char else c
  }

  function Lower(s: string): (r: string)
    ensures |r| == |s|
    ensures forall i :: 0 <= i < |s| ==> r[i] == LowerChar(s[i])
  {
    if s == [] then [] else [LowerChar(s[0])] + Lower(s[1..])
  }

  /** `s.includes(t)`: `t` occurs somewhere in `s`. */
  predicate Contains(s: string, t: string) {
    t <= s || (s != [] && Contains(s[1..], t))
  }

  /** Category `'all'` or an exact category match, and the lower-cased term
      in the lower-cased name or in non-empty notes. */
  predicate MatchesFilter(e: Expense, category: string, term: string) {
    (category == "all" || e.category == category) &&
    (Contains(Lower(e.name), Lower(term)) || (e.notes != "" && Contains(Lower(e.notes), Lower(term))))
  }

  function FilterExpenses(es: seq<Expense>, category: string, term: string): (r: seq<Expense>)
    ensures |r| <= |es|
  {
    if es == [] then []
    else (if MatchesFilter(es[0], category, term) then [es[0]] else []) + FilterExpenses(es[1..], category, term)
  }

  /** Filtering keeps exactly the matching expenses: it works element by
      element and respects concatenation, so the kept ones stay in their
      original order. */
  lemma {:induction false} FilterAppend(a: seq<Expense>, b: seq<Expense>, category: string, term: string)
    ensures FilterExpenses(a + b, category, term) == FilterExpenses(a, category, term) + FilterExpenses(b, category, term)
  {
    if a != [] {
      var head := if MatchesFilter(a[0], category, term) then [a[0]] else [];
      assert (a + b)[0] == a[0] && (a + b)[1..] == a[1..] + b;
      FilterAppend(a[1..], b, category, term);
      calc {
        FilterExpenses(a + b, category, term);
        head + FilterExpenses(a[1..] + b, category, term);
        head + (FilterExpenses(a[1..], category, term) + FilterExpenses(b, category, term));
        (head + FilterExpenses(a[1..], category, term)) + FilterExpenses(b, category, term);
      }
    } else {
      assert a + b == b;
    }
  }

  lemma {:induction false} FilterExact(es: seq<Expense>, category: string, term: string)
    ensures forall e :: e in FilterExpenses(es, category, term) <==> e in es && MatchesFilter(e, category, term)
  {
    if es != [] {
      FilterExact(es[1..], category, term);
      assert es == [es[0]] + es[1..];
    }
  }

  lemma {:induction false} ContainsEmpty(s: string)
    ensures Contains(s, [])
  {
  }

  /** Category 'all' with an empty search term shows the whole list. */
  lemma {:induction false} FilterShowsAll(es: seq<Expense>)
    ensures FilterExpenses(es, "all", "") == es
  {
    if es != [] {
      assert Lower("") == "";
      assert Contains(Lower(es[0].name), "");
      FilterShowsAll(es[1..]);
    }
  }

  // ---------------------------------------------------------------------
  // Deleting (the `filter` on the id)

  /** `expenses.filter(exp => exp.id !== expenseId)`. */
  function WithoutId(es: seq<Expense>, id: int): (r: seq<Expense>)
    ensures |r| <= |es|
  {
    if es == [] then []
    else (if es[0].id != id then [es[0]] else []) + WithoutId(es[1..], id)
  }

  /** Deleting removes every expense with the id and keeps every other one. */
  lemma {:induction false} WithoutIdExact(es: seq<Expense>, id: int)
    ensures forall e :: e in WithoutId(es, id) <==> e in es && e.id != id
  {
    if es != [] {
      WithoutIdExact(es[1..], id);
      assert es == [es[0]] + es[1..];
    }
  }

  /** ... and keeps the survivors in their order. */
  lemma {:induction false} WithoutIdAppend(a: seq<Expense>, b: seq<Expense>, id: int)
    ensures WithoutId(a + b, id) == WithoutId(a, id) + WithoutId(b, id)
  {
    if a != [] {
      var head := if a[0].id != id then [a[0]] else [];
      assert (a + b)[0] == a[0] && (a + b)[1..] == a[1..] + b;
      WithoutIdAppend(a[1..], b, id);
      calc {
        WithoutId(a + b, id);
        head + WithoutId(a[1..] + b, id);
        head + (WithoutId(a[1..], id) + WithoutId(b, id));
        (head + WithoutId(a[1..], id)) + WithoutId(b, id);
      }
    } else {
      assert a + b == b;
    }
  }

  /** Deleting an id no expense carries changes nothing. */
  lemma {:induction false} WithoutAbsentId(es: seq<Expense>, id: int)
    requires forall i :: 0 <= i < |es| ==> es[i].id != id
    ensures WithoutId(es, id) == es
  {
    if es != [] {
      WithoutAbsentId(es[1..], id);
    }
  }

  /** Adding an expense with a fresh id and then deleting that id gives the
      list back. */
  lemma {:induction false} AddThenDelete(es: seq<Expense>, e: Expense)
    requires forall i :: 0 <= i < |es| ==> es[i].id != e.id
    ensures WithoutId([e] + es, e.id) == es
  {
    assert ([e] + es)[1..] == es;
    WithoutAbsentId(es, e.id);
  }

  // ---------------------------------------------------------------------
  // Category labels (getCategoryIcon, getCategoryName)

  const CategoryNames: map<string, string> := map[
    "food" := "Food & Dining",
    "transport" := "Transportation",
    "education" := "Education",
    "entertainment" := "Entertainment",
    "shopping" := "Shopping",
    "health" := "Health",
    "utilities" := "Utilities",
    "other" := "Other"]

  const CategoryIcons: map<string, string> := map[
    "food" := "\U{1F354}",
    "transport" := "\U{1F68C}",
    "education" := "\U{1F4DA}",
    "entertainment" := "\U{1F3AC}",
    "shopping" := "\U{1F6CD}\U{FE0F}",
    "health" := "\U{1F48A}",
    "utilities" := "\U{1F4A1}",
    "other" := "\U{1F4E6}"]

  /** Display name; any category without an entry shows as "Other". */
  function CategoryName(c: string): (r: string)
    ensures r != ""
    ensures r == "Other" <==> c == "other" || c !in CategoryNames
  {
    if c in CategoryNames then CategoryNames[c] else "Other"
  }

  /** Icon; any category without an entry gets the parcel icon of "other". */
  function CategoryIcon(c: string): (r: string)
    ensures r != ""
    ensures r == CategoryIcons["other"] <==> c == "other" || c !in CategoryIcons
  {
    if c in CategoryIcons then CategoryIcons[c] else "\U{1F4E6}"
  }

  // ---------------------------------------------------------------------
  // The dashboard's state

  class Dashboard {
    var budget: real
    var savingsGoal: real
    var expenses: seq<Expense>

    constructor (budget: real, savingsGoal: real, expenses: seq<Expense>)
      ensures this.budget == budget && this.savingsGoal == savingsGoal && this.expenses == expenses
    {
      this.budget := budget;
      this.savingsGoal := savingsGoal;
      this.expenses := expenses;
    }

    /** `expenses.unshift(newExpense)`: the new expense goes first. */
    method AddExpense(e: Expense)
      modifies this`expenses
      ensures expenses == [e] + old(expenses)
      ensures expenses[0] == e && expenses[1..] == old(expenses)
      ensures TotalSpent(expenses) == e.amount + old(TotalSpent(expenses))
    {
      expenses := [e] + expenses;
      assert expenses[1..] == old(expenses);
    }

    /** Drops every expense carrying `id`. */
    method DeleteExpense(id: int)
      modifies this`expenses
      ensures expenses == WithoutId(old(expenses), id)
      ensures forall e :: e in expenses <==> e in old(expenses) && e.id != id
    {
      WithoutIdExact(expenses, id);
      expenses := WithoutId(expenses, id);
    }

    /** The local update after the budget form is saved. */
    method SetBudget(budget: real, savingsGoal: real)
      modifies this`budget, this`savingsGoal
      ensures this.budget == budget && this.savingsGoal == savingsGoal
    {
      this.budget := budget;
      this.savingsGoal := savingsGoal;
    }

    /** Builds the category totals from the current list (the loop) and
        returns the chart's bars (the sort and map over them). */
    method RenderCategoryChart() returns (bars: seq<Bar>)
      ensures bars == Chart(CategoryTotals(expenses))
    {
      var totals := BuildCategoryTotals(expenses);
      bars := Chart(totals);
    }

    /** Pushes the alerts rule by rule, as the dashboard does. */
    method GenerateSmartAlerts(day: int) returns (alerts: seq<Alert>)
      requires 1 <= day <= 31
      ensures alerts == SmartAlerts(budget, savingsGoal, expenses, day)
    {
      var totalSpent := TotalSpent(expenses);
      var remaining := budget - totalSpent;
      alerts := BudgetStatus(budget, totalSpent);

      var totals := BuildCategoryTotals(expenses);
      var categoryAlerts := CategoryWarnings(totals, totalSpent);
      alerts := alerts + categoryAlerts;

      var savings := SavingsCheck(remaining, savingsGoal);
      alerts := alerts + savings;

      var runRate := RunRateCheck(|expenses|, totalSpent, budget, day);
      alerts := alerts + runRate;

      if alerts == [] && |expenses| > 0 {
        alerts := alerts + [OnTrack];
      }
      if alerts == [] && |expenses| == 0 {
        alerts := alerts + [StartTracking];
      }
    }
  }
}
