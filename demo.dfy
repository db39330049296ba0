/** The dashboard's offline data set: the demo user (budget 10000, savings
    goal 2000) and the five sample expenses it falls back to, with the
    alerts the dashboard shows for them. */
module Demo {
  import Usage
  import opened Categories
  import opened Client

  const Budget: real := 10000.0
  const SavingsGoal: real := 2000.0

  /** The five sample expenses, in the order the dashboard holds them. */
  const Expenses: seq<Expense> := [
    Expense(1, "Lunch at Canteen", 150.0, "food", "Special thali"),
    Expense(2, "Bus Pass", 500.0, "transport", "Monthly pass"),
    Expense(3, "Programming Books", 800.0, "education", "Python and JavaScript books"),
    Expense(4, "Movie Ticket", 250.0, "entertainment", "Weekend movie"),
    Expense(5, "Headphones", 1200.0, "shopping", "Wireless earbuds")]

  /** The five amounts add up to 2900. */
  lemma DemoSpent()
    ensures TotalSpent(Expenses) == 2900.0
  {
    assert TotalSpent(Expenses[4..]) == 1200.0;
    assert TotalSpent(Expenses[3..]) == 1450.0 by { assert Expenses[3..][1..] == Expenses[4..]; }
    assert TotalSpent(Expenses[2..]) == 2250.0 by { assert Expenses[2..][1..] == Expenses[3..]; }
    assert TotalSpent(Expenses[1..]) == 2750.0 by { assert Expenses[1..][1..] == Expenses[2..]; }
  }

  /** The (category, amount) pairs of the sample expenses, whose categories
      are all different. */
  lemma DemoItems()
    ensures Items(Expenses) == [
      CategoryTotal("food", 150.0), CategoryTotal("transport", 500.0),
      CategoryTotal("education", 800.0), CategoryTotal("entertainment", 250.0),
      CategoryTotal("shopping", 1200.0)]
    ensures Distinct(Keys(Items(Expenses)))
  {
    var items := Items(Expenses);
    assert Keys(items) == DemoCategories;
    DemoCategoriesDistinct();
  }

  const DemoCategories: seq<string> := ["food", "transport", "education", "entertainment", "shopping"]

  /** No two sample categories are the same string: their first two letters
      already differ. */
  lemma DemoCategoriesDistinct()
    ensures Distinct(DemoCategories)
  {
    var s := DemoCategories;
    forall i, j | 0 <= i < j < |s| ensures s[i] != s[j] {
      assert s[i][0] != s[j][0] || s[i][1] != s[j][1];
    }
  }

  /** The sample categories are all different, so the category totals are
      the expenses' own (category, amount) pairs, in list order. */
  lemma DemoTotals()
    ensures TotalSpent(Expenses) == 2900.0
    ensures CategoryTotals(Expenses) == [
      CategoryTotal("food", 150.0), CategoryTotal("transport", 500.0),
      CategoryTotal("education", 800.0), CategoryTotal("entertainment", 250.0),
      CategoryTotal("shopping", 1200.0)]
  {
    DemoSpent();
    DemoItems();
    GroupDistinct(Items(Expenses));
  }

  /** Of the five sample amounts, only 1200 is more than 40% of 2900. */
  lemma DemoShares()
    ensures !ExceedsShare(150.0, 2900.0) && !ExceedsShare(500.0, 2900.0) && !ExceedsShare(800.0, 2900.0)
    ensures !ExceedsShare(250.0, 2900.0) && ExceedsShare(1200.0, 2900.0)
  {
    ExceedsShareCross(150.0, 2900.0);
    ExceedsShareCross(500.0, 2900.0);
    ExceedsShareCross(800.0, 2900.0);
    ExceedsShareCross(250.0, 2900.0);
    ExceedsShareCross(1200.0, 2900.0);
  }

  /** Rule 2 on the sample totals warns about shopping only. */
  lemma DemoTotalsAlerts(totals: seq<CategoryTotal>)
    requires totals == [
      CategoryTotal("food", 150.0), CategoryTotal("transport", 500.0),
      CategoryTotal("education", 800.0), CategoryTotal("entertainment", 250.0),
      CategoryTotal("shopping", 1200.0)]
    ensures CategoryAlerts(totals, 2900.0) == [CategoryHeavy("shopping", 1200.0, 2900.0)]
  {
    DemoShares();
    NoEntryOverShare(totals[..4], 2900.0);
  }

  /** Only shopping (1200 of 2900, about 41.4%) is above the 40% share. */
  lemma DemoCategoryAlerts()
    ensures CategoryAlerts(CategoryTotals(Expenses), 2900.0) == [CategoryHeavy("shopping", 1200.0, 2900.0)]
  {
    DemoTotals();
    DemoTotalsAlerts(CategoryTotals(Expenses));
  }

  /** The run rate passes the budget in the first eight days only:
      30 * 2900 exceeds 10000 * day exactly when day <= 8. */
  lemma DemoRunRate(day: int)
    requires 1 <= day <= 31
    ensures RunRateAlerts(5, 2900.0, Budget, day) ==
      if day <= 8 then [RunRate(2900.0 / (day as real), 2900.0 / (day as real) * 30.0 - 10000.0)] else []
  {
    Usage.ProjectionCross(2900.0, Budget, day);
    assert 30.0 * 2900.0 > Budget * (day as real) <==> day <= 8;
  }

  /** Two alerts from the middle rules and whatever the last one adds. */
  lemma CombineTwo(x: Alert, y: Alert, r: seq<Alert>, fallback: Alert)
    ensures Combine([], [x], [y], r, fallback) == [x, y] + r
  {
    assert [] + [x] + [y] + r == [x, y] + r;
  }

  /** On the demo data the dashboard shows the shopping warning and the
      reached savings goal, and in the first eight days of the month also
      the run-rate warning; no budget alert (29% used) and no fallback
      message. */
  lemma DemoAlerts(day: int)
    requires 1 <= day <= 31
    ensures SmartAlerts(Budget, SavingsGoal, Expenses, day) ==
      [CategoryHeavy("shopping", 1200.0, 2900.0), SavingsReached(2000.0)] +
      (if day <= 8 then [RunRate(2900.0 / (day as real), 2900.0 / (day as real) * 30.0 - 10000.0)] else [])
  {
    var shop, saved := CategoryHeavy("shopping", 1200.0, 2900.0), SavingsReached(2000.0);
    var r := RunRateAlerts(5, 2900.0, Budget, day);
    DemoTotals();
    DemoCategoryAlerts();
    DemoRunRate(day);
    BudgetAlertsBySpending(Budget, 2900.0);
    SmartAlertsShape(Budget, SavingsGoal, Expenses, day);
    assert SmartAlerts(Budget, SavingsGoal, Expenses, day) == Combine([], [shop], [saved], r, OnTrack);
    CombineTwo(shop, saved, r, OnTrack);
  }
}
