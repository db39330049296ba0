/** The analytics service of main.py: validation of a budget update, the
    user view with its defaults, the next user id, the budget analytics of
    an expense list and the ordered list of recommendations drawn from
    them. The database and the web routes are left out: the stored user,
    the stored ids and the expense list are inputs, and so is the day of
    the month the service reads from the clock. */
module Server {
  import Wrappers
  import Usage
  import opened Categories

  // ---------------------------------------------------------------------
  // Budget update (UserBudgetUpdate)

  /** An accepted budget update. */
  datatype BudgetUpdate = BudgetUpdate(budget: real, savingsGoal: real)

  /** Why a field of an update was refused. */
  datatype FieldError = BudgetMissing | BudgetNotPositive | SavingsGoalNegative

  /** The request body's two fields, each present or absent. `budget` is
      required and must be greater than 0; `savingsGoal` defaults to 0 and
      must not be negative. A refusal lists every failing field, budget
      first. */
  function ValidateBudgetUpdate(budget: Wrappers.Option<real>, savingsGoal: Wrappers.Option<real>)
    : (r: Wrappers.Result<BudgetUpdate, seq<FieldError>>)
    ensures r.Success? <==> budget.Some? && budget.value > 0.0 && savingsGoal.GetOr(0.0) >= 0.0
    ensures r.Success? ==> r.value == BudgetUpdate(budget.value, savingsGoal.GetOr(0.0))
    ensures r.Failure? ==> r.error != []
    ensures r.Failure? ==> (BudgetMissing in r.error <==> budget.None?)
    ensures r.Failure? ==> (BudgetNotPositive in r.error <==> budget.Some? && budget.value <= 0.0)
    ensures r.Failure? ==> (SavingsGoalNegative in r.error <==> savingsGoal.GetOr(0.0) < 0.0)
  {
    var goal := savingsGoal.GetOr(0.0);
    var budgetErrors :=
      match budget
      case None => [BudgetMissing]
      case Some(b) => if b > 0.0 then [] else [BudgetNotPositive];
    var goalErrors := if goal >= 0.0 then [] else [SavingsGoalNegative];
    if budgetErrors + goalErrors == [] then Wrappers.Success(BudgetUpdate(budget.value, goal))
    else Wrappers.Failure(budgetErrors + goalErrors)
  }

  // ---------------------------------------------------------------------
  // Stored users (user_helper, update_budget, create_user)

  /** A user document as stored; any field may be missing. */
  datatype StoredUser = StoredUser(
    id: Wrappers.Option<int>,
    name: Wrappers.Option<string>,
    email: Wrappers.Option<string>,
    budget: Wrappers.Option<real>,
    savingsGoal: Wrappers.Option<real>)

  /** The user as the service returns it. */
  datatype UserView = UserView(
    id: Wrappers.Option<int>,
    name: Wrappers.Option<string>,
    email: Wrappers.Option<string>,
    budget: real,
    savingsGoal: real)

  /** The returned user: identity fields passed through as found, budget and
      savings goal 0 when the document lacks them. */
  function UserHelper(u: StoredUser): (v: UserView)
    ensures v.id == u.id && v.name == u.name && v.email == u.email
    ensures u.budget.None? ==> v.budget == 0.0
    ensures u.budget.Some? ==> v.budget == u.budget.value
    ensures u.savingsGoal.None? ==> v.savingsGoal == 0.0
    ensures u.savingsGoal.Some? ==> v.savingsGoal == u.savingsGoal.value
  {
    UserView(u.id, u.name, u.email, u.budget.GetOr(0.0), u.savingsGoal.GetOr(0.0))
  }

  /** The `$set` of update_budget: both fields are written, nothing else. */
  function ApplyBudgetUpdate(u: StoredUser, update: BudgetUpdate): (r: StoredUser)
    ensures r.id == u.id && r.name == u.name && r.email == u.email
    ensures r.budget == Wrappers.Some(update.budget)
    ensures r.savingsGoal == Wrappers.Some(update.savingsGoal)
  {
    u.(budget := Wrappers.Some(update.budget), savingsGoal := Wrappers.Some(update.savingsGoal))
  }

  /** After an accepted update the user reads back with exactly the sent
      budget, which is positive, and the sent (or default) goal, which is
      not negative. */
  lemma UpdateThenRead(u: StoredUser, budget: Wrappers.Option<real>, savingsGoal: Wrappers.Option<real>)
    requires ValidateBudgetUpdate(budget, savingsGoal).Success?
    ensures UserHelper(ApplyBudgetUpdate(u, ValidateBudgetUpdate(budget, savingsGoal).value)) ==
      UserView(u.id, u.name, u.email, budget.value, savingsGoal.GetOr(0.0))
    ensures budget.value > 0.0 && savingsGoal.GetOr(0.0) >= 0.0
  {
  }

  /** The largest stored id (the first user when sorted by id, descending). */
  function MaxId(ids: seq<int>): (m: int)
    requires ids != []
    ensures m in ids
    ensures forall i :: i in ids ==> i <= m
  {
    if |ids| == 1 then ids[0]
    else
      var rest := MaxId(ids[1..]);
      assert ids == [ids[0]] + ids[1..];
      if ids[0] >= rest then ids[0] else rest
  }

  /** The id of a new user: one more than the largest stored id, or 1. */
  function NextUserId(ids: seq<int>): (id: int)
    ensures ids == [] ==> id == 1
    ensures ids != [] ==> id - 1 in ids
    ensures forall i :: i in ids ==> i < id
  {
    if ids == [] then 1 else MaxId(ids) + 1
  }

  // ---------------------------------------------------------------------
  // Analytics (get_analytics)

  /** An expense document as the service reads it; the category or the
      amount may be missing. */
  datatype RawExpense = RawExpense(category: Wrappers.Option<string>, amount: Wrappers.Option<real>)

  /** A missing category counts as "other". */
  function CategoryOf(e: RawExpense): string {
    e.category.GetOr("other")
  }

  /** A missing amount counts as 0. */
  function Amount(e: RawExpense): real {
    e.amount.GetOr(0.0)
  }

  /** `sum(exp.get("amount", 0) for exp in expenses)`. */
  function TotalSpent(es: seq<RawExpense>): real {
    if es == [] then 0.0 else Amount(es[0]) + TotalSpent(es[1..])
  }

  /** Each expense as a (category, amount) item, defaults applied. */
  function Entries(es: seq<RawExpense>): (r: seq<CategoryTotal>)
    ensures |r| == |es|
    ensures forall i :: 0 <= i < |es| ==> r[i] == CategoryTotal(CategoryOf(es[i]), Amount(es[i]))
  {
    if es == [] then [] else [CategoryTotal(CategoryOf(es[0]), Amount(es[0]))] + Entries(es[1..])
  }

  lemma {:induction false} EntriesTotal(es: seq<RawExpense>)
    ensures Total(Entries(es)) == TotalSpent(es)
  {
    if es != [] {
      assert Entries(es)[1..] == Entries(es[1..]);
      EntriesTotal(es[1..]);
    }
  }

  /** The category breakdown the service builds. */
  function Breakdown(es: seq<RawExpense>): seq<CategoryTotal> {
    Group(Entries(es))
  }

  /** The accumulation loop (`category_breakdown.get(category, 0) + amount`). */
  method BuildBreakdown(es: seq<RawExpense>) returns (breakdown: seq<CategoryTotal>)
    ensures breakdown == Breakdown(es)
  {
    breakdown := [];
    var i := 0;
    while i < |es|
      invariant 0 <= i <= |es|
      invariant breakdown == Group(Entries(es[..i]))
    {
      assert Entries(es[..i + 1])[..i] == Entries(es[..i]);
      breakdown := Upsert(breakdown, CategoryOf(es[i]), Amount(es[i]));
      i := i + 1;
    }
    assert es[..i] == es;
  }

  /** The categories met in the list, "other" standing in for a missing one. */
  function CategoriesOf(es: seq<RawExpense>): set<string> {
    set i | 0 <= i < |es| :: CategoryOf(es[i])
  }

  /** One entry per category met, first-met first, each holding the sum of
      its expenses' amounts; together they add up to the total spent. */
  lemma {:induction false} BreakdownSpec(es: seq<RawExpense>)
    ensures Distinct(Keys(Breakdown(es)))
    ensures forall c :: c in Keys(Breakdown(es)) <==> c in CategoriesOf(es)
    ensures InFirstEncounterOrder(Keys(Breakdown(es)), Keys(Entries(es)))
    ensures forall c :: AmountOf(Breakdown(es), c) == CategorySum(Entries(es), c)
    ensures Total(Breakdown(es)) == TotalSpent(es)
  {
    var items := Entries(es);
    GroupKeys(items);
    GroupFirstEncounterOrder(items);
    forall c ensures AmountOf(Breakdown(es), c) == CategorySum(items, c) {
      GroupAmounts(items, c);
    }
    GroupTotal(items);
    EntriesTotal(es);
    forall c ensures c in Keys(items) <==> c in CategoriesOf(es) {
      if c in Keys(items) {
        var i :| 0 <= i < |items| && Keys(items)[i] == c;
        assert CategoryOf(es[i]) == c;
      }
      if c in CategoriesOf(es) {
        var i :| 0 <= i < |es| && CategoryOf(es[i]) == c;
        assert Keys(items)[i] == c;
      }
    }
  }

  /** Dropping the last expense drops the last item. */
  lemma {:induction false} EntriesPrefix(es: seq<RawExpense>, e: RawExpense)
    ensures Entries(es + [e])[..|es|] == Entries(es)
  {
    var items := Entries(es + [e]);
    forall i | 0 <= i < |es| ensures items[..|es|][i] == Entries(es)[i] {
      assert (es + [e])[i] == es[i];
    }
  }

  /** One more expense upserts its item into the breakdown so far. */
  lemma {:induction false} BreakdownSnoc(es: seq<RawExpense>, e: RawExpense)
    ensures Breakdown(es + [e]) == Upsert(Breakdown(es), CategoryOf(e), Amount(e))
  {
    var items := Entries(es + [e]);
    EntriesPrefix(es, e);
    assert items[|es|] == CategoryTotal(CategoryOf(e), Amount(e));
  }

  /** An expense without a category adds its amount (0 if it has none) to
      "other" and leaves every other category's amount as it was. */
  lemma {:induction false} MissingCategoryIsOther(es: seq<RawExpense>, amount: Wrappers.Option<real>, c: string)
    ensures "other" in Keys(Breakdown(es + [RawExpense(Wrappers.None, amount)]))
    ensures AmountOf(Breakdown(es + [RawExpense(Wrappers.None, amount)]), c) ==
      AmountOf(Breakdown(es), c) + (if c == "other" then amount.GetOr(0.0) else 0.0)
  {
    var e := RawExpense(Wrappers.None, amount);
    BreakdownSnoc(es, e);
    UpsertAmount(Breakdown(es), "other", amount.GetOr(0.0), c);
  }

  /** The daily average so far; 0 when the day is not positive. */
  function AvgDaily(totalSpent: real, day: int): (avg: real)
    ensures day <= 0 ==> avg == 0.0
    ensures day > 0 ==> avg * (day as real) == totalSpent
  {
    if day > 0 then totalSpent / (day as real) else 0.0
  }

  /** What get_analytics returns. */
  datatype Analytics = Analytics(
    totalSpent: real,
    remaining: real,
    percentUsed: real,
    categoryBreakdown: seq<CategoryTotal>,
    topCategories: seq<CategoryTotal>,
    projectedMonthlySpending: real)

  /** The analytics of an expense list for a user on a given day. */
  function AnalyticsOf(u: StoredUser, es: seq<RawExpense>, day: int): Analytics {
    var totalSpent := TotalSpent(es);
    var budget := u.budget.GetOr(0.0);
    var breakdown := Breakdown(es);
    Analytics(totalSpent, budget - totalSpent, Usage.PercentUsed(budget, totalSpent),
              breakdown, Top(breakdown, 5), AvgDaily(totalSpent, day) * 30.0)
  }

  /** The breakdown adds up to the total, and the remainder is the
      stored budget (0 when there is none) less the total. */
  lemma {:induction false} AnalyticsTotals(u: StoredUser, es: seq<RawExpense>, day: int)
    ensures AnalyticsOf(u, es, day).totalSpent == TotalSpent(es)
    ensures Total(AnalyticsOf(u, es, day).categoryBreakdown) == TotalSpent(es)
    ensures AnalyticsOf(u, es, day).remaining == UserHelper(u).budget - TotalSpent(es)
  {
    BreakdownSpec(es);
  }

  /** The percentage is the budget's share spent, 0 without a positive
      budget. */
  lemma {:induction false} AnalyticsPercent(u: StoredUser, es: seq<RawExpense>, day: int)
    ensures AnalyticsOf(u, es, day).percentUsed == Usage.PercentUsed(UserHelper(u).budget, TotalSpent(es))
    ensures UserHelper(u).budget <= 0.0 ==> AnalyticsOf(u, es, day).percentUsed == 0.0
  {
  }

  /** The projection is 30 days at the daily average, and 0 for a day that
      is not positive. */
  lemma {:induction false} AnalyticsProjection(u: StoredUser, es: seq<RawExpense>, day: int)
    ensures AnalyticsOf(u, es, day).projectedMonthlySpending == AvgDaily(TotalSpent(es), day) * 30.0
    ensures day <= 0 ==> AnalyticsOf(u, es, day).projectedMonthlySpending == 0.0
  {
  }

  /** The ranking: at most five entries, largest first, each taken from the
      breakdown, and no entry left out larger than one kept. */
  lemma {:induction false} TopCategoriesSpec(u: StoredUser, es: seq<RawExpense>, day: int)
    ensures |AnalyticsOf(u, es, day).topCategories| <= 5
    ensures |AnalyticsOf(u, es, day).topCategories| == if |Breakdown(es)| <= 5 then |Breakdown(es)| else 5
    ensures SortedDesc(AnalyticsOf(u, es, day).topCategories)
    ensures forall x :: x in AnalyticsOf(u, es, day).topCategories ==> x in Breakdown(es)
    ensures forall x, y ::
      (x in Breakdown(es) && x !in AnalyticsOf(u, es, day).topCategories && y in AnalyticsOf(u, es, day).topCategories) ==>
        x.amount <= y.amount
    ensures forall a :: WithAmount(AnalyticsOf(u, es, day).topCategories, a) <= WithAmount(Breakdown(es), a)
  {
    TopIsTop(Breakdown(es), 5);
    TopStable(Breakdown(es), 5);
  }

  /** Each ranked entry holds the sum of its category's expenses. */
  lemma {:induction false} RankedAmount(es: seq<RawExpense>, k: nat)
    requires k < |Top(Breakdown(es), 5)|
    ensures Top(Breakdown(es), 5)[k].amount == CategorySum(Entries(es), Top(Breakdown(es), 5)[k].category)
  {
    var b, top := Breakdown(es), Top(Breakdown(es), 5);
    TopIsTop(b, 5);
    assert top[k] in b;
    var j :| 0 <= j < |b| && b[j] == top[k];
    BreakdownEntry(es, j);
  }

  lemma {:induction false} BreakdownEntry(es: seq<RawExpense>, j: nat)
    requires j < |Breakdown(es)|
    ensures Breakdown(es)[j].amount == CategorySum(Entries(es), Breakdown(es)[j].category)
  {
    BreakdownSpec(es);
    AmountOfEntry(Breakdown(es), j);
  }

  /** get_analytics over a given expense list: the sum, the breakdown loop,
      the ranking and the projection. */
  method GetAnalytics(u: StoredUser, es: seq<RawExpense>, day: int) returns (a: Analytics)
    ensures a == AnalyticsOf(u, es, day)
  {
    var totalSpent := TotalSpent(es);
    var budget := u.budget.GetOr(0.0);
    var remaining := budget - totalSpent;
    var percentUsed := Usage.PercentUsed(budget, totalSpent);
    var breakdown := BuildBreakdown(es);
    var topCategories := Top(breakdown, 5);
    var avgDaily := AvgDaily(totalSpent, day);
    var projectedMonthly := avgDaily * 30.0;
    a := Analytics(totalSpent, remaining, percentUsed, breakdown, topCategories, projectedMonthly);
  }

  // ---------------------------------------------------------------------
  // Recommendations (get_recommendations)

  datatype Severity = Critical | Warning | Info | Success

  /** The recommendations, in the order of the rules, with the figures
      their messages are formatted from. */
  datatype Recommendation =
    | BudgetExceeded(overBy: real)
    | BudgetWarning(percentUsed: real)
    | BudgetAlert(percentUsed: real)
    | CategoryAlert(category: string, percent: real)
    | SavingsAchieved(savingsGoal: real)
    | ProjectionWarning(overspend: real)
    | AllGood
  {
    /** The `type` tag of the recommendation. */
    function Kind(): string {
      match this
      case BudgetExceeded(_) => "budget_exceeded"
      case BudgetWarning(_) => "budget_warning"
      case BudgetAlert(_) => "budget_alert"
      case CategoryAlert(_, _) => "category_alert"
      case SavingsAchieved(_) => "savings_achieved"
      case ProjectionWarning(_) => "projection_warning"
      case AllGood => "all_good"
    }

    function Severity(): Severity {
      match this
      case BudgetExceeded(_) => Critical
      case BudgetWarning(_) => Warning
      case BudgetAlert(_) => Info
      case CategoryAlert(_, _) => Warning
      case SavingsAchieved(_) => Success
      case ProjectionWarning(_) => Warning
      case AllGood => Success
    }

    /** Which rule produced it: budget 0, category 1, savings 2,
        projection 3, fallback 4. */
    function Rule(): nat {
      match this
      case BudgetExceeded(_) => 0
      case BudgetWarning(_) => 0
      case BudgetAlert(_) => 0
      case CategoryAlert(_, _) => 1
      case SavingsAchieved(_) => 2
      case ProjectionWarning(_) => 3
      case AllGood => 4
    }
  }

  /** Rule 1: one recommendation by the tier of the percentage used. */
  function BudgetRecommendations(a: Analytics): seq<Recommendation> {
    match Usage.TierOf(a.percentUsed)
    case Exceeded => [BudgetExceeded(Usage.Abs(a.remaining))]
    case Critical => [BudgetWarning(a.percentUsed)]
    case Warning => [BudgetAlert(a.percentUsed)]
    case Normal => []
  }

  /** A category's share of the total in percent; 0 unless something was
      spent. */
  function CategoryPercent(amount: real, totalSpent: real): real {
    if totalSpent > 0.0 then amount / totalSpent * 100.0 else 0.0
  }

  /** The share is above 40% exactly when something was spent and five
      times the amount exceeds twice the total. */
  lemma CategoryPercentCross(amount: real, totalSpent: real)
    ensures CategoryPercent(amount, totalSpent) > 40.0 <==> totalSpent > 0.0 && 5.0 * amount > 2.0 * totalSpent
  {
    if totalSpent > 0.0 {
      var q := amount / totalSpent;
      assert q * totalSpent == amount;
      Usage.ScaledGreater(q * 100.0, 40.0, totalSpent);
    }
  }

  /** The ranking entries the category rule looks at (`[:3]`). */
  function FirstThree(top: seq<CategoryTotal>): (r: seq<CategoryTotal>)
    ensures |r| <= 3 && |r| <= |top| && r == top[..|r|]
    ensures |r| == if |top| <= 3 then |top| else 3
  {
    if |top| <= 3 then top else top[..3]
  }

  /** Rule 2: a recommendation for each given entry above 40%, in order. */
  function CategoryRecommendations(top: seq<CategoryTotal>, totalSpent: real): seq<Recommendation> {
    if top == [] then []
    else
      var last := top[|top| - 1];
      var percent := CategoryPercent(last.amount, totalSpent);
      CategoryRecommendations(top[..|top| - 1], totalSpent) +
        (if percent > 40.0 then [CategoryAlert(last.category, percent)] else [])
  }

  /** Rule 3: the savings goal is reached. */
  function SavingsRecommendations(remaining: real, savingsGoal: real): seq<Recommendation> {
    if remaining > 0.0 && remaining >= savingsGoal then [SavingsAchieved(savingsGoal)] else []
  }

  /** Rule 4: the projection goes past the budget. */
  function ProjectionRecommendations(projected: real, budget: real): seq<Recommendation> {
    if projected > budget then [ProjectionWarning(projected - budget)] else []
  }

  /** What rules 1 to 4 produce from a user and their analytics. */
  function Fired(u: StoredUser, a: Analytics): seq<Recommendation> {
    BudgetRecommendations(a) +
    CategoryRecommendations(FirstThree(a.topCategories), a.totalSpent) +
    SavingsRecommendations(a.remaining, u.savingsGoal.GetOr(0.0)) +
    ProjectionRecommendations(a.projectedMonthlySpending, u.budget.GetOr(0.0))
  }

  /** The recommendation list: the rules in order, or "all good" when none
      fired. */
  function Recommend(u: StoredUser, a: Analytics): seq<Recommendation> {
    var fired := Fired(u, a);
    if fired != [] then fired else [AllGood]
  }

  predicate AllOfRule(s: seq<Recommendation>, rule: nat) {
    forall i :: 0 <= i < |s| ==> s[i].Rule() == rule
  }

  /** Every recommendation of rule 2 is a category alert, and there is one
      for each entry above 40%, carrying that entry's category and share. */
  lemma {:induction false} CategoryRecommendationsExact(top: seq<CategoryTotal>, totalSpent: real)
    ensures AllOfRule(CategoryRecommendations(top, totalSpent), 1)
    ensures forall r :: r in CategoryRecommendations(top, totalSpent) <==>
      exists k :: 0 <= k < |top| && CategoryPercent(top[k].amount, totalSpent) > 40.0 &&
        r == CategoryAlert(top[k].category, CategoryPercent(top[k].amount, totalSpent))
  {
    if top != [] {
      var n := |top| - 1;
      CategoryRecommendationsExact(top[..n], totalSpent);
      forall r ensures r in CategoryRecommendations(top, totalSpent) <==>
        exists k :: 0 <= k < |top| && CategoryPercent(top[k].amount, totalSpent) > 40.0 &&
          r == CategoryAlert(top[k].category, CategoryPercent(top[k].amount, totalSpent))
      {
        if k :| (0 <= k < |top| && CategoryPercent(top[k].amount, totalSpent) > 40.0 &&
                 r == CategoryAlert(top[k].category, CategoryPercent(top[k].amount, totalSpent))) {
          if k < n {
            assert top[..n][k] == top[k];
          }
        }
        if r in CategoryRecommendations(top[..n], totalSpent) {
          var k :| 0 <= k < n && CategoryPercent(top[..n][k].amount, totalSpent) > 40.0 &&
            r == CategoryAlert(top[..n][k].category, CategoryPercent(top[..n][k].amount, totalSpent));
          assert top[k] == top[..n][k];
        }
      }
    }
  }

  /** The list is the four rule parts, or "all good" alone; each part holds
      recommendations of its own rule only. */
  lemma {:induction false} RecommendShape(u: StoredUser, a: Analytics)
    ensures Fired(u, a) ==
      BudgetRecommendations(a) + CategoryRecommendations(FirstThree(a.topCategories), a.totalSpent) +
      SavingsRecommendations(a.remaining, u.savingsGoal.GetOr(0.0)) +
      ProjectionRecommendations(a.projectedMonthlySpending, u.budget.GetOr(0.0))
    ensures Recommend(u, a) == if Fired(u, a) != [] then Fired(u, a) else [AllGood]
    ensures AllOfRule(BudgetRecommendations(a), 0)
    ensures AllOfRule(CategoryRecommendations(FirstThree(a.topCategories), a.totalSpent), 1)
    ensures AllOfRule(SavingsRecommendations(a.remaining, u.savingsGoal.GetOr(0.0)), 2)
    ensures AllOfRule(ProjectionRecommendations(a.projectedMonthlySpending, u.budget.GetOr(0.0)), 3)
  {
    CategoryRecommendationsExact(FirstThree(a.topCategories), a.totalSpent);
  }

  /** In a list made of parts of rules 0 to 3, or of "all good" alone, a
      recommendation of rule k is present exactly when part k holds it. */
  lemma {:induction false} MemberOfParts(recs: seq<Recommendation>, b: seq<Recommendation>, c: seq<Recommendation>,
                                         s: seq<Recommendation>, p: seq<Recommendation>, x: Recommendation)
    requires AllOfRule(b, 0) && AllOfRule(c, 1) && AllOfRule(s, 2) && AllOfRule(p, 3)
    requires recs == if b + c + s + p != [] then b + c + s + p else [AllGood]
    ensures x.Rule() == 0 ==> (x in recs <==> x in b)
    ensures x.Rule() == 1 ==> (x in recs <==> x in c)
    ensures x.Rule() == 2 ==> (x in recs <==> x in s)
    ensures x.Rule() == 3 ==> (x in recs <==> x in p)
    ensures x.Rule() == 4 ==> (x in recs <==> b + c + s + p == [])
  {
    if x in b {
      var i :| 0 <= i < |b| && b[i] == x;
    }
    if x in c {
      var i :| 0 <= i < |c| && c[i] == x;
    }
    if x in s {
      var i :| 0 <= i < |s| && s[i] == x;
    }
    if x in p {
      var i :| 0 <= i < |p| && p[i] == x;
    }
  }

  /** A recommendation of a given rule is in the list exactly when that
      rule produced it; "all good" exactly when no rule produced anything. */
  lemma {:induction false} RecommendationOfRule(u: StoredUser, a: Analytics, x: Recommendation)
    ensures x.Rule() == 0 ==> (x in Recommend(u, a) <==> x in BudgetRecommendations(a))
    ensures x.Rule() == 1 ==>
      (x in Recommend(u, a) <==> x in CategoryRecommendations(FirstThree(a.topCategories), a.totalSpent))
    ensures x.Rule() == 2 ==>
      (x in Recommend(u, a) <==> x in SavingsRecommendations(a.remaining, u.savingsGoal.GetOr(0.0)))
    ensures x.Rule() == 3 ==>
      (x in Recommend(u, a) <==> x in ProjectionRecommendations(a.projectedMonthlySpending, u.budget.GetOr(0.0)))
    ensures x.Rule() == 4 ==> (x in Recommend(u, a) <==> Fired(u, a) == [])
  {
    var b := BudgetRecommendations(a);
    var c := CategoryRecommendations(FirstThree(a.topCategories), a.totalSpent);
    var s := SavingsRecommendations(a.remaining, u.savingsGoal.GetOr(0.0));
    var p := ProjectionRecommendations(a.projectedMonthlySpending, u.budget.GetOr(0.0));
    RecommendShape(u, a);
    MemberOfParts(Recommend(u, a), b, c, s, p, x);
  }

  /** Where index `i` of four concatenated parts falls decides its rule. */
  lemma {:induction false} RankInParts(b: seq<Recommendation>, c: seq<Recommendation>, s: seq<Recommendation>,
                                       p: seq<Recommendation>, i: nat)
    requires AllOfRule(b, 0) && AllOfRule(c, 1) && AllOfRule(s, 2) && AllOfRule(p, 3)
    requires i < |b + c + s + p|
    ensures (b + c + s + p)[i].Rule() ==
      if i < |b| then 0 else if i < |b| + |c| then 1 else if i < |b| + |c| + |s| then 2 else 3
  {
    var all := b + c + s + p;
    if i < |b| {
      assert all[i] == b[i];
    } else if i < |b| + |c| {
      assert all[i] == c[i - |b|];
    } else if i < |b| + |c| + |s| {
      assert all[i] == s[i - |b| - |c|];
    } else {
      assert all[i] == p[i - |b| - |c| - |s|];
    }
  }

  /** Never empty, and in rule order: budget, categories, savings,
      projection, "all good". "All good" appears exactly when no rule
      fired, and then alone. */
  lemma {:induction false} RecommendOrder(u: StoredUser, a: Analytics)
    ensures Recommend(u, a) != []
    ensures forall i, j :: 0 <= i < j < |Recommend(u, a)| ==> Recommend(u, a)[i].Rule() <= Recommend(u, a)[j].Rule()
    ensures AllGood in Recommend(u, a) <==> Fired(u, a) == []
    ensures AllGood in Recommend(u, a) ==> Recommend(u, a) == [AllGood]
  {
    var b := BudgetRecommendations(a);
    var c := CategoryRecommendations(FirstThree(a.topCategories), a.totalSpent);
    var s := SavingsRecommendations(a.remaining, u.savingsGoal.GetOr(0.0));
    var p := ProjectionRecommendations(a.projectedMonthlySpending, u.budget.GetOr(0.0));
    RecommendShape(u, a);
    var fired := b + c + s + p;
    forall i, j | 0 <= i < j < |fired| ensures fired[i].Rule() <= fired[j].Rule() {
      RankInParts(b, c, s, p, i);
      RankInParts(b, c, s, p, j);
    }
    RecommendationOfRule(u, a, AllGood);
  }

  /** "All good" exactly when the percentage is under 75, none of the
      first three categories is above 40%, the savings goal is not reached
      and the projection stays within the budget. */
  lemma {:induction false} AllGoodIff(u: StoredUser, a: Analytics)
    ensures AllGood in Recommend(u, a) <==>
      a.percentUsed < 75.0 &&
      CategoryRecommendations(FirstThree(a.topCategories), a.totalSpent) == [] &&
      !(a.remaining > 0.0 && a.remaining >= u.savingsGoal.GetOr(0.0)) &&
      a.projectedMonthlySpending <= u.budget.GetOr(0.0)
  {
    RecommendationOfRule(u, a, AllGood);
  }

  /** Rule 1: at most one budget recommendation, always first, chosen by
      the percentage: critical at 100% or more (reporting the overspend as
      a magnitude), a warning from 90%, info from 75%, none below. */
  lemma {:induction false} BudgetRecommendationFirst(u: StoredUser, a: Analytics)
    ensures forall i :: 0 < i < |Recommend(u, a)| ==> Recommend(u, a)[i].Rule() != 0
    ensures a.percentUsed >= 100.0 ==>
      Recommend(u, a)[0] == BudgetExceeded(Usage.Abs(a.remaining)) && Recommend(u, a)[0].Severity() == Critical
    ensures 90.0 <= a.percentUsed < 100.0 ==>
      Recommend(u, a)[0] == BudgetWarning(a.percentUsed) && Recommend(u, a)[0].Severity() == Warning
    ensures 75.0 <= a.percentUsed < 90.0 ==>
      Recommend(u, a)[0] == BudgetAlert(a.percentUsed) && Recommend(u, a)[0].Severity() == Info
    ensures a.percentUsed < 75.0 ==> forall x :: x in Recommend(u, a) ==> x.Rule() != 0
  {
    var b := BudgetRecommendations(a);
    var c := CategoryRecommendations(FirstThree(a.topCategories), a.totalSpent);
    var s := SavingsRecommendations(a.remaining, u.savingsGoal.GetOr(0.0));
    var p := ProjectionRecommendations(a.projectedMonthlySpending, u.budget.GetOr(0.0));
    RecommendShape(u, a);
    var recs := Recommend(u, a);
    forall i | 0 < i < |recs| ensures recs[i].Rule() != 0 {
      if b + c + s + p != [] {
        RankInParts(b, c, s, p, i);
      }
    }
    forall x | x in recs && x.Rule() == 0 ensures x in b {
      RecommendationOfRule(u, a, x);
    }
  }

  /** Rule 2: a category alert names one of the three largest categories,
      above 40% of a positive total, and reports its share; each such
      category gets one. With nothing spent there is none. */
  lemma {:induction false} CategoryAlertIff(u: StoredUser, a: Analytics, x: Recommendation)
    requires x.CategoryAlert?
    ensures x in Recommend(u, a) <==>
      exists k :: 0 <= k < |a.topCategories| && k < 3 &&
        a.totalSpent > 0.0 && 5.0 * a.topCategories[k].amount > 2.0 * a.totalSpent &&
        x == CategoryAlert(a.topCategories[k].category, CategoryPercent(a.topCategories[k].amount, a.totalSpent))
  {
    var top3 := FirstThree(a.topCategories);
    RecommendationOfRule(u, a, x);
    CategoryRecommendationsExact(top3, a.totalSpent);
    if x in Recommend(u, a) {
      var k :| 0 <= k < |top3| && CategoryPercent(top3[k].amount, a.totalSpent) > 40.0 &&
        x == CategoryAlert(top3[k].category, CategoryPercent(top3[k].amount, a.totalSpent));
      CategoryPercentCross(top3[k].amount, a.totalSpent);
      assert top3[k] == a.topCategories[k];
    }
    if k :| (0 <= k < |a.topCategories| && k < 3 &&
             a.totalSpent > 0.0 && 5.0 * a.topCategories[k].amount > 2.0 * a.totalSpent &&
             x == CategoryAlert(a.topCategories[k].category, CategoryPercent(a.topCategories[k].amount, a.totalSpent))) {
      CategoryPercentCross(a.topCategories[k].amount, a.totalSpent);
      assert top3[k] == a.topCategories[k];
    }
  }

  /** With nothing (or less than nothing) spent, no category alert. */
  lemma {:induction false} NoCategoryAlertWithoutSpending(u: StoredUser, a: Analytics)
    requires a.totalSpent <= 0.0
    ensures forall x :: x in Recommend(u, a) ==> !x.CategoryAlert?
  {
    forall x | x in Recommend(u, a) && x.CategoryAlert? ensures false {
      CategoryAlertIff(u, a, x);
    }
  }

  /** Rule 3: the savings recommendation appears exactly when something is
      left and it reaches the stored goal (0 when there is none); it
      reports that goal. */
  lemma {:induction false} SavingsIff(u: StoredUser, a: Analytics)
    ensures SavingsAchieved(UserHelper(u).savingsGoal) in Recommend(u, a) <==>
      a.remaining > 0.0 && a.remaining >= UserHelper(u).savingsGoal
    ensures forall x :: x in Recommend(u, a) && x.SavingsAchieved? ==> x.savingsGoal == UserHelper(u).savingsGoal
  {
    RecommendationOfRule(u, a, SavingsAchieved(UserHelper(u).savingsGoal));
    forall x | x in Recommend(u, a) && x.SavingsAchieved? ensures x.savingsGoal == UserHelper(u).savingsGoal {
      RecommendationOfRule(u, a, x);
    }
  }

  /** Rule 4: a projection warning appears exactly when the projection is
      above the stored budget (0 when there is none); it reports the
      positive difference. */
  lemma {:induction false} ProjectionIff(u: StoredUser, a: Analytics)
    ensures (exists x :: x in Recommend(u, a) && x.ProjectionWarning?) <==>
      a.projectedMonthlySpending > UserHelper(u).budget
    ensures forall x :: x in Recommend(u, a) && x.ProjectionWarning? ==>
      x.overspend == a.projectedMonthlySpending - UserHelper(u).budget && x.overspend > 0.0
  {
    var p := ProjectionRecommendations(a.projectedMonthlySpending, u.budget.GetOr(0.0));
    forall x | x in Recommend(u, a) && x.ProjectionWarning? ensures x in p {
      RecommendationOfRule(u, a, x);
    }
    if p != [] {
      RecommendationOfRule(u, a, p[0]);
    }
  }

  /** The projection rule compares without division: for a positive day
      it fires exactly when 30 * total > budget * day; for any other day
      exactly when the budget is negative. */
  lemma ProjectionBySpending(totalSpent: real, budget: real, day: int)
    ensures day > 0 ==> (AvgDaily(totalSpent, day) * 30.0 > budget <==> 30.0 * totalSpent > budget * (day as real))
    ensures day <= 0 ==> (AvgDaily(totalSpent, day) * 30.0 > budget <==> budget < 0.0)
  {
    if day > 0 {
      Usage.ProjectionCross(totalSpent, budget, day);
    }
  }

  /** On the analytics of an expense list the budget rule compares without
      division: critical once the total reaches a positive budget, a
      warning from 90% of it, info from 75%, and nothing without a positive
      budget. */
  lemma {:induction false} BudgetRecommendationsBySpending(u: StoredUser, es: seq<RawExpense>, day: int)
    ensures BudgetRecommendations(AnalyticsOf(u, es, day)) ==
      var budget, total := UserHelper(u).budget, TotalSpent(es);
      if budget <= 0.0 then []
      else if total >= budget then [BudgetExceeded(Usage.Abs(budget - total))]
      else if 10.0 * total >= 9.0 * budget then [BudgetWarning(Usage.PercentUsed(budget, total))]
      else if 4.0 * total >= 3.0 * budget then [BudgetAlert(Usage.PercentUsed(budget, total))]
      else []
  {
    var budget, total := UserHelper(u).budget, TotalSpent(es);
    if budget > 0.0 {
      Usage.TierBySpending(budget, total);
    } else {
      Usage.NoBudgetStaysNormal(budget, total);
    }
  }

  /** The service reads no expenses yet (its list is empty): everything is
      0 except the remainder, which is the whole stored budget. */
  lemma {:induction false} ServedAnalytics(u: StoredUser, day: int)
    ensures AnalyticsOf(u, [], day) == Analytics(0.0, UserHelper(u).budget, 0.0, [], [], 0.0)
  {
    assert Breakdown([]) == [];
    assert SortDesc([]) == [];
  }

  /** What the service recommends on its empty expense list: "savings
      achieved" when the stored budget is positive and covers the goal, a
      projection warning when the stored budget is negative, and "all good"
      otherwise. */
  lemma {:induction false} ServedRecommendations(u: StoredUser, day: int)
    ensures Recommend(u, AnalyticsOf(u, [], day)) ==
      var budget, goal := UserHelper(u).budget, UserHelper(u).savingsGoal;
      if budget > 0.0 && budget >= goal then [SavingsAchieved(goal)]
      else if budget < 0.0 then [ProjectionWarning(0.0 - budget)]
      else [AllGood]
  {
    var a := AnalyticsOf(u, [], day);
    ServedAnalytics(u, day);
    assert BudgetRecommendations(a) == [];
    assert FirstThree(a.topCategories) == [];
    assert CategoryRecommendations([], 0.0) == [];
  }

  /** The projection rule on the analytics of an expense list: a warning
      exactly when 30 * total > stored budget * day for a positive day, or
      when the stored budget is negative for any other day. */
  lemma {:induction false} ProjectionRecommendedBySpending(u: StoredUser, es: seq<RawExpense>, day: int)
    ensures (exists x :: x in Recommend(u, AnalyticsOf(u, es, day)) && x.ProjectionWarning?) <==>
      if day > 0 then 30.0 * TotalSpent(es) > UserHelper(u).budget * (day as real) else UserHelper(u).budget < 0.0
  {
    ProjectionIff(u, AnalyticsOf(u, es, day));
    AnalyticsProjection(u, es, day);
    ProjectionBySpending(TotalSpent(es), UserHelper(u).budget, day);
  }

  /** The savings rule on the analytics of an expense list: reached exactly
      when the stored budget less the total is positive and covers the
      stored goal. */
  lemma {:induction false} SavingsRecommendedBySpending(u: StoredUser, es: seq<RawExpense>, day: int)
    ensures SavingsAchieved(UserHelper(u).savingsGoal) in Recommend(u, AnalyticsOf(u, es, day)) <==>
      UserHelper(u).budget - TotalSpent(es) > 0.0 && UserHelper(u).budget - TotalSpent(es) >= UserHelper(u).savingsGoal
  {
    SavingsIff(u, AnalyticsOf(u, es, day));
    AnalyticsTotals(u, es, day);
  }

  /** The category rule on the analytics of an expense list: category `c`
      is flagged exactly when it is among the first three ranked categories,
      something was spent and its expenses make more than 40% of the total;
      the alert carries that share. */
  lemma {:induction false} CategoryRecommendedBySpending(u: StoredUser, es: seq<RawExpense>, day: int, c: string)
    ensures (exists x :: x in Recommend(u, AnalyticsOf(u, es, day)) && x.CategoryAlert? && x.category == c) <==>
      (exists k :: 0 <= k < |Top(Breakdown(es), 5)| && k < 3 && Top(Breakdown(es), 5)[k].category == c) &&
      TotalSpent(es) > 0.0 && 5.0 * CategorySum(Entries(es), c) > 2.0 * TotalSpent(es)
    ensures forall x :: x in Recommend(u, AnalyticsOf(u, es, day)) && x.CategoryAlert? && x.category == c ==>
      x.percent == CategoryPercent(CategorySum(Entries(es), c), TotalSpent(es))
  {
    var a := AnalyticsOf(u, es, day);
    var t, top := TotalSpent(es), Top(Breakdown(es), 5);
    assert a.topCategories == top && a.totalSpent == t;
    forall x | x in Recommend(u, a) && x.CategoryAlert? && x.category == c
      ensures (exists k :: 0 <= k < |top| && k < 3 && top[k].category == c)
      ensures t > 0.0 && 5.0 * CategorySum(Entries(es), c) > 2.0 * t
      ensures x.percent == CategoryPercent(CategorySum(Entries(es), c), t)
    {
      CategoryAlertIff(u, a, x);
      var k :| 0 <= k < |top| && k < 3 && t > 0.0 && 5.0 * top[k].amount > 2.0 * t &&
        x == CategoryAlert(top[k].category, CategoryPercent(top[k].amount, t));
      RankedAmount(es, k);
    }
    if k :| 0 <= k < |top| && k < 3 && top[k].category == c {
      if t > 0.0 && 5.0 * CategorySum(Entries(es), c) > 2.0 * t {
        RankedAmount(es, k);
        var x := CategoryAlert(c, CategoryPercent(top[k].amount, t));
        CategoryAlertIff(u, a, x);
      }
    }
  }

  /** Rule 1 as the service writes it. */
  method BudgetAdvice(a: Analytics) returns (recs: seq<Recommendation>)
    ensures recs == BudgetRecommendations(a)
  {
    recs := [];
    if a.percentUsed >= 100.0 {
      recs := recs + [BudgetExceeded(Usage.Abs(a.remaining))];
    } else if a.percentUsed >= 90.0 {
      recs := recs + [BudgetWarning(a.percentUsed)];
    } else if a.percentUsed >= 75.0 {
      recs := recs + [BudgetAlert(a.percentUsed)];
    }
  }

  /** The loop of rule 2 over the first three ranked categories. */
  method CategoryAdvice(top3: seq<CategoryTotal>, totalSpent: real) returns (recs: seq<Recommendation>)
    ensures recs == CategoryRecommendations(top3, totalSpent)
  {
    recs := [];
    var i := 0;
    while i < |top3|
      invariant 0 <= i <= |top3|
      invariant recs == CategoryRecommendations(top3[..i], totalSpent)
    {
      var entry := top3[i];
      var percent := if totalSpent > 0.0 then entry.amount / totalSpent * 100.0 else 0.0;
      assert top3[..i + 1][..i] == top3[..i];
      if percent > 40.0 {
        recs := recs + [CategoryAlert(entry.category, percent)];
      }
      i := i + 1;
    }
    assert top3[..i] == top3;
  }

  /** Rule 3 as the service writes it. */
  method SavingsAdvice(remaining: real, savingsGoal: real) returns (recs: seq<Recommendation>)
    ensures recs == SavingsRecommendations(remaining, savingsGoal)
  {
    recs := [];
    if remaining > 0.0 && remaining >= savingsGoal {
      recs := recs + [SavingsAchieved(savingsGoal)];
    }
  }

  /** Rule 4 as the service writes it. */
  method ProjectionAdvice(projected: real, budget: real) returns (recs: seq<Recommendation>)
    ensures recs == ProjectionRecommendations(projected, budget)
  {
    recs := [];
    if projected > budget {
      var overspend := projected - budget;
      recs := recs + [ProjectionWarning(overspend)];
    }
  }

  /** get_recommendations: the analytics, then the rules pushed one after
      another, then "all good" if nothing was pushed. */
  method GetRecommendations(u: StoredUser, es: seq<RawExpense>, day: int) returns (recs: seq<Recommendation>)
    ensures recs == Recommend(u, AnalyticsOf(u, es, day))
  {
    var a := GetAnalytics(u, es, day);
    recs := BudgetAdvice(a);
    var categoryRecs := CategoryAdvice(FirstThree(a.topCategories), a.totalSpent);
    recs := recs + categoryRecs;
    var savingsRecs := SavingsAdvice(a.remaining, u.savingsGoal.GetOr(0.0));
    recs := recs + savingsRecs;
    var projectionRecs := ProjectionAdvice(a.projectedMonthlySpending, u.budget.GetOr(0.0));
    recs := recs + projectionRecs;
    if recs == [] {
      recs := recs + [AllGood];
    }
  }
}
