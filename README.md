# Expense dashboard budget analysis, in Dafny

This project models the budget analysis and alerting core of a student
expense tracker, which has two parts.

- **The browser dashboard** (`script.js`) keeps the current user's budget
  and savings goal and a list of expenses. It derives the following from
  them:
  - the budget cards (total spent, remaining, savings, percentage used);
  - a category chart, sorted by amount and scaled against the largest
    category;
  - an ordered list of "smart alerts";
  - a search/category filter.

  Expenses are added at the front of the list and deleted by id.
- **The budget service** (`main.py`) does three jobs:
  - it validates budget updates and reads users with defaults;
  - it computes per-user analytics (total, remainder, percentage, category
    breakdown, top five categories, 30-day projection);
  - it turns those analytics into a list of recommendations.

Amounts are exact `real` numbers. The day of the month, which both sides
read from the clock, is a parameter. Category totals are kept as an
association list in first-insertion order. This is the order a JavaScript
object or a Python dict iterates in. One stable descending insertion sort
stands for both `Array.prototype.sort` and Python's `sorted(reverse=True)`.

Files:

- `wrappers.dfy`: `Option` and `Result`.
- `usage.dfy`: the percentage and the 100/90/75 tiers, with the
  division-free forms of the comparisons.
- `categories.dfy`: accumulating category totals (`Upsert`, `Group`), the
  sort and the top-n ranking, shared by both sides.
- `client.dfy`: the dashboard.
  - A `Dashboard` class holds the budget, goal and expense list, and its
    methods update them.
  - Loop methods build the category totals and push the alerts.
  - Functions specify each rule.
  - Lemmas relate the alert list to the expenses.
- `demo.dfy`: the dashboard's offline demo data and the alerts it produces.
- `server.dfy`: validation, the user view, id allocation, analytics and
  recommendations.

The dashboard's alert list is the four rules in order:

1. budget status;
2. categories above 40% of spending;
3. savings goal reached;
4. a 30-day run rate above the budget.

When none of them fires, the list holds "on track" for a non-empty expense
list and "start tracking" for an empty one. The model proves the following
about it:

- membership in the list for every rule, as an if-and-only-if over the
  expenses;
- the order of the rules;
- the budget alert always comes first;
- for any list, a fallback message appears exactly when no rule fired;
- for a non-empty list, "on track" appears exactly when the expenses are
  "quiet".

The service's recommendation lemmas are stated over its analytics record,
for any record: membership for every rule, rule order, the budget
recommendation first and "all good" exactly when nothing fires. Separate
lemmas tie the analytics the service computes to its expense list. For
those computed analytics, the budget, category, savings and projection
rules are also stated directly over the expenses and the stored budget.

## Model

| member | source | states |
|---|---|---|
| Usage.PercentUsed | script.js:249 | the percentage used is 0 whenever the budget is not positive |
| Usage.PercentScaled | main.py:143 | with a positive budget, percentage × budget = 100 × total spent |
| Usage.Abs | main.py:188 | the absolute value is non-negative and equals x or −x |
| Usage.TierOf | script.js:354-369 | the tiers have inclusive lower bounds tested from the top: exceeded iff ≥ 100, critical iff in [90, 100), warning iff in [75, 90), normal iff < 75 |
| Usage.TierMonotone | main.py:185-202 | a larger percentage never gives a lower tier |
| Usage.AtLeastPercent | script.js:350-354 | percentage ≥ k iff 100 × total ≥ k × budget, for a positive budget |
| Usage.TierBySpending | script.js:354-369 | the tier compares the total against the budget, 0.9 × budget and 0.75 × budget, with no division |
| Usage.NoBudgetStaysNormal | script.js:350 | without a positive budget the tier is always normal |
| Usage.ProjectionCross | script.js:393-396 | total / day × 30 > budget iff 30 × total > budget × day |
| Categories.AmountOf | script.js:312 | a category that is not a key reads as 0 |
| Categories.Upsert | script.js:312 | the keys are unchanged when the category is present, otherwise it is appended at the end |
| Categories.UpsertAmount | script.js:312 | only the upserted category's amount changes, and it grows by the added amount |
| Categories.UpsertTotal | main.py:149 | an upsert raises the sum of all amounts by the added amount |
| Categories.UpsertFresh | script.js:312 | a new category becomes one entry at the end |
| Categories.GroupKeys | script.js:311-313 | accumulated keys are distinct, and a category is a key iff some item carries it |
| Categories.GroupFirstEncounterOrder | script.js:311-313 | keys appear in the order of their first occurrence in the items |
| Categories.GroupAmounts | main.py:146-149 | each accumulated amount equals the reference sum of that category's items |
| Categories.GroupTotal | main.py:146-149 | the accumulated amounts add up to the sum of all items |
| Categories.GroupDistinct | script.js:311-313 | when no category repeats, the totals are the items themselves, in order |
| Categories.Insert | main.py:154 | inserting into a descending list keeps it descending and adds exactly that entry |
| Categories.SortDesc | main.py:154 | the sort is descending by amount and a permutation of its input |
| Categories.InsertStable | main.py:154 | an inserted entry goes after every entry of equal amount already in the list |
| Categories.SortStable | script.js:329 | the sort is stable: for every amount, the entries with that amount keep their input order |
| Categories.TopStable | main.py:152-155 | for every amount, the top n entries with that amount are a prefix of the input's entries with that amount, in the same order |
| Categories.MaxAmount | script.js:326 | the maximum bounds every amount and is attained |
| Categories.SortedHeadIsMax | script.js:326-329 | the first sorted entry carries the maximum amount |
| Categories.TopIsTop | main.py:152-155 | the top n has min(n, length) entries, descending, all from the list, and no omitted entry is larger than a kept one |
| Client.DashboardTotals | script.js:245-249 | remaining = budget − total; savings is 0 when nothing remains, else the smaller of remaining and goal; the percentage follows the budget rule |
| Client.SavingsAchieved | script.js:248 | for a non-negative goal, savings lies in [0, goal] and equals the three-way case on the remainder |
| Client.CategoryTotalsSpec | script.js:308-313 | the chart totals are distinct categories, exactly those present, first-met first, each holding that category's sum, and they add up to the total spent |
| Client.BuildCategoryTotals | script.js:309-313 | the forEach accumulation yields the specified category totals |
| Client.ChartAt | script.js:328-331 | bar k shows sorted entry k, with its width taken against the largest amount |
| Client.ChartOrder | script.js:328-330 | one bar per category, largest amount first, covering exactly the keys of the totals; bar k is sorted entry k, and categories with equal amounts keep their order |
| Client.ChartWidths | script.js:326-331 | with a non-zero maximum the first bar is 100% wide, and with a positive maximum every width is defined and at most 100% |
| Client.BarFull | script.js:331 | the largest category's bar is 100% |
| Client.BarAtMostFull | script.js:331 | an amount up to a positive maximum gets a width of at most 100% |
| Client.BudgetStatus | script.js:353-369 | the pushed budget alert is the rule-1 specification |
| Client.ExceedsShareCross | script.js:373-374 | for every total (a zero total counts a positive amount as over), "share above 40%" iff 5 × amount > 2 × total when the total is positive, and iff 5 × amount < 2 × total when it is negative |
| Client.ShareOfPositive | script.js:373-374 | over a positive total, amount / total × 100 > 40 iff 5 × amount > 2 × total |
| Client.ShareOfNegative | script.js:373-374 | over a negative total, amount / total × 100 > 40 iff 5 × amount < 2 × total |
| Client.CategoryWarnings | script.js:372-380 | the loop pushes exactly the rule-2 alerts, in category order |
| Client.SavingsCheck | script.js:383-388 | the pushed savings alert is the rule-3 specification |
| Client.RunRateCheck | script.js:391-402 | the pushed run-rate alert is the rule-4 specification |
| Client.SmartAlertsFromFired | script.js:404-417 | the list is the fired alerts, or "on track" / "start tracking" when none fired |
| Client.CategoryAlertsExact | script.js:372-380 | rule 2 produces only category warnings, no more warnings than totals, and a warning is present iff it carries a total above the share |
| Client.CategoryAlertsSingle | script.js:373-379 | one entry yields its warning exactly when it is over the share, and nothing otherwise |
| Client.CategoryAlertsAppend | script.js:372-380 | the warnings for two runs of totals are those of the first followed by those of the second, so each entry over the share yields exactly one warning, in visit order |
| Client.AlertsInRuleOrder | script.js:345-417 | the alert list is never empty and runs in rule order |
| Client.SmartAlertsShape | script.js:345-417 | the list is the four rule parts in order, or the fallback alone when they are all empty, each part holding only its own rule's alerts |
| Client.BudgetAlertIn | script.js:353-369 | a budget alert is shown iff rule 1 produces it |
| Client.CategoryAlertIn | script.js:372-380 | a category warning is shown iff rule 2 produces it |
| Client.SavingsAlertIn | script.js:383-388 | a savings alert is shown iff rule 3 produces it |
| Client.RunRateAlertIn | script.js:391-402 | a run-rate alert is shown iff rule 4 produces it |
| Client.FallbackAlertIn | script.js:404-417 | a fallback message is shown iff no rule fired, and it is the one matching the list's emptiness |
| Client.BudgetAlertsBySpending | script.js:350-369 | rule 1 in totals: over budget by \|remaining\| at total ≥ budget, critical from 90%, warning from 75%, nothing without a positive budget |
| Client.BudgetAlertFirst | script.js:353-369 | a budget alert can only be at position 0 |
| Client.BudgetStatusAlert | script.js:353-369 | alert 0 is the tier's alert for each spending band, and no budget alert appears below 75% |
| Client.CategoryEntryOf | script.js:372-373 | every category total is the sum of a present category |
| Client.EntryForCategory | script.js:311-313 | every present category has an entry holding its sum |
| Client.AlertedCategoryIsHeavy | script.js:372-380 | a shown category warning names a present category with its sum and the total, and that sum is over the share (5 × sum > 2 × total for a non-negative total, 5 × sum < 2 × total for a negative one) |
| Client.HeavyCategoryIsAlerted | script.js:372-380 | every present category whose sum is over the share gets its warning |
| Client.NoEntryOverShare | script.js:372-380 | with no total above the share, rule 2 is silent |
| Client.HeavyEntryAlerted | script.js:372-380 | a total above the share produces its warning |
| Client.CategoryAlertFor | script.js:372-380 | a category is warned about iff it is present and its sum is over the share, for every total |
| Client.CategorySumBounds | script.js:312 | with non-negative amounts, a category's sum lies between 0 and the total |
| Client.NoCategoryAlertWithoutSpending | script.js:373-374 | with non-negative amounts and nothing spent, no category warning appears |
| Client.SavingsAlertIff | script.js:383-388 | "goal reached" is shown iff remaining > 0 and remaining ≥ goal |
| Client.RunRateAlertIff | script.js:391-402 | a run-rate warning is shown iff the list is non-empty and 30 × total > budget × day; it carries total / day and the positive excess total / day × 30 − budget |
| Client.EmptyListAlerts | script.js:412-417 | an empty list shows "goal reached" when the budget is positive and covers the goal, else "start tracking" |
| Client.QuietFiresNothing | script.js:404-410 | quiet expenses fire no rule |
| Client.NotQuietFires | script.js:404-410 | a non-empty list that is not quiet fires some rule |
| Client.OnTrackIff | script.js:405-410 | for a non-empty list, "on track" is shown iff the list is quiet, and then it is the only alert |
| Client.Lower | script.js:429 | lower-casing keeps the length and lowers each character |
| Client.FilterExpenses | script.js:431-436 | the filter never grows the list |
| Client.FilterAppend | script.js:431-436 | filtering distributes over concatenation, so order is kept |
| Client.FilterExact | script.js:431-436 | an expense is shown iff it is in the list and matches the category and the search term |
| Client.ContainsEmpty | script.js:433 | the empty term is contained in every text |
| Client.FilterShowsAll | script.js:431-436 | category "all" with an empty term shows the whole list |
| Client.WithoutId | script.js:219 | deleting never grows the list |
| Client.WithoutIdExact | script.js:219 | an expense survives deletion iff its id differs |
| Client.WithoutIdAppend | script.js:219 | deletion distributes over concatenation, so order is kept |
| Client.WithoutAbsentId | script.js:219 | deleting an id no expense has changes nothing |
| Client.AddThenDelete | script.js:134 | adding an expense with a fresh id and then deleting that id restores the list |
| Client.CategoryName | script.js:485-497 | the name is never empty, and it is "Other" exactly for "other" and unknown categories |
| Client.CategoryIcon | script.js:471-483 | the icon is never empty, and it is the parcel icon exactly for "other" and unknown categories |
| Client.Dashboard.constructor | script.js:6-12 | the dashboard starts from the given budget, goal and list |
| Client.Dashboard.AddExpense | script.js:134 | the new expense goes in front, the rest is unchanged, and the total grows by its amount |
| Client.Dashboard.DeleteExpense | script.js:219 | the list becomes the old one without that id |
| Client.Dashboard.SetBudget | script.js:184-185 | the budget and goal become the submitted values |
| Client.Dashboard.RenderCategoryChart | script.js:308-342 | the bars are the chart of the current list's category totals |
| Client.Dashboard.GenerateSmartAlerts | script.js:345-424 | the pushed alerts are the specified alert list of the current state |
| Demo.DemoTotals | script.js:541-590 | the demo expenses total 2900, and their category totals are the five (category, amount) pairs in list order |
| Demo.DemoCategoryAlerts | script.js:372-380 | only shopping, at 1200 of 2900, is above the 40% share |
| Demo.DemoRunRate | script.js:391-402 | the demo run rate passes the budget exactly on days 1 to 8 |
| Demo.DemoAlerts | script.js:525-539 | demo mode shows the shopping warning and "goal reached", plus the run-rate warning on days 1 to 8 |
| Server.ValidateBudgetUpdate | main.py:35-37 | an update is accepted iff the budget is present and positive and the goal (default 0) is non-negative; each rejection names every violated field |
| Server.UserHelper | main.py:54-62 | the view copies id, name and email, and reads a missing budget or goal as 0 |
| Server.ApplyBudgetUpdate | main.py:114-120 | the update sets both fields and keeps the rest |
| Server.UpdateThenRead | main.py:114-126 | reading after an accepted update returns the submitted budget and goal |
| Server.MaxId | main.py:85 | the largest id is one of the ids and bounds all of them |
| Server.NextUserId | main.py:85-86 | the next id is 1 for no users, otherwise one more than an existing id and larger than all of them |
| Server.Entries | main.py:147-149 | each expense becomes its (category, amount) pair, with "other" and 0 as defaults |
| Server.EntriesTotal | main.py:140 | the entries add up to the total spent |
| Server.BuildBreakdown | main.py:146-149 | the loop builds the specified breakdown |
| Server.BreakdownSpec | main.py:146-149 | the breakdown has distinct keys, exactly the categories met, first-met first, each holding its sum, and adds up to the total |
| Server.BreakdownSnoc | main.py:147-149 | one more expense upserts its pair into the breakdown |
| Server.MissingCategoryIsOther | main.py:148-149 | an expense without a category adds its amount to "other" and leaves every other category alone |
| Server.AvgDaily | main.py:159 | the daily average times the day is the total, and it is 0 for a day that is not positive |
| Server.AnalyticsTotals | main.py:140-142 | the analytics carry the total, the breakdown adds up to it, and remaining = stored budget − total |
| Server.AnalyticsPercent | main.py:143 | the percentage follows the budget rule and is 0 without a positive budget |
| Server.AnalyticsProjection | main.py:158-160 | the projection is 30 × the daily average, and 0 for a non-positive day |
| Server.TopCategoriesSpec | main.py:152-155 | the top categories are at most five breakdown entries, descending, with none omitted larger than a kept one, and equal amounts keep their breakdown order |
| Server.RankedAmount | main.py:149-155 | each ranked entry holds the sum of its category's expenses |
| Server.GetAnalytics | main.py:128-169 | the analytics computed step by step equal the specification |
| Server.ServedAnalytics | main.py:138-169 | on the empty list the service reads, all figures are 0 except remaining, which is the stored budget |
| Server.ServedRecommendations | main.py:171-243 | on that empty list the service recommends "savings achieved", a projection warning (negative budget) or "all good" |
| Server.CategoryPercentCross | main.py:208-210 | share > 40% iff something was spent and 5 × amount > 2 × total |
| Server.FirstThree | main.py:205 | the slice is the first min(3, length) ranked entries |
| Server.CategoryRecommendationsExact | main.py:205-216 | rule 2 produces only category alerts, and an alert is present iff it carries a ranked entry above 40% and that entry's share |
| Server.RecommendShape | main.py:179-243 | the list is the four rule parts in order, or "all good" when they are all empty |
| Server.RecommendationOfRule | main.py:184-241 | a recommendation of each rule is present iff its rule produces it; "all good" iff no rule fired |
| Server.RecommendOrder | main.py:179-243 | the list is never empty, runs in rule order, and "all good" appears only alone and only when nothing fired |
| Server.AllGoodIff | main.py:235-241 | "all good" iff under 75%, no category alert, goal not reached and projection within budget |
| Server.BudgetRecommendationFirst | main.py:184-202 | the budget recommendation can only come first, and it has the tier's kind and severity |
| Server.CategoryAlertIff | main.py:204-216 | a category alert is present iff one of the first three ranked entries exceeds 40% of a positive total |
| Server.NoCategoryAlertWithoutSpending | main.py:208 | with no positive total there is no category alert |
| Server.SavingsIff | main.py:218-224 | "savings achieved" is present iff remaining > 0 and remaining ≥ goal, and it carries the goal |
| Server.ProjectionIff | main.py:226-233 | a projection warning is present iff the projection exceeds the stored budget, and it carries the positive excess |
| Server.ProjectionBySpending | main.py:157-160 | the projection exceeds the budget iff 30 × total > budget × day, or iff the budget is negative for a non-positive day |
| Server.ProjectionRecommendedBySpending | main.py:226-233 | on computed analytics, a projection warning is present iff 30 × total > stored budget × day for a positive day, or iff the stored budget is negative otherwise |
| Server.SavingsRecommendedBySpending | main.py:218-224 | on computed analytics, "savings achieved" is present iff stored budget − total is positive and at least the stored goal |
| Server.CategoryRecommendedBySpending | main.py:204-216 | on computed analytics, a category is flagged iff it is among the first three of the top five, something was spent and 5 × its sum > 2 × total; the alert carries that sum's share |
| Server.BudgetRecommendationsBySpending | main.py:185-202 | rule 1 on computed analytics, decided by comparing the total against the budget and its 90% and 75% marks |
| Server.BudgetAdvice | main.py:184-202 | the pushed budget recommendation is the rule-1 specification |
| Server.CategoryAdvice | main.py:205-216 | the loop pushes exactly the rule-2 recommendations |
| Server.SavingsAdvice | main.py:218-224 | the pushed savings recommendation is the rule-3 specification |
| Server.ProjectionAdvice | main.py:226-233 | the pushed projection recommendation is the rule-4 specification |
| Server.GetRecommendations | main.py:171-243 | the pushed recommendations are the specified list for the user's analytics |

## Notes on the source

- **Category rule with nothing spent.** The dashboard's category rule
  divides by the total spent even when it is 0 (script.js:373-374). A
  positive amount over a zero total gives an infinite share, which exceeds
  40%, and zero over zero gives NaN, which does not. The model keeps that
  case (`Client.ExceedsShare`). `Client.NoCategoryAlertWithoutSpending`
  proves that with non-negative amounts no category warning can appear
  then.
- **Demo data.** On the demo data the dashboard shows a shopping warning
  and "goal reached" (`Demo.DemoAlerts`).
- **Alert order.** The alerts visit the category totals in insertion order.
  Only the chart sorts them.

## Left out

- **I/O and rendering:**
  - HTTP requests, the database, DOM rendering, toasts and the
    network-failure fallbacks are outside the model;
  - for the service, the expense list is a parameter, and a user not found
    (404) is not modelled.
- **Clock and ids:**
  - The clock is a parameter: `day` stands for `new Date().getDate()` and
    `datetime.now().day`.
  - `Date.now()` ids for offline expenses and the `createdAt` timestamps
    are left out.
- **Floating point:**
  - Amounts are exact reals. Binary rounding, `toFixed`, `parseFloat` and
    NaN or infinite inputs are not modelled.
  - The width of a bar against a zero maximum is modelled as `None`. In
    the page it is NaN for a zero amount and an infinity for any other
    amount.
- **Messages:** alert and recommendation messages are datatypes carrying
  the figures their text is formatted from; string formatting, emoji and
  `title()` are left out.
- **Stored category totals:** the dashboard's `categoryTotals` global is
  rebuilt by the chart just before the alerts read it. The model builds it
  from the current list, so a stale global is not modelled.
- **Progress bar:** the bar's `Math.min(percentUsed, 100)` width and its
  colour thresholds (script.js:259-268) are left out. Only the percentage
  is modelled.
- **Other display code:**
  - `formatDate` and the expense list rendering are left out;
  - lower-casing covers ASCII letters only;
  - lookups of names such as `constructor` on the JavaScript label objects
    through the prototype are not modelled.
- Categories.Upsert: treats every category name as an ordinary key. In the
  page's `categoryTotals` object (script.js:312), a category named
  `constructor` (or another `Object.prototype` member) first reads as a
  function, so adding to it gives a string. An assignment to `__proto__`
  is ignored. Neither effect is modelled.
- **Key order:** JavaScript objects list integer-like keys first. The model
  keeps every key in insertion order.
- **Stored values and validation:**
  - A stored field that is present but `None` is read as missing.
  - Users without an id and Pydantic's type coercion are not modelled.
- **Service expenses:** the expense list the service actually reads is
  hard-coded empty (main.py:138). `Server.ServedAnalytics` and
  `Server.ServedRecommendations` state what that gives. The other service
  members take the list as a parameter.
- Server.GetAnalytics: does not apply `round(..., 2)` to the percentage and
  the projection. After rounding, a percentage just below 100 (for example
  99.996) is reported as 100.00 and falls into the "exceeded" tier.
- Client.SavingsAchieved: the [0, goal] bound requires a non-negative goal.
  The dashboard does not check its goal, and `Client.DashboardTotals`
  states the general case.
- Client.NoCategoryAlertWithoutSpending: holds for non-negative amounts
  only. Negative amounts summing to 0 can trigger a category warning in
  the code.
