/** The share of the budget already spent and the tier it falls into.
    Both the dashboard (script.js) and the analytics service (main.py)
    compute the percentage the same way and test it against the same three
    thresholds, highest first. */
module Usage {

  /** Percent of the budget spent; 0 whenever the budget is not positive,
      whatever was spent. */
  function PercentUsed(budget: real, totalSpent: real): (p: real)
    ensures budget <= 0.0 ==> p == 0.0
  {
    if budget > 0.0 then totalSpent / budget * 100.0 else 0.0
  }

  /** With a positive budget the percentage is exactly 100 * spent / budget. */
  lemma PercentScaled(budget: real, totalSpent: real)
    requires budget > 0.0
    ensures PercentUsed(budget, totalSpent) * budget == 100.0 * totalSpent
  {
  }

  /** The magnitude of an overspend (`Math.abs`, `abs`). */
  function Abs(x: real): (r: real)
    ensures r >= 0.0 && (r == x || r == -x)
  {
    if x < 0.0 then -x else x
  }

  /** How far through the budget the spending is. */
  datatype Tier = Normal | Warning | Critical | Exceeded

  function Rank(t: Tier): nat {
    match t
    case Normal => 0
    case Warning => 1
    case Critical => 2
    case Exceeded => 3
  }

  /** Inclusive lower bounds, tested from the highest down: 100, 90, 75. */
  function TierOf(percentUsed: real): (t: Tier)
    ensures t == Exceeded <==> percentUsed >= 100.0
    ensures t == Critical <==> 90.0 <= percentUsed < 100.0
    ensures t == Warning <==> 75.0 <= percentUsed < 90.0
    ensures t == Normal <==> percentUsed < 75.0
  {
    if percentUsed >= 100.0 then Exceeded
    else if percentUsed >= 90.0 then Critical
    else if percentUsed >= 75.0 then Warning
    else Normal
  }

  /** Spending more never moves the tier down. */
  lemma TierMonotone(p: real, q: real)
    requires p <= q
    ensures Rank(TierOf(p)) <= Rank(TierOf(q))
  {
  }

  /** With a positive budget, p * budget >= k * budget exactly when p >= k. */
  lemma ScaledAtLeast(p: real, k: real, budget: real)
    requires budget > 0.0
    ensures p >= k <==> p * budget >= k * budget
  {
    if p >= k {
      assert p * budget - k * budget == (p - k) * budget;
    } else {
      assert k * budget - p * budget == (k - p) * budget;
    }
  }

  /** With a positive factor, p * d > k * d exactly when p > k. */
  lemma ScaledGreater(p: real, k: real, d: real)
    requires d > 0.0
    ensures p > k <==> p * d > k * d
  {
    if p > k {
      assert p * d - k * d == (p - k) * d;
    } else {
      assert k * d - p * d == (k - p) * d;
    }
  }

  /** A percentage threshold restated without division. */
  lemma AtLeastPercent(budget: real, totalSpent: real, k: real)
    requires budget > 0.0
    ensures PercentUsed(budget, totalSpent) >= k <==> 100.0 * totalSpent >= k * budget
  {
    PercentScaled(budget, totalSpent);
    ScaledAtLeast(PercentUsed(budget, totalSpent), k, budget);
  }

  /** The tier without any division: each threshold becomes a
      cross-multiplied comparison of what was spent against the budget. */
  lemma TierBySpending(budget: real, totalSpent: real)
    requires budget > 0.0
    ensures TierOf(PercentUsed(budget, totalSpent)) ==
      if totalSpent >= budget then Exceeded
      else if 10.0 * totalSpent >= 9.0 * budget then Critical
      else if 4.0 * totalSpent >= 3.0 * budget then Warning
      else Normal
  {
    AtLeastPercent(budget, totalSpent, 100.0);
    AtLeastPercent(budget, totalSpent, 90.0);
    AtLeastPercent(budget, totalSpent, 75.0);
  }

  /** Without a positive budget no spending, however large, leaves the
      Normal tier. */
  lemma NoBudgetStaysNormal(budget: real, totalSpent: real)
    requires budget <= 0.0
    ensures TierOf(PercentUsed(budget, totalSpent)) == Normal
  {
  }

  /** The projection at a daily average, stretched to 30 days, exceeds
      the budget exactly when 30 * spent > budget * day. */
  lemma ProjectionCross(totalSpent: real, budget: real, day: int)
    requires day >= 1
    ensures totalSpent / (day as real) * 30.0 > budget <==> 30.0 * totalSpent > budget * (day as real)
  {
    var d := day as real;
    var q := totalSpent / d;
    assert q * d == totalSpent;
    ScaledGreater(q * 30.0, budget, d);
  }
}
