/**
 * The weekly savings card of the home page: how much of the budget is spent, what is left,
 * and the colour of the bar.
 */
module SavingsSummary {

  datatype SavingsData = SavingsData(
    weeklyBudget: real,
    currentSpent: real,
    totalSavings: real,
    avgSavingsPercent: int,
    mealsThisWeek: int,
    weeklyComparison: real)

  function Min(a: real, b: real): real { if a <= b then a else b }
  function Max(a: real, b: real): real { if a >= b then a else b }

  /** `Math.min(currentSpent / weeklyBudget * 100, 100)`. */
  function ProgressPercentage(d: SavingsData): (p: real)
    requires d.weeklyBudget > 0.0
    ensures p <= 100.0
    ensures d.currentSpent >= 0.0 ==> p >= 0.0
    ensures d.currentSpent <= d.weeklyBudget ==> p * d.weeklyBudget == d.currentSpent * 100.0
    ensures d.currentSpent >= d.weeklyBudget ==> p == 100.0
  {
    var share := d.currentSpent / d.weeklyBudget;
    ShareFacts(d.currentSpent, d.weeklyBudget);
    Min(share * 100.0, 100.0)
  }

  lemma ShareFacts(spent: real, budget: real)
    requires budget > 0.0
    ensures spent / budget * budget == spent
    ensures spent <= budget ==> spent / budget <= 1.0
    ensures spent >= budget ==> spent / budget >= 1.0
    ensures spent >= 0.0 ==> spent / budget >= 0.0
  {
  }

  /** `Math.max(weeklyBudget - currentSpent, 0)`. */
  function RemainingBudget(d: SavingsData): (r: real)
    ensures r >= 0.0
    ensures r == 0.0 <==> d.currentSpent >= d.weeklyBudget
    ensures r > 0.0 ==> r + d.currentSpent == d.weeklyBudget
  {
    Max(d.weeklyBudget - d.currentSpent, 0.0)
  }

  predicate IsOverBudget(d: SavingsData) {
    d.currentSpent > d.weeklyBudget
  }

  /** Over budget, nothing is left and the bar is full. */
  lemma OverBudgetFull(d: SavingsData)
    requires d.weeklyBudget > 0.0 && IsOverBudget(d)
    ensures RemainingBudget(d) == 0.0 && ProgressPercentage(d) == 100.0
  {
  }

  /** The spent part and the remaining part make up the budget while it lasts. */
  lemma SpentPlusRemaining(d: SavingsData)
    requires d.weeklyBudget > 0.0 && !IsOverBudget(d)
    ensures RemainingBudget(d) + d.currentSpent == d.weeklyBudget
    ensures ProgressPercentage(d) * d.weeklyBudget == d.currentSpent * 100.0
  {
  }

  datatype BarColor = ErrorBar | WarningBar | PrimaryBar

  /** The bar is red over budget, amber above eighty per cent, and the primary colour
      otherwise. */
  function BarColorOf(d: SavingsData): (c: BarColor)
    requires d.weeklyBudget > 0.0
    ensures c == ErrorBar <==> IsOverBudget(d)
    ensures c == WarningBar <==> !IsOverBudget(d) && ProgressPercentage(d) > 80.0
    ensures c == PrimaryBar <==> !IsOverBudget(d) && ProgressPercentage(d) <= 80.0
  {
    if IsOverBudget(d) then ErrorBar
    else if ProgressPercentage(d) > 80.0 then WarningBar
    else PrimaryBar
  }

  /** Amber means more than four fifths of the budget spent, and not more than all of it. */
  lemma WarningMeansFourFifths(d: SavingsData)
    requires d.weeklyBudget > 0.0 && BarColorOf(d) == WarningBar
    ensures d.weeklyBudget * 0.8 < d.currentSpent <= d.weeklyBudget
  {
    AboveShare(ProgressPercentage(d), d.weeklyBudget, d.currentSpent);
  }

  /** A share above eighty per cent of a positive budget is more than four fifths of it. */
  lemma AboveShare(p: real, b: real, s: real)
    requires b > 0.0 && p > 80.0 && p * b == s * 100.0
    ensures s > b * 0.8
  {
    PositiveProduct(p - 80.0, b);
    assert (p - 80.0) * b == p * b - 80.0 * b;
  }

  lemma PositiveProduct(x: real, y: real)
    requires x > 0.0 && y > 0.0
    ensures x * y > 0.0
  {
  }

  /** The comparison with last week is shown as good news exactly when it is positive, with
      its absolute amount. */
  function ComparisonIsGood(d: SavingsData): (good: bool)
    ensures good <==> d.weeklyComparison > 0.0
  {
    d.weeklyComparison > 0.0
  }

  function ComparisonAmount(d: SavingsData): (a: real)
    ensures a >= 0.0
    ensures a == d.weeklyComparison || a == -d.weeklyComparison
  {
    if d.weeklyComparison < 0.0 then -d.weeklyComparison else d.weeklyComparison
  }
}
