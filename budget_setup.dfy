/**
 * The last wizard step: household size, weekly budget and the acceptance of the terms
 * that unlocks account creation.
 */
module BudgetSetup {
  import opened JsText
  import opened Onboarding

  /** `handleBudgetChange`: the slider's value goes through `parseInt`; nothing else
      changes. */
  function BudgetChange(f: FormData, value: string): (r: FormData)
    ensures r.weeklyBudget == ParseInt(value)
    ensures r.(weeklyBudget := f.weeklyBudget) == f
  {
    f.(weeklyBudget := ParseInt(value))
  }

  /** `handleHouseholdSizeChange`: only the household size changes. */
  function HouseholdSizeChange(f: FormData, size: int): (r: FormData)
    ensures r.householdSize == size
    ensures r.(householdSize := f.householdSize) == f
  {
    f.(householdSize := size)
  }

  /** `weeklyBudget || 75`. */
  function CurrentBudget(f: FormData): (b: int)
    ensures b != 0
    ensures TruthyInt(f.weeklyBudget) ==> b == f.weeklyBudget.value
    ensures !TruthyInt(f.weeklyBudget) ==> b == 75
  {
    if TruthyInt(f.weeklyBudget) then f.weeklyBudget.value else 75
  }

  /** `householdSize || 2`. */
  function CurrentHouseholdSize(f: FormData): (n: int)
    ensures n != 0
    ensures f.householdSize != 0 ==> n == f.householdSize
  {
    if f.householdSize != 0 then f.householdSize else 2
  }

  /** Moving the slider to a non-zero whole number shows exactly that budget. */
  lemma BudgetRoundTrip(f: FormData, euros: int)
    requires euros != 0
    ensures CurrentBudget(BudgetChange(f, IntText(euros))) == euros
  {
    ParseIntOfIntText(euros);
  }

  /** One row of the budget table. */
  datatype BudgetRange = BudgetRange(min: int, max: int, caption: string, description: string)

  const BudgetRanges: seq<BudgetRange> := [
    BudgetRange(25, 50, "Sparsam", "Grundausstattung"),
    BudgetRange(50, 100, "Ausgewogen", "Gute Vielfalt"),
    BudgetRange(100, 150, "Komfortabel", "Premium Produkte"),
    BudgetRange(150, 200, "Großzügig", "Keine Einschränkungen")]

  predicate Contains(r: BudgetRange, b: int) {
    r.min <= b <= r.max
  }

  /** The position of the first range holding `b`, as `find` visits them; `|ranges|` when
      none does. */
  function FirstContaining(ranges: seq<BudgetRange>, b: int): (i: nat)
    ensures i <= |ranges|
    ensures i < |ranges| ==> Contains(ranges[i], b)
    ensures forall k :: 0 <= k < i ==> !Contains(ranges[k], b)
  {
    if ranges == [] then 0
    else if Contains(ranges[0], b) then 0
    else 1 + FirstContaining(ranges[1..], b)
  }

  /** `getCurrentBudgetRange`: the first range holding the budget, the second range when
      none does. */
  function CurrentBudgetRange(b: int): (r: BudgetRange)
    ensures r in BudgetRanges
    ensures 25 <= b <= 200 ==> Contains(r, b)
    ensures !(25 <= b <= 200) ==> r == BudgetRanges[1]
  {
    var i := FirstContaining(BudgetRanges, b);
    if i < |BudgetRanges| then BudgetRanges[i]
    else
      assert !Contains(BudgetRanges[0], b) && !Contains(BudgetRanges[1], b);
      assert !Contains(BudgetRanges[2], b) && !Contains(BudgetRanges[3], b);
      BudgetRanges[1]
  }

  /** A budget on a shared boundary belongs to the lower range. */
  lemma BoundariesGoLow()
    ensures CurrentBudgetRange(50).caption == "Sparsam"
    ensures CurrentBudgetRange(100).caption == "Ausgewogen"
    ensures CurrentBudgetRange(150).caption == "Komfortabel"
    ensures CurrentBudgetRange(200).caption == "Großzügig"
  {
    assert FirstContaining(BudgetRanges, 50) == 0;
    assert FirstContaining(BudgetRanges, 100) == 1 by {
      assert BudgetRanges[1..][0] == BudgetRanges[1];
    }
    assert FirstContaining(BudgetRanges, 150) == 2 by {
      assert BudgetRanges[1..][1..][0] == BudgetRanges[2];
    }
    assert FirstContaining(BudgetRanges, 200) == 3 by {
      assert BudgetRanges[1..][1..][1..][0] == BudgetRanges[3];
    }
  }

  /** Inside the slider's span a budget gets the range whose interior or upper end it is
      in. */
  lemma RangeByInterval(b: int)
    requires 25 <= b <= 200
    ensures b <= 50 ==> CurrentBudgetRange(b) == BudgetRanges[0]
    ensures 50 < b <= 100 ==> CurrentBudgetRange(b) == BudgetRanges[1]
    ensures 100 < b <= 150 ==> CurrentBudgetRange(b) == BudgetRanges[2]
    ensures 150 < b ==> CurrentBudgetRange(b) == BudgetRanges[3]
  {
    var rs := BudgetRanges;
    assert rs[1..][0] == rs[1] && rs[1..][1..][0] == rs[2] && rs[1..][1..][1..][0] == rs[3];
  }

  /** `Math.round(x)`: the nearest integer, halves rounding up. */
  function Round(x: real): int {
    (x + 0.5).Floor
  }

  lemma RoundBounds(x: real)
    ensures Round(x) as real - 0.5 <= x < Round(x) as real + 0.5
  {
  }

  /** `Math.round(currentBudget * 0.15)`, the weekly saving shown. */
  function EstimatedSavings(b: int): (s: int)
    ensures s == (3 * b + 10) / 20
  {
    var x := b as real * 0.15;
    var q, m := (3 * b + 10) / 20, (3 * b + 10) % 20;
    assert x + 0.5 == q as real + m as real / 20.0;
    FloorOfFraction(q, m, 20);
    Round(x)
  }

  lemma FloorOfFraction(q: int, m: int, d: int)
    requires d > 0 && 0 <= m < d
    ensures (q as real + m as real / d as real).Floor == q
  {
    assert 0.0 <= m as real / d as real < 1.0;
  }

  lemma CancelFactor(a: real, c: real, d: real)
    requires d != 0.0 && a * d == c * d
    ensures a == c
  {
    assert (a - c) * d == 0.0;
  }

  /** The yearly figure is fifty-two weekly savings. */
  function YearlySavings(b: int): (y: int)
    ensures y == 52 * EstimatedSavings(b)
  {
    EstimatedSavings(b) * 52
  }

  /** The saving shown is about fifteen per cent of the budget: never more than half a unit
      off. */
  lemma SavingsNearFifteenPercent(b: int)
    ensures EstimatedSavings(b) as real - 0.5 <= b as real * 0.15 < EstimatedSavings(b) as real + 0.5
  {
    RoundBounds(b as real * 0.15);
  }

  /** `Math.round(currentBudget / currentHouseholdSize)`, the budget per person. */
  function PerPerson(b: int, n: int): (p: int)
    requires n != 0
    ensures n > 0 ==> p == (2 * b + n) / (2 * n)
  {
    var x := b as real / n as real;
    if n > 0 then
      var q, m := (2 * b + n) / (2 * n), (2 * b + n) % (2 * n);
      var d := (2 * n) as real;
      assert 2 * b + n == 2 * n * q + m;
      assert x * n as real == b as real;
      assert (x + 0.5) * d == (2 * b + n) as real;
      assert (m as real / d) * d == m as real;
      assert (q as real + m as real / d) * d == (2 * b + n) as real;
      CancelFactor(x + 0.5, q as real + m as real / d, d);
      FloorOfFraction(q, m, 2 * n);
      Round(x)
    else Round(x)
  }

  /** The per-person figure shown on the page, for the budget and household shown. */
  function PerPersonShown(f: FormData): (p: int)
    ensures p == PerPerson(CurrentBudget(f), CurrentHouseholdSize(f))
  {
    PerPerson(CurrentBudget(f), CurrentHouseholdSize(f))
  }

  /** The start data gives 38 per person and a weekly saving of 11. */
  lemma InitialFigures()
    ensures PerPersonShown(InitialFormData) == 38
    ensures EstimatedSavings(CurrentBudget(InitialFormData)) == 11
    ensures YearlySavings(CurrentBudget(InitialFormData)) == 572
    ensures CurrentBudgetRange(CurrentBudget(InitialFormData)).caption == "Ausgewogen"
  {
    RangeByInterval(75);
  }

  /** The step's own state. */
  class BudgetSetupStep {
    var acceptedTerms: bool
    var isCompleting: bool

    constructor()
      ensures !acceptedTerms && !isCompleting
    {
      acceptedTerms := false;
      isCompleting := false;
    }

    /** The terms checkbox. */
    method SetTerms(checked: bool)
      modifies this`acceptedTerms
      ensures acceptedTerms == checked
    {
      acceptedTerms := checked;
    }

    /** `handleComplete`: nothing happens unless the terms are accepted; then account
        creation starts, and the wizard completes when it ends (see `CreationDone`). */
    method Complete() returns (started: bool)
      modifies this`isCompleting
      ensures started == acceptedTerms
      ensures isCompleting == (acceptedTerms || old(isCompleting))
    {
      if !acceptedTerms {
        return false;
      }
      isCompleting := true;
      started := true;
    }

    /** The end of the simulated account creation: the flag drops and the wizard is told
        to complete. */
    method CreationDone() returns (complete: bool)
      modifies this`isCompleting
      ensures !isCompleting && complete
    {
      isCompleting := false;
      complete := true;
    }
  }
}
