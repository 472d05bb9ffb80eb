/** The live budget tracker: per-category allocations and spending, their
    totals, the over- and under-budget lists, the status and colour of each
    category's progress bar, and the mock savings estimate. */
module BudgetAnalyzer {

  datatype Category = Category(name: string, allotted: int, spent: int, suggestions: seq<string>)

  /** Default total budget of the tracker. */
  const DefaultTotalBudget: int := 50000

  /** Savings credited to every category that has at least one suggestion. */
  const SavingsPerCategory: int := 2000

  // ---------------------------------------------------------------------------
  // Totals

  /** The `reduce` over the allocations. */
  function TotalAllocated(cs: seq<Category>): (r: int)
    ensures (forall k | 0 <= k < |cs| :: cs[k].allotted >= 0) ==> r >= 0
  {
    if cs == [] then 0 else cs[0].allotted + TotalAllocated(cs[1..])
  }

  /** The `reduce` over the amounts spent. */
  function TotalSpent(cs: seq<Category>): (r: int)
    ensures (forall k | 0 <= k < |cs| :: cs[k].spent >= 0) ==> r >= 0
  {
    if cs == [] then 0 else cs[0].spent + TotalSpent(cs[1..])
  }

  /** Both totals count every category once, whatever the split of the list. */
  lemma {:induction false} TotalsAppend(a: seq<Category>, b: seq<Category>)
    ensures TotalAllocated(a + b) == TotalAllocated(a) + TotalAllocated(b)
    ensures TotalSpent(a + b) == TotalSpent(a) + TotalSpent(b)
  {
    if a == [] {
      assert a + b == b;
    } else {
      assert (a + b)[0] == a[0] && (a + b)[1..] == a[1..] + b;
      TotalsAppend(a[1..], b);
    }
  }

  /** What is left of the total budget; negative once spending passes it. */
  function Remaining(totalBudget: int, cs: seq<Category>): (r: int)
    ensures r >= 0 <==> TotalSpent(cs) <= totalBudget
    ensures StandingOf(r) == if TotalSpent(cs) <= totalBudget then Left(totalBudget - TotalSpent(cs)) else Over(TotalSpent(cs) - totalBudget)
  {
    totalBudget - TotalSpent(cs)
  }

  /** How the overall figure is shown: the absolute amount, "left" or "over". */
  datatype Standing = Left(amount: nat) | Over(amount: nat)

  function StandingOf(remaining: int): (d: Standing)
    ensures d.Left? <==> remaining >= 0
    ensures remaining == if d.Left? then d.amount as int else -(d.amount as int)
  {
    if remaining >= 0 then Left(remaining) else Over(-remaining)
  }

  // ---------------------------------------------------------------------------
  // Over- and under-budget lists

  predicate IsOver(c: Category) { c.spent > c.allotted }

  predicate IsUnder(c: Category) { c.spent < c.allotted }

  function OverBudget(cs: seq<Category>): (r: seq<Category>)
    ensures |r| <= |cs|
  {
    if cs == [] then [] else if IsOver(cs[0]) then [cs[0]] + OverBudget(cs[1..]) else OverBudget(cs[1..])
  }

  function UnderBudget(cs: seq<Category>): (r: seq<Category>)
    ensures |r| <= |cs|
  {
    if cs == [] then [] else if IsUnder(cs[0]) then [cs[0]] + UnderBudget(cs[1..]) else UnderBudget(cs[1..])
  }

  /** The over-budget list holds every overrunning category as often as the
      list does and nothing else; likewise the under-budget list. */
  lemma {:induction false} FiltersSelect(cs: seq<Category>)
    ensures forall c :: multiset(OverBudget(cs))[c] == if IsOver(c) then multiset(cs)[c] else 0
    ensures forall c :: multiset(UnderBudget(cs))[c] == if IsUnder(c) then multiset(cs)[c] else 0
  {
    if cs != [] {
      FiltersSelect(cs[1..]);
      assert cs == [cs[0]] + cs[1..];
    }
  }

  /** The lists keep list order: filtering a concatenation concatenates the filtered parts. */
  lemma {:induction false} FiltersKeepOrder(a: seq<Category>, b: seq<Category>)
    ensures OverBudget(a + b) == OverBudget(a) + OverBudget(b)
    ensures UnderBudget(a + b) == UnderBudget(a) + UnderBudget(b)
  {
    if a != [] {
      assert (a + b)[0] == a[0] && (a + b)[1..] == a[1..] + b;
      FiltersKeepOrder(a[1..], b);
    } else {
      assert a + b == b;
    }
  }

  /** No category is in both lists, and one spent exactly as allotted is in neither. */
  lemma FiltersDisjoint(cs: seq<Category>)
    ensures forall c | c in OverBudget(cs) :: c !in UnderBudget(cs)
    ensures forall c | c in cs && c.spent == c.allotted :: c !in OverBudget(cs) && c !in UnderBudget(cs)
  {
    FiltersSelect(cs);
    forall c | c in OverBudget(cs) ensures c !in UnderBudget(cs) {
      assert multiset(OverBudget(cs))[c] > 0;
      assert multiset(UnderBudget(cs))[c] == 0;
    }
    forall c | c in cs && c.spent == c.allotted ensures c !in OverBudget(cs) && c !in UnderBudget(cs) {
      assert multiset(OverBudget(cs))[c] == 0;
      assert multiset(UnderBudget(cs))[c] == 0;
    }
  }

  /** Amount by which the listed categories overran (or, negated, undershot) their allocations. */
  function Overrun(cs: seq<Category>): int {
    if cs == [] then 0 else (cs[0].spent - cs[0].allotted) + Overrun(cs[1..])
  }

  lemma OverrunCons(c: Category, cs: seq<Category>)
    ensures Overrun([c] + cs) == (c.spent - c.allotted) + Overrun(cs)
  {
    assert ([c] + cs)[1..] == cs;
  }

  /** Spending minus allocation overall is the overrun of the over-budget list
      less the slack left in the under-budget list. */
  lemma {:induction false} OverrunPartition(cs: seq<Category>)
    ensures TotalSpent(cs) - TotalAllocated(cs) == Overrun(OverBudget(cs)) + Overrun(UnderBudget(cs))
    ensures Overrun(OverBudget(cs)) >= 0 && Overrun(UnderBudget(cs)) <= 0
  {
    if cs != [] {
      OverrunPartition(cs[1..]);
      var c := cs[0];
      OverrunCons(c, OverBudget(cs[1..]));
      OverrunCons(c, UnderBudget(cs[1..]));
    }
  }

  // ---------------------------------------------------------------------------
  // Status and progress of one category

  /** A JavaScript number as far as these formulas need it. */
  datatype Number = Finite(value: real) | PosInfinity | NegInfinity | NaN

  /** `spent / allotted * 100`, with the division by zero JavaScript performs. */
  function Percentage(allotted: int, spent: int): (p: Number)
    ensures allotted != 0 <==> p.Finite?
    ensures p == PosInfinity <==> allotted == 0 && spent > 0
    ensures p == NaN <==> allotted == 0 && spent == 0
  {
    if allotted != 0 then Finite((spent as real) / (allotted as real) * 100.0)
    else if spent > 0 then PosInfinity
    else if spent < 0 then NegInfinity
    else NaN
  }

  /** `n > c`; every comparison with NaN is false. */
  predicate Exceeds(n: Number, c: real) {
    match n
    case Finite(v) => v > c
    case PosInfinity => true
    case NegInfinity => false
    case NaN => false
  }

  datatype Status = OverStatus | Warning | Good

  /** `getBudgetStatus`: over beyond 100 percent, warning beyond 80. For a
      positive allocation these are comparisons of whole amounts; with nothing
      allotted the percentage is Infinity (anything spent, so over) or NaN
      (nothing spent, and every comparison with NaN fails, so good). */
  function BudgetStatus(allotted: int, spent: int): (s: Status)
    ensures allotted > 0 ==> (s == OverStatus <==> spent > allotted)
    ensures allotted > 0 ==> (s == Warning <==> 80 * allotted < 100 * spent <= 100 * allotted)
    ensures allotted > 0 ==> (s == Good <==> 100 * spent <= 80 * allotted)
    ensures allotted == 0 ==> s == (if spent > 0 then OverStatus else Good)
  {
    var p := Percentage(allotted, spent);
    assert allotted > 0 ==> (Exceeds(p, 100.0) <==> spent > allotted) && (Exceeds(p, 80.0) <==> 100 * spent > 80 * allotted) by {
      if allotted > 0 {
        PercentAbove(allotted, spent, 100.0);
        PercentAbove(allotted, spent, 80.0);
      }
    }
    if Exceeds(p, 100.0) then OverStatus else if Exceeds(p, 80.0) then Warning else Good
  }

  datatype BarColor = Red | Orange | Green

  /** `getProgressColor`: the bar colour uses the status thresholds. */
  function ProgressColor(allotted: int, spent: int): (b: BarColor)
    ensures b == Red <==> BudgetStatus(allotted, spent) == OverStatus
    ensures b == Orange <==> BudgetStatus(allotted, spent) == Warning
    ensures b == Green <==> BudgetStatus(allotted, spent) == Good
  {
    var p := Percentage(allotted, spent);
    if Exceeds(p, 100.0) then Red else if Exceeds(p, 80.0) then Orange else Green
  }

  lemma ScaleStrict(p: real, c: real, n: real)
    requires n > 0.0
    ensures p > c <==> p * n > c * n
  {
    if p > c {
      assert p * n - c * n == (p - c) * n;
    } else {
      assert c * n - p * n == (c - p) * n;
    }
  }

  /** Above a percentage threshold is a comparison of amounts. */
  lemma PercentAbove(allotted: int, spent: int, c: real)
    requires allotted > 0
    ensures Exceeds(Percentage(allotted, spent), c) <==> (spent as real) * 100.0 > c * (allotted as real)
  {
    var a := allotted as real;
    var f := (spent as real) / a;
    assert f * a == spent as real;
    assert (f * 100.0) * a == (spent as real) * 100.0;
    ScaleStrict(f * 100.0, c, a);
  }

  /** For non-negative allocations the "over" status picks out exactly the over-budget list. */
  lemma OverStatusIsOverList(cs: seq<Category>)
    requires forall c | c in cs :: c.allotted >= 0
    ensures forall c | c in cs :: c in OverBudget(cs) <==> BudgetStatus(c.allotted, c.spent) == OverStatus
  {
    FiltersSelect(cs);
    forall c | c in cs ensures c in OverBudget(cs) <==> BudgetStatus(c.allotted, c.spent) == OverStatus {
      assert multiset(cs)[c] > 0;
    }
  }

  /** `Math.min(percentage, 100)`, the width of the bar: the percentage itself
      below 100, 100 from there on (Infinity included); NaN and -Infinity are
      smaller than nothing and pass through, as `Math.min` gives them. */
  function ProgressWidth(allotted: int, spent: int): (w: Number)
    ensures w.Finite? ==> w.value <= 100.0
    ensures w != PosInfinity
    ensures Percentage(allotted, spent).Finite? && Percentage(allotted, spent).value < 100.0 ==>
      w == Percentage(allotted, spent)
    ensures Percentage(allotted, spent).Finite? && Percentage(allotted, spent).value >= 100.0 ==>
      w == Finite(100.0)
    ensures Percentage(allotted, spent) == PosInfinity ==> w == Finite(100.0)
    ensures Percentage(allotted, spent) == NaN ==> w == NaN
    ensures Percentage(allotted, spent) == NegInfinity ==> w == NegInfinity
  {
    match Percentage(allotted, spent)
    case Finite(v) => Finite(if v < 100.0 then v else 100.0)
    case PosInfinity => Finite(100.0)
    case NegInfinity => NegInfinity
    case NaN => NaN
  }

  /** For a positive allocation the bar is full exactly when the allocation is used up. */
  lemma FullBar(allotted: int, spent: int)
    requires allotted > 0
    ensures ProgressWidth(allotted, spent).Finite?
    ensures ProgressWidth(allotted, spent).value == 100.0 <==> spent >= allotted
  {
    PercentAbove(allotted, spent, 100.0);
    var a := allotted as real;
    var f := (spent as real) / a;
    assert f * a == spent as real;
    if f * 100.0 == 100.0 {
      assert f == 1.0;
    }
  }

  // ---------------------------------------------------------------------------
  // Savings estimate

  function PotentialSavings(cs: seq<Category>): (r: int)
    ensures 0 <= r <= SavingsPerCategory * |cs|
    ensures r % SavingsPerCategory == 0
  {
    if cs == [] then 0
    else (if |cs[0].suggestions| > 0 then SavingsPerCategory else 0) + PotentialSavings(cs[1..])
  }

  function WithSuggestions(cs: seq<Category>): nat {
    if cs == [] then 0 else (if |cs[0].suggestions| > 0 then 1 else 0) + WithSuggestions(cs[1..])
  }

  /** The estimate credits exactly the categories that have a suggestion. */
  lemma {:induction false} SavingsCountsSuggestions(cs: seq<Category>)
    ensures PotentialSavings(cs) == SavingsPerCategory * WithSuggestions(cs)
  {
    if cs != [] {
      SavingsCountsSuggestions(cs[1..]);
    }
  }

  // ---------------------------------------------------------------------------
  // The sample tracker

  const Transportation: Category := Category("Transportation", 12000, 14200, ["local buses", "train for return"])

  const MockCategories: seq<Category> := [
    Category("Accommodation", 20000, 17500, ["guesthouse", "hostels in Rishikesh"]),
    Transportation,
    Category("Food & Dining", 8000, 6200, ["street food", "complimentary breakfast"]),
    Category("Activities", 7000, 5800, ["group safari booking", "combo packages"]),
    Category("Miscellaneous", 3000, 1200, ["shopping and emergencies", "local handicrafts"])]

  lemma MockTracker()
    ensures TotalAllocated(MockCategories) == 50000
    ensures TotalSpent(MockCategories) == 44900
    ensures StandingOf(Remaining(DefaultTotalBudget, MockCategories)) == Left(5100)
    ensures OverBudget(MockCategories) == [Transportation]
    ensures Transportation.spent - Transportation.allotted == 2200
    ensures |UnderBudget(MockCategories)| == 4
    ensures PotentialSavings(MockCategories) == 10000
  {
    var cs := MockCategories;
    assert OverBudget(cs[4..]) == [];
    assert OverBudget(cs[3..]) == [];
    assert OverBudget(cs[2..]) == [];
    assert OverBudget(cs[1..]) == [Transportation];
    assert |UnderBudget(cs[4..])| == 1;
    assert |UnderBudget(cs[3..])| == 2;
    assert |UnderBudget(cs[2..])| == 3;
    assert |UnderBudget(cs[1..])| == 3;
    assert TotalAllocated(cs[4..]) == 3000 && TotalSpent(cs[4..]) == 1200 && PotentialSavings(cs[4..]) == 2000;
    assert TotalAllocated(cs[3..]) == 10000 && TotalSpent(cs[3..]) == 7000 && PotentialSavings(cs[3..]) == 4000;
    assert TotalAllocated(cs[2..]) == 18000 && TotalSpent(cs[2..]) == 13200 && PotentialSavings(cs[2..]) == 6000;
    assert TotalAllocated(cs[1..]) == 30000 && TotalSpent(cs[1..]) == 27400 && PotentialSavings(cs[1..]) == 8000;
  }
}
