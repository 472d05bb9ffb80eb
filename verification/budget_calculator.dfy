/** The trip budget estimate of the budget calculator: two rate tables with a
    user-supplied `custom` entry, a food rate chosen by the accommodation
    tier, four category totals, their grand total and the rounded cost per
    person. All amounts are whole rupees. */
module BudgetCalculator {
  import opened Wrappers

  const AccommodationFallback: int := 3500
  const TransportFallback: int := 1200
  const ActivitiesPerDay: int := 1000

  /** `parseInt(input) || fallback`: a failed parse (NaN) and a parsed 0 are
      both falsy and give the fallback; any other parsed value, negative
      ones included, is kept. */
  function CustomRate(parsed: Option<int>, fallback: int): (r: int)
    ensures parsed.Some? && parsed.value != 0 ==> r == parsed.value
    ensures parsed.None? || parsed.value == 0 ==> r == fallback
  {
    if parsed.Some? && parsed.value != 0 then parsed.value else fallback
  }

  /** Rupees per night, keyed by accommodation tier. */
  function AccommodationRates(customBudget: Option<int>): map<string, int> {
    map[
      "hostel" := 800, "budget" := 1500, "guesthouse" := 2200, "mid" := 3500,
      "boutique" := 5500, "luxury" := 8000, "resort" := 12000, "premium" := 15000,
      "custom" := CustomRate(customBudget, AccommodationFallback)
    ]
  }

  /** Rupees per person for the whole trip, keyed by transport mode. */
  function TransportRates(customTransport: Option<int>): map<string, int> {
    map[
      "bus" := 500, "train" := 1200, "cab" := 2000, "flight" := 4000, "rental" := 1800,
      "custom" := CustomRate(customTransport, TransportFallback)
    ]
  }

  /** `table[key] || fallback`: a missing key (undefined) or a zero rate is falsy. */
  function Resolve(table: map<string, int>, key: string, fallback: int): (r: int)
    ensures key in table && table[key] != 0 ==> r == table[key]
    ensures key in table && table[key] == 0 ==> r == fallback
    ensures key !in table ==> r == fallback
  {
    if key in table && table[key] != 0 then table[key] else fallback
  }

  function BaseAccommodation(tier: string, customBudget: Option<int>): (r: int)
    ensures r != 0
  {
    Resolve(AccommodationRates(customBudget), tier, AccommodationFallback)
  }

  function BaseTransport(mode: string, customTransport: Option<int>): (r: int)
    ensures r != 0
  {
    Resolve(TransportRates(customTransport), mode, TransportFallback)
  }

  /** Food per day follows the accommodation tier; every tier other than
      budget, mid and luxury (hostel and custom included) pays 4000. */
  function FoodPerDay(tier: string): (r: int)
    ensures r in {800, 1500, 2500, 4000}
    ensures r == 4000 <==> tier !in {"budget", "mid", "luxury"}
  {
    if tier == "budget" then 800
    else if tier == "mid" then 1500
    else if tier == "luxury" then 2500
    else 4000
  }

  /** The calculator's inputs: the two sliders, the two selects and the two
      custom-rate fields (already run through `parseInt`, None for NaN). */
  datatype Trip = Trip(
    days: int, people: int,
    accommodation: string, transport: string,
    customBudget: Option<int>, customTransport: Option<int>)

  datatype Breakdown = Breakdown(
    accommodation: int, transport: int, food: int, activities: int, grandTotal: int)

  /** The four category totals and their sum. Every category but transport is
      paid per day; transport is paid once per person for the whole trip. */
  function Estimate(t: Trip): (b: Breakdown)
    ensures b.grandTotal ==
      t.people * (BaseTransport(t.transport, t.customTransport) +
        t.days * (BaseAccommodation(t.accommodation, t.customBudget) + FoodPerDay(t.accommodation) + ActivitiesPerDay))
    ensures b.grandTotal - b.transport ==
      t.days * t.people * (BaseAccommodation(t.accommodation, t.customBudget) + FoodPerDay(t.accommodation) + ActivitiesPerDay)
  {
    var stay, fare, meals := BaseAccommodation(t.accommodation, t.customBudget),
      BaseTransport(t.transport, t.customTransport), FoodPerDay(t.accommodation);
    var acc := stay * t.days * t.people;
    var tr := fare * t.people;
    var food := meals * t.days * t.people;
    var act := ActivitiesPerDay * t.days * t.people;
    Regroup(stay, meals, ActivitiesPerDay, t.days, t.people);
    Breakdown(acc, tr, food, act, acc + tr + food + act)
  }

  /** The category totals of the breakdown: stay, food and activities are
      paid per day and per person, transport once per person, and the grand
      total is the sum of the four. */
  lemma CategoriesSum(t: Trip)
    ensures Estimate(t).accommodation == BaseAccommodation(t.accommodation, t.customBudget) * t.days * t.people
    ensures Estimate(t).transport == BaseTransport(t.transport, t.customTransport) * t.people
    ensures Estimate(t).food == FoodPerDay(t.accommodation) * t.days * t.people
    ensures Estimate(t).activities == ActivitiesPerDay * t.days * t.people
    ensures Estimate(t).grandTotal ==
      Estimate(t).accommodation + Estimate(t).transport + Estimate(t).food + Estimate(t).activities
  {
  }

  /** Three per-day rates times days times people, summed, is days times
      people times their sum. */
  lemma Regroup(x: int, y: int, z: int, days: int, people: int)
    ensures x * days * people + y * days * people + z * days * people == days * people * (x + y + z)
    ensures days * people * (x + y + z) == people * (days * (x + y + z))
  {
    var dp := days * people;
    assert x * days * people == x * dp && y * days * people == y * dp && z * days * people == z * dp;
    assert x * dp + y * dp + z * dp == dp * (x + y + z);
  }

  /** `Math.round(grandTotal / people)`: the nearest whole rupee, halves
      rounding up. The people slider never goes below 1. */
  function PerPerson(grandTotal: int, people: int): (r: int)
    requires people >= 1
    ensures 2 * r * people <= 2 * grandTotal + people < 2 * r * people + 2 * people
  {
    (2 * grandTotal + people) / (2 * people)
  }

  /** The slider ranges: 3 to 14 days, 1 to 8 people. */
  predicate InSliderRange(t: Trip) {
    3 <= t.days <= 14 && 1 <= t.people <= 8
  }

  /** A custom field that is left empty or holds a non-negative number. */
  predicate NonNegativeCustom(v: Option<int>) {
    v.None? || v.value >= 0
  }

  lemma RatesAreNonNegative(t: Trip)
    requires NonNegativeCustom(t.customBudget) && NonNegativeCustom(t.customTransport)
    ensures BaseAccommodation(t.accommodation, t.customBudget) > 0
    ensures BaseTransport(t.transport, t.customTransport) > 0
  {
  }

  /** Within the slider ranges and with non-negative custom rates, no total is negative. */
  lemma {:induction false} TotalsNonNegative(t: Trip)
    requires InSliderRange(t)
    requires NonNegativeCustom(t.customBudget) && NonNegativeCustom(t.customTransport)
    ensures var b := Estimate(t);
      b.accommodation >= 0 && b.transport >= 0 && b.food >= 0 && b.activities >= 0 && b.grandTotal >= 0
  {
    RatesAreNonNegative(t);
    var a := BaseAccommodation(t.accommodation, t.customBudget);
    var f := FoodPerDay(t.accommodation);
    var b := Estimate(t);
    MulNonNegative(a, t.days);
    MulNonNegative(a * t.days, t.people);
    assert b.accommodation >= 0;
    MulNonNegative(f, t.days);
    MulNonNegative(f * t.days, t.people);
    assert b.food >= 0;
    MulNonNegative(ActivitiesPerDay, t.days);
    MulNonNegative(ActivitiesPerDay * t.days, t.people);
    assert b.activities >= 0;
    MulNonNegative(BaseTransport(t.transport, t.customTransport), t.people);
  }

  lemma MulNonNegative(x: int, y: int)
    requires x >= 0 && y >= 0
    ensures x * y >= 0
  {
  }

  /** With non-negative rates, one more day or one more person never lowers the grand total. */
  lemma {:induction false} GrandTotalMonotone(t: Trip, days': int, people': int)
    requires NonNegativeCustom(t.customBudget) && NonNegativeCustom(t.customTransport)
    requires 0 <= t.days <= days' && 0 <= t.people <= people'
    ensures Estimate(t).grandTotal <= Estimate(t.(days := days', people := people')).grandTotal
  {
    var t' := t.(days := days', people := people');
    RatesAreNonNegative(t);
    var perDay := BaseAccommodation(t.accommodation, t.customBudget) + FoodPerDay(t.accommodation) + ActivitiesPerDay;
    var tr := BaseTransport(t.transport, t.customTransport);
    var a, a' := tr + t.days * perDay, tr + days' * perDay;
    assert Estimate(t).grandTotal == t.people * a;
    assert Estimate(t').grandTotal == people' * a';
    MulNonNegative(t.days, perDay);
    MulMonotone(t.days, days', perDay);
    assert 0 <= a <= a';
    MulMonotone(t.people, people', a);
    MulMonotone(a, a', people');
  }

  lemma MulMonotone(x: int, x': int, y: int)
    requires 0 <= x <= x' && y >= 0
    ensures x * y <= x' * y && y * x <= y * x'
  {
  }

  /** Transport is paid once per person: the number of days does not change it. */
  lemma TransportIgnoresDays(t: Trip, days': int)
    ensures Estimate(t.(days := days')).transport == Estimate(t).transport
  {
  }

  /** The opening state: 7 days, 2 people, mid-range stay, train, no custom rates. */
  lemma DefaultEstimate()
    ensures var b := Estimate(Trip(7, 2, "mid", "train", None, None));
      b == Breakdown(49000, 2400, 21000, 14000, 86400) && PerPerson(b.grandTotal, 2) == 43200
  {
  }

  /** A custom stay rate of 2000 for 5 days and 3 people costs 30000; an
      empty or zero custom field falls back to 3500 a night. */
  lemma CustomStayRate(tier: string)
    ensures Estimate(Trip(5, 3, "custom", "bus", Some(2000), None)).accommodation == 30000
    ensures BaseAccommodation("custom", None) == 3500 && BaseAccommodation("custom", Some(0)) == 3500
    ensures BaseAccommodation("custom", Some(-200)) == -200
    ensures tier !in AccommodationRates(None) ==> BaseAccommodation(tier, Some(2000)) == 3500
    ensures tier !in TransportRates(None) ==> BaseTransport(tier, Some(700)) == 1200
  {
  }
}
