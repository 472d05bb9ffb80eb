/** The itinerary dialog: the static table of sample itineraries and its
    fallback lookup, the rupee-string parse that feeds the budget tracker, the
    offline download (its file name and the structure of its document), and
    the replan button's state. */
module Itinerary {
  import opened Wrappers
  import opened Text

  datatype Activity = Activity(time: string, name: string, cost: string)

  datatype Day = Day(day: nat, date: string, title: string, activities: seq<Activity>, totalCost: string)

  datatype Breakdown = Breakdown(accommodation: string, food: string, transport: string, activities: string)

  datatype Plan = Plan(
    title: string,
    duration: string,
    budget: string,
    bestTime: string,
    days: seq<Day>,
    breakdown: Breakdown,
    documents: seq<string>)

  // ---------------------------------------------------------------------------
  // The table

  const DefaultKey: string := "Kerala Backwaters"

  const Kerala: Plan := Plan(
    "Kerala Backwaters Experience", "5 Days", "₹18,500", "November to February",
    [Day(1, "Day 1", "Arrival in Kochi", [
        Activity("10:00 AM", "Arrival at Kochi Airport", "₹0"),
        Activity("12:00 PM", "Check-in & Lunch", "₹800"),
        Activity("3:00 PM", "Fort Kochi Exploration", "₹500"),
        Activity("7:00 PM", "Kathakali Performance", "₹300")], "₹1,600"),
     Day(2, "Day 2", "Kochi to Alleppey", [
        Activity("8:00 AM", "Check-out & Travel", "₹1,200"),
        Activity("11:00 AM", "Houseboat Check-in", "₹4,500"),
        Activity("12:30 PM", "Backwater Cruise", "₹0"),
        Activity("6:00 PM", "Sunset Viewing", "₹0")], "₹5,700")],
    Breakdown("₹8,500", "₹4,200", "₹3,500", "₹2,300"),
    ["Valid Government ID (Aadhaar/Passport)", "Travel Insurance", "Hotel Booking Confirmations",
     "Flight/Train Tickets", "Emergency Contact Details"])

  const Rajasthan: Plan := Plan(
    "Royal Rajasthan Palace Tour", "7 Days", "₹42,000", "November to February",
    [Day(1, "Day 1", "Arrival in Jaipur", [
        Activity("9:00 AM", "Arrival in Jaipur", "₹0"),
        Activity("11:00 AM", "Check-in & Rest", "₹0"),
        Activity("3:00 PM", "City Palace Visit", "₹600"),
        Activity("6:00 PM", "Hawa Mahal", "₹200")], "₹800")],
    Breakdown("₹18,000", "₹8,500", "₹9,500", "₹6,000"),
    ["Valid Government ID", "Travel Insurance", "Hotel Confirmations",
     "Transportation Tickets", "Photography Permits for Forts"])

  const Himalaya: Plan := Plan(
    "Himalayan Adventure Trek", "6 Days", "₹28,000", "April to June, September to October",
    [Day(1, "Day 1", "Delhi to Manali", [
        Activity("6:00 PM", "Departure from Delhi", "₹1,500")], "₹1,500")],
    Breakdown("₹8,500", "₹6,000", "₹7,500", "₹6,000"),
    ["Valid Government ID", "Medical Fitness Certificate", "Travel Insurance",
     "Emergency Contact Details", "Trekking Permits (if required)"])

  const Table: map<string, Plan> := map[
    "Kerala Backwaters" := Kerala,
    "Rajasthan Palaces" := Rajasthan,
    "Himalayan Trek" := Himalaya]

  /** The entry for the destination; any other name gets the Kerala entry. */
  function Lookup(destination: string): (p: Plan)
    ensures destination in Table ==> p == Table[destination]
    ensures destination !in Table ==> p == Kerala
    ensures p in Table.Values
  {
    if destination in Table then Table[destination] else Table[DefaultKey]
  }

  /** The destination the budget calculator hands to the dialog. */
  function DialogDestination(choice: string): (key: string)
    ensures key in Table
    ensures choice == "rajasthan" <==> key == "Rajasthan Palaces"
    ensures choice == "himachal" <==> key == "Himalayan Trek"
  {
    if choice == "kerala" then "Kerala Backwaters"
    else if choice == "rajasthan" then "Rajasthan Palaces"
    else if choice == "himachal" then "Himalayan Trek"
    else "Kerala Backwaters"
  }

  // ---------------------------------------------------------------------------
  // Rupee strings

  /** The string with every non-digit removed. */
  function DigitsOnly(s: string): (r: string)
    ensures |r| <= |s|
    ensures forall k | 0 <= k < |r| :: IsDigit(r[k])
  {
    if s == [] then [] else if IsDigit(s[0]) then [s[0]] + DigitsOnly(s[1..]) else DigitsOnly(s[1..])
  }

  function DigitValue(c: char): nat
    requires IsDigit(c)
  {
    c as int - '0' as int
  }

  function DigitChar(d: nat): (c: char)
    requires d < 10
    ensures IsDigit(c) && DigitValue(c) == d
  {
    ('0' as int + d) as char
  }

  /** Reads the digits left to right onto `acc`. */
  function ValueFrom(acc: nat, ds: string): nat
    decreases |ds|
    requires forall k | 0 <= k < |ds| :: IsDigit(ds[k])
  {
    if ds == [] then acc else ValueFrom(10 * acc + DigitValue(ds[0]), ds[1..])
  }

  /** `parseInt(s.replace(/[^\d]/g, ''))`: NaN (None) exactly when the string
      has no digit; otherwise the digits read in decimal. */
  function ParseAmount(s: string): (r: Option<nat>)
    ensures r.None? <==> forall k | 0 <= k < |s| :: !IsDigit(s[k])
  {
    NoDigitsLeft(s);
    var ds := DigitsOnly(s);
    if ds == [] then None else Some(ValueFrom(0, ds))
  }

  lemma {:induction false} NoDigitsLeft(s: string)
    ensures DigitsOnly(s) == [] <==> forall k | 0 <= k < |s| :: !IsDigit(s[k])
  {
    if s != [] {
      NoDigitsLeft(s[1..]);
      if !IsDigit(s[0]) {
        forall k | 1 <= k < |s| ensures s[k] == s[1..][k - 1] {
        }
      }
    }
  }

  /** Removing non-digits keeps the digits in order: it distributes over concatenation. */
  lemma {:induction false} DigitsOnlyAppend(a: string, b: string)
    ensures DigitsOnly(a + b) == DigitsOnly(a) + DigitsOnly(b)
  {
    if a == [] {
      assert a + b == b;
    } else {
      assert (a + b)[0] == a[0] && (a + b)[1..] == a[1..] + b;
      DigitsOnlyAppend(a[1..], b);
    }
  }

  /** A string of digits is left as it is. */
  lemma {:induction false} DigitsOnlyKeepsDigits(s: string)
    requires forall k | 0 <= k < |s| :: IsDigit(s[k])
    ensures DigitsOnly(s) == s
  {
    if s != [] {
      DigitsOnlyKeepsDigits(s[1..]);
    }
  }

  lemma {:induction false} ValueFromAppend(acc: nat, a: string, b: string)
    requires forall k | 0 <= k < |a| :: IsDigit(a[k])
    requires forall k | 0 <= k < |b| :: IsDigit(b[k])
    ensures ValueFrom(acc, a + b) == ValueFrom(ValueFrom(acc, a), b)
    decreases |a|
  {
    if a == [] {
      assert a + b == b;
    } else {
      assert (a + b)[0] == a[0] && (a + b)[1..] == a[1..] + b;
      ValueFromAppend(10 * acc + DigitValue(a[0]), a[1..], b);
    }
  }

  /** Decimal notation of a whole number, without grouping. */
  function Decimal(n: nat): (s: string)
    ensures |s| > 0
    ensures forall k | 0 <= k < |s| :: IsDigit(s[k])
  {
    if n < 10 then [DigitChar(n)] else Decimal(n / 10) + [DigitChar(n % 10)]
  }

  /** Parsing undoes decimal notation. */
  lemma {:induction false} ParseDecimal(n: nat)
    ensures ValueFrom(0, Decimal(n)) == n
  {
    if n >= 10 {
      ParseDecimal(n / 10);
      ValueFromAppend(0, Decimal(n / 10), [DigitChar(n % 10)]);
    }
  }

  /** Characters other than digits, such as the rupee sign and group commas,
      change nothing: the amount is the decimal notation read back. */
  lemma ParseIgnoresDecoration(prefix: string, n: nat)
    requires forall k | 0 <= k < |prefix| :: !IsDigit(prefix[k])
    ensures ParseAmount(prefix + Decimal(n)) == Some(n)
  {
    DigitsOnlyAppend(prefix, Decimal(n));
    NoDigitsLeft(prefix);
    DigitsOnlyKeepsDigits(Decimal(n));
    assert [] + Decimal(n) == Decimal(n);
    ParseDecimal(n);
  }

  /** The total handed to the budget tracker. */
  function TrackerBudget(p: Plan): Option<nat> {
    ParseAmount(p.budget)
  }

  // ---------------------------------------------------------------------------
  // Consistency of the table

  function Amount(s: string): nat {
    ParseAmount(s).GetOr(0)
  }

  function ActivityCosts(acts: seq<Activity>): nat {
    if acts == [] then 0 else Amount(acts[0].cost) + ActivityCosts(acts[1..])
  }

  /** The activity costs of a day add up to its stated total. */
  predicate DayAddsUp(d: Day) {
    ActivityCosts(d.activities) == Amount(d.totalCost)
  }

  /** The four breakdown lines add up to the stated budget. */
  predicate BreakdownAddsUp(p: Plan) {
    Amount(p.breakdown.accommodation) + Amount(p.breakdown.food) +
      Amount(p.breakdown.transport) + Amount(p.breakdown.activities) == Amount(p.budget)
  }

  predicate Consistent(p: Plan) {
    (forall k | 0 <= k < |p.days| :: DayAddsUp(p.days[k])) && BreakdownAddsUp(p)
  }

  predicate AllDigits(ds: string) {
    forall k | 0 <= k < |ds| :: IsDigit(ds[k])
  }

  /** A rupee amount without grouping: the sign, then digits. */
  lemma {:induction false} PlainRupees(ds: string)
    requires ds != [] && AllDigits(ds)
    ensures Amount("₹" + ds) == ValueFrom(0, ds)
  {
    DigitsOnlyAppend("₹", ds);
    DigitsOnlyKeepsDigits(ds);
    assert DigitsOnly("₹") == [];
    assert [] + ds == ds;
  }

  /** A rupee amount with one group comma: the comma is dropped and the digit
      runs are read as one number. */
  lemma {:induction false} GroupedRupees(hs: string, ts: string)
    requires hs != [] && AllDigits(hs) && AllDigits(ts)
    ensures Amount("₹" + hs + "," + ts) == ValueFrom(ValueFrom(0, hs), ts)
  {
    var s := "₹" + hs + "," + ts;
    assert s == "₹" + (hs + ("," + ts));
    DigitsOnlyAppend("₹", hs + ("," + ts));
    DigitsOnlyAppend(hs, "," + ts);
    DigitsOnlyAppend(",", ts);
    assert DigitsOnly("₹") == [] && DigitsOnly(",") == [];
    DigitsOnlyKeepsDigits(hs);
    DigitsOnlyKeepsDigits(ts);
    assert DigitsOnly(s) == hs + ts;
    ValueFromAppend(0, hs, ts);
  }

  lemma Rupees0()
    ensures Amount("₹0") == 0
  {
    PlainRupees("0");
    assert "₹0" == "₹" + "0";
    assert ValueFrom(0, "0") == 0;
  }

  lemma Rupees200()
    ensures Amount("₹200") == 200
  {
    PlainRupees("200");
    assert "₹200" == "₹" + "200";
    assert ValueFrom(0, "200") == 200;
  }

  lemma Rupees300()
    ensures Amount("₹300") == 300
  {
    PlainRupees("300");
    assert "₹300" == "₹" + "300";
    assert ValueFrom(0, "300") == 300;
  }

  lemma Rupees500()
    ensures Amount("₹500") == 500
  {
    PlainRupees("500");
    assert "₹500" == "₹" + "500";
    assert ValueFrom(0, "500") == 500;
  }

  lemma Rupees600()
    ensures Amount("₹600") == 600
  {
    PlainRupees("600");
    assert "₹600" == "₹" + "600";
    assert ValueFrom(0, "600") == 600;
  }

  lemma Rupees800()
    ensures Amount("₹800") == 800
  {
    PlainRupees("800");
    assert "₹800" == "₹" + "800";
    assert ValueFrom(0, "800") == 800;
  }

  lemma Rupees1200()
    ensures Amount("₹1,200") == 1200
  {
    GroupedRupees("1", "200");
    assert "₹1,200" == "₹" + "1" + "," + "200";
    assert ValueFrom(ValueFrom(0, "1"), "200") == 1200;
  }

  lemma Rupees1500()
    ensures Amount("₹1,500") == 1500
  {
    GroupedRupees("1", "500");
    assert "₹1,500" == "₹" + "1" + "," + "500";
    assert ValueFrom(ValueFrom(0, "1"), "500") == 1500;
  }

  lemma Rupees1600()
    ensures Amount("₹1,600") == 1600
  {
    GroupedRupees("1", "600");
    assert "₹1,600" == "₹" + "1" + "," + "600";
    assert ValueFrom(ValueFrom(0, "1"), "600") == 1600;
  }

  lemma Rupees2300()
    ensures Amount("₹2,300") == 2300
  {
    GroupedRupees("2", "300");
    assert "₹2,300" == "₹" + "2" + "," + "300";
    assert ValueFrom(ValueFrom(0, "2"), "300") == 2300;
  }

  lemma Rupees3500()
    ensures Amount("₹3,500") == 3500
  {
    GroupedRupees("3", "500");
    assert "₹3,500" == "₹" + "3" + "," + "500";
    assert ValueFrom(ValueFrom(0, "3"), "500") == 3500;
  }

  lemma Rupees4200()
    ensures Amount("₹4,200") == 4200
  {
    GroupedRupees("4", "200");
    assert "₹4,200" == "₹" + "4" + "," + "200";
    assert ValueFrom(ValueFrom(0, "4"), "200") == 4200;
  }

  lemma Rupees4500()
    ensures Amount("₹4,500") == 4500
  {
    GroupedRupees("4", "500");
    assert "₹4,500" == "₹" + "4" + "," + "500";
    assert ValueFrom(ValueFrom(0, "4"), "500") == 4500;
  }

  lemma Rupees5700()
    ensures Amount("₹5,700") == 5700
  {
    GroupedRupees("5", "700");
    assert "₹5,700" == "₹" + "5" + "," + "700";
    assert ValueFrom(ValueFrom(0, "5"), "700") == 5700;
  }

  lemma Rupees6000()
    ensures Amount("₹6,000") == 6000
  {
    GroupedRupees("6", "000");
    assert "₹6,000" == "₹" + "6" + "," + "000";
    assert ValueFrom(ValueFrom(0, "6"), "000") == 6000;
  }

  lemma Rupees7500()
    ensures Amount("₹7,500") == 7500
  {
    GroupedRupees("7", "500");
    assert "₹7,500" == "₹" + "7" + "," + "500";
    assert ValueFrom(ValueFrom(0, "7"), "500") == 7500;
  }

  lemma Rupees8500()
    ensures Amount("₹8,500") == 8500
  {
    GroupedRupees("8", "500");
    assert "₹8,500" == "₹" + "8" + "," + "500";
    assert ValueFrom(ValueFrom(0, "8"), "500") == 8500;
  }

  lemma Rupees9500()
    ensures Amount("₹9,500") == 9500
  {
    GroupedRupees("9", "500");
    assert "₹9,500" == "₹" + "9" + "," + "500";
    assert ValueFrom(ValueFrom(0, "9"), "500") == 9500;
  }

  lemma Rupees18000()
    ensures Amount("₹18,000") == 18000
  {
    GroupedRupees("18", "000");
    assert "₹18,000" == "₹" + "18" + "," + "000";
    assert ValueFrom(ValueFrom(0, "18"), "000") == 18000;
  }

  lemma Rupees18500()
    ensures Amount("₹18,500") == 18500
  {
    GroupedRupees("18", "500");
    assert "₹18,500" == "₹" + "18" + "," + "500";
    assert ValueFrom(ValueFrom(0, "18"), "500") == 18500;
  }

  lemma Rupees28000()
    ensures Amount("₹28,000") == 28000
  {
    GroupedRupees("28", "000");
    assert "₹28,000" == "₹" + "28" + "," + "000";
    assert ValueFrom(ValueFrom(0, "28"), "000") == 28000;
  }

  lemma Rupees42000()
    ensures Amount("₹42,000") == 42000
  {
    GroupedRupees("42", "000");
    assert "₹42,000" == "₹" + "42" + "," + "000";
    assert ValueFrom(ValueFrom(0, "42"), "000") == 42000;
  }

  lemma KeralaFirstDay()
    ensures DayAddsUp(Kerala.days[0])
  {
    Rupees0();
    Rupees800();
    Rupees500();
    Rupees300();
    Rupees1600();
  }

  lemma KeralaSecondDay()
    ensures DayAddsUp(Kerala.days[1])
  {
    Rupees1200();
    Rupees4500();
    Rupees0();
    Rupees5700();
  }

  lemma KeralaBreakdown()
    ensures BreakdownAddsUp(Kerala)
    ensures TrackerBudget(Kerala) == Some(18500)
  {
    Rupees8500();
    Rupees4200();
    Rupees3500();
    Rupees2300();
    Rupees18500();
  }

  lemma RajasthanFirstDay()
    ensures DayAddsUp(Rajasthan.days[0])
  {
    Rupees0();
    Rupees600();
    Rupees200();
    Rupees800();
  }

  lemma RajasthanBreakdown()
    ensures BreakdownAddsUp(Rajasthan)
    ensures TrackerBudget(Rajasthan) == Some(42000)
  {
    Rupees18000();
    Rupees8500();
    Rupees9500();
    Rupees6000();
    Rupees42000();
  }

  lemma HimalayaFirstDay()
    ensures DayAddsUp(Himalaya.days[0])
  {
    Rupees1500();
  }

  lemma HimalayaBreakdown()
    ensures BreakdownAddsUp(Himalaya)
    ensures TrackerBudget(Himalaya) == Some(28000)
  {
    Rupees8500();
    Rupees6000();
    Rupees7500();
    Rupees28000();
  }

  lemma KeralaConsistent()
    ensures Consistent(Kerala)
  {
    forall k | 0 <= k < |Kerala.days| ensures DayAddsUp(Kerala.days[k]) {
      if k == 0 {
        KeralaFirstDay();
      } else {
        KeralaSecondDay();
      }
    }
    KeralaBreakdown();
  }

  lemma RajasthanConsistent()
    ensures Consistent(Rajasthan)
  {
    RajasthanFirstDay();
    RajasthanBreakdown();
  }

  lemma HimalayaConsistent()
    ensures Consistent(Himalaya)
  {
    HimalayaFirstDay();
    HimalayaBreakdown();
  }

  /** Whatever the destination, the dialog shows an itinerary whose day
      totals and budget breakdown add up. */
  lemma LookupConsistent(destination: string)
    ensures Consistent(Lookup(destination))
  {
    var p := Lookup(destination);
    assert p == Kerala || p == Rajasthan || p == Himalaya;
    if p == Kerala {
      KeralaConsistent();
    } else if p == Rajasthan {
      RajasthanConsistent();
    } else {
      HimalayaConsistent();
    }
  }

  // ---------------------------------------------------------------------------
  // Offline download

  /** Drops the whitespace at the front of `s`. */
  function DropSpaces(s: string): (r: string)
    ensures |r| <= |s|
    ensures r == [] || !IsSpace(r[0])
  {
    if s != [] && IsSpace(s[0]) then DropSpaces(s[1..]) else s
  }

  /** `replace(/\s+/g, '_')`: every maximal whitespace run becomes one underscore. */
  function Underscored(s: string): (r: string)
    ensures |r| <= |s|
    ensures forall k | 0 <= k < |r| :: !IsSpace(r[k])
    decreases |s|
  {
    if s == [] then []
    else if IsSpace(s[0]) then "_" + Underscored(DropSpaces(s))
    else [s[0]] + Underscored(s[1..])
  }

  /** A name without whitespace is left as it is. */
  lemma {:induction false} UnderscoredKeepsWords(s: string)
    requires forall k | 0 <= k < |s| :: !IsSpace(s[k])
    ensures Underscored(s) == s
  {
    if s != [] {
      UnderscoredKeepsWords(s[1..]);
    }
  }

  /** Rewriting twice changes nothing more. */
  lemma UnderscoredIdempotent(s: string)
    ensures Underscored(Underscored(s)) == Underscored(s)
  {
    UnderscoredKeepsWords(Underscored(s));
  }

  /** Two words separated by a whitespace run are joined with a single underscore. */
  lemma {:induction false} UnderscoredJoin(w: string, gap: string, rest: string)
    requires forall k | 0 <= k < |w| :: !IsSpace(w[k])
    requires |gap| > 0 && forall k | 0 <= k < |gap| :: IsSpace(gap[k])
    requires rest == [] || !IsSpace(rest[0])
    ensures Underscored(w + gap + rest) == w + "_" + Underscored(rest)
    decreases |w|
  {
    if w == [] {
      assert w + gap + rest == gap + rest;
      DropGap(gap, rest);
    } else {
      assert (w + gap + rest)[0] == w[0] && (w + gap + rest)[1..] == w[1..] + gap + rest;
      UnderscoredJoin(w[1..], gap, rest);
    }
  }

  lemma {:induction false} DropGap(gap: string, rest: string)
    requires forall k | 0 <= k < |gap| :: IsSpace(gap[k])
    requires rest == [] || !IsSpace(rest[0])
    ensures DropSpaces(gap + rest) == rest
  {
    if gap == [] {
      assert gap + rest == rest;
    } else {
      assert (gap + rest)[1..] == gap[1..] + rest;
      DropGap(gap[1..], rest);
    }
  }

  /** Name of the downloaded file. */
  function OfflineFileName(title: string): (name: string)
    ensures forall k | 0 <= k < |name| :: !IsSpace(name[k])
  {
    Underscored(title) + "_Offline_Itinerary.html"
  }

  /** A non-empty run of characters without whitespace. */
  predicate Word(w: string) {
    w != [] && forall k | 0 <= k < |w| :: !IsSpace(w[k])
  }

  lemma JoinStartsWithWord(ws: seq<string>, sep: string)
    requires ws != [] && Word(ws[0])
    ensures Join(ws, sep) != [] && Join(ws, sep)[0] == ws[0][0]
  {
  }

  /** A title of words separated by single spaces is named after the same words
      separated by underscores. */
  lemma {:induction false} FileNameOfWords(ws: seq<string>)
    requires forall k | 0 <= k < |ws| :: Word(ws[k])
    ensures Underscored(Join(ws, " ")) == Join(ws, "_")
    ensures OfflineFileName(Join(ws, " ")) == Join(ws, "_") + "_Offline_Itinerary.html"
  {
    if |ws| == 1 {
      UnderscoredKeepsWords(ws[0]);
    } else if |ws| > 1 {
      var rest := Join(ws[1..], " ");
      JoinStartsWithWord(ws[1..], " ");
      UnderscoredJoin(ws[0], " ", rest);
      assert Join(ws, " ") == ws[0] + " " + rest;
      FileNameOfWords(ws[1..]);
    }
  }

  /** The pieces of the offline document, in document order. */
  datatype Piece =
    | Heading(title: string, duration: string, budget: string, bestTime: string)
    | BudgetLines(b: Breakdown)
    | OpenDay(dayTitle: string, date: string)
    | ActivityBlock(a: Activity)
    | CloseDay(totalCost: string)
    | EmergencyContacts
    | DocumentLine(doc: string)

  function ActivityPieces(acts: seq<Activity>): (r: seq<Piece>)
    ensures |r| == |acts|
    ensures forall k | 0 <= k < |acts| :: r[k] == ActivityBlock(acts[k])
  {
    if acts == [] then [] else [ActivityBlock(acts[0])] + ActivityPieces(acts[1..])
  }

  function DayPieces(d: Day): seq<Piece> {
    [OpenDay(d.title, d.date)] + ActivityPieces(d.activities) + [CloseDay(d.totalCost)]
  }

  function AllDayPieces(days: seq<Day>): seq<Piece> {
    if days == [] then [] else DayPieces(days[0]) + AllDayPieces(days[1..])
  }

  function DocumentPieces(docs: seq<string>): (r: seq<Piece>)
    ensures |r| == |docs|
    ensures forall k | 0 <= k < |docs| :: r[k] == DocumentLine(docs[k])
  {
    if docs == [] then [] else [DocumentLine(docs[0])] + DocumentPieces(docs[1..])
  }

  /** The generated page: heading, budget lines, one block per day holding one
      block per activity, the emergency numbers and the document checklist. */
  function OfflineDocument(p: Plan): (r: seq<Piece>)
    ensures |r| == |AllDayPieces(p.days)| + 3 + |p.documents|
    ensures r[0] == Heading(p.title, p.duration, p.budget, p.bestTime) && r[1] == BudgetLines(p.breakdown)
    ensures r[2 + |AllDayPieces(p.days)|] == EmergencyContacts
    ensures forall k | 0 <= k < |p.documents| :: r[3 + |AllDayPieces(p.days)| + k] == DocumentLine(p.documents[k])
  {
    [Heading(p.title, p.duration, p.budget, p.bestTime), BudgetLines(p.breakdown)]
      + AllDayPieces(p.days) + [EmergencyContacts] + DocumentPieces(p.documents)
  }

  /** Days recovered from a run of day pieces: an opening piece, activity
      blocks, and a closing piece. */
  function ReadDays(ps: seq<Piece>): (r: Option<seq<Day>>)
    decreases |ps|
  {
    if ps == [] then Some([])
    else if !ps[0].OpenDay? then None
    else
      var n := ActivityRun(ps[1..]);
      if 1 + n < |ps| && ps[1 + n].CloseDay? then
        match ReadDays(ps[2 + n..])
        case None => None
        case Some(rest) =>
          Some([Day(0, ps[0].date, ps[0].dayTitle, Activities(ps[1..1 + n]), ps[1 + n].totalCost)] + rest)
      else None
  }

  /** Length of the run of activity blocks at the front. */
  function ActivityRun(ps: seq<Piece>): (n: nat)
    ensures n <= |ps|
    ensures forall k | 0 <= k < n :: ps[k].ActivityBlock?
    ensures n < |ps| ==> !ps[n].ActivityBlock?
  {
    if ps != [] && ps[0].ActivityBlock? then 1 + ActivityRun(ps[1..]) else 0
  }

  function Activities(ps: seq<Piece>): (r: seq<Activity>)
    requires forall k | 0 <= k < |ps| :: ps[k].ActivityBlock?
    ensures |r| == |ps|
  {
    if ps == [] then [] else [ps[0].a] + Activities(ps[1..])
  }

  /** The day with its number dropped, which the page does not show. */
  function Shown(d: Day): Day {
    d.(day := 0)
  }

  function AllShown(days: seq<Day>): (r: seq<Day>)
    ensures |r| == |days|
    ensures forall k | 0 <= k < |days| :: r[k] == Shown(days[k])
  {
    if days == [] then [] else [Shown(days[0])] + AllShown(days[1..])
  }

  /** Activity blocks followed by any other piece form a run of exactly
      their own length. */
  lemma ActivityRunOfPieces(acts: seq<Activity>, tail: seq<Piece>)
    requires tail != [] && !tail[0].ActivityBlock?
    ensures ActivityRun(ActivityPieces(acts) + tail) == |acts|
  {
    var ps := ActivityPieces(acts) + tail;
    assert ps[|acts|] == tail[0];
    assert forall k | 0 <= k < |acts| :: ps[k].ActivityBlock?;
  }

  /** Reading activity blocks back gives the activities. */
  lemma {:induction false} ActivitiesOfPieces(acts: seq<Activity>)
    ensures Activities(ActivityPieces(acts)) == acts
  {
    if acts != [] {
      assert ActivityPieces(acts)[1..] == ActivityPieces(acts[1..]);
      ActivitiesOfPieces(acts[1..]);
    }
  }

  /** Reading the day blocks back gives the days in order, with their titles,
      dates, activities and totals: one block per day, one per activity. */
  /** Where the parts of one day block sit in the run of pieces. */
  lemma DayBlockSlices(d: Day, rest: seq<Piece>)
    ensures var ps, n := DayPieces(d) + rest, |d.activities|;
      ps[0] == OpenDay(d.title, d.date) &&
      ps[1..] == ActivityPieces(d.activities) + ([CloseDay(d.totalCost)] + rest) &&
      ps[1 + n] == CloseDay(d.totalCost) &&
      ps[1..1 + n] == ActivityPieces(d.activities) &&
      ps[2 + n..] == rest
  {
    var acts := ActivityPieces(d.activities);
    var ps := DayPieces(d) + rest;
    assert ps == [OpenDay(d.title, d.date)] + (acts + ([CloseDay(d.totalCost)] + rest));
  }

  lemma {:induction false} ReadDaysInverse(days: seq<Day>)
    ensures ReadDays(AllDayPieces(days)) == Some(AllShown(days))
  {
    if days != [] {
      var d := days[0];
      var rest := AllDayPieces(days[1..]);
      DayBlockSlices(d, rest);
      ActivityRunOfPieces(d.activities, [CloseDay(d.totalCost)] + rest);
      ActivitiesOfPieces(d.activities);
      ReadDaysInverse(days[1..]);
      assert AllShown(days) == [Shown(d)] + AllShown(days[1..]);
    }
  }

  /** In the generated page the day blocks follow the heading and the budget
      lines, and they read back as the plan's days; the emergency numbers and
      one line per document come after them. */
  lemma DocumentDayBlocks(p: Plan)
    ensures var doc, n := OfflineDocument(p), |AllDayPieces(p.days)|;
      |doc| == n + 3 + |p.documents| &&
      ReadDays(doc[2..2 + n]) == Some(AllShown(p.days)) &&
      doc[2 + n] == EmergencyContacts
  {
    var head, days := [Heading(p.title, p.duration, p.budget, p.bestTime), BudgetLines(p.breakdown)], AllDayPieces(p.days);
    MiddleSlice(head, days, [EmergencyContacts], DocumentPieces(p.documents));
    ReadDaysInverse(p.days);
  }

  lemma MiddleSlice<T>(a: seq<T>, m: seq<T>, b: seq<T>, c: seq<T>)
    ensures (a + m + b + c)[|a|..|a| + |m|] == m
  {
    assert a + m + b + c == a + (m + (b + c));
  }

  // ---------------------------------------------------------------------------
  // Replanning

  /** The dialog's replan state over the itinerary it shows. */
  class ItineraryDialog {
    const data: Plan
    var isReplanning: bool
    var replanReason: string

    constructor (destination: string)
      ensures data == Lookup(destination)
      ensures !isReplanning && replanReason == ""
    {
      data := Lookup(destination);
      isReplanning := false;
      replanReason := "";
    }

    /** The Replan button is disabled while a replan is running. */
    predicate ReplanDisabled()
      reads this
    {
      isReplanning
    }

    /** Starts a replan for the given reason. */
    method HandleReplan(reason: string)
      modifies this
      ensures isReplanning && replanReason == reason
    {
      isReplanning := true;
      replanReason := reason;
    }

    /** The delayed step that ends the replan; the itinerary stays as it was. */
    method FinishReplan()
      modifies this
      ensures !isReplanning && replanReason == old(replanReason)
    {
      isReplanning := false;
    }
  }
}
