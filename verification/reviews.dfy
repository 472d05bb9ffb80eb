/** Ratings and reviews of a destination: the rating breakdown, its total and
    average, the five-icon star strip, and the filtered and sorted review list. */
module Reviews {
  import opened Wrappers

  datatype TripType = Solo | Couple | Family | Friends

  datatype Review = Review(
    id: string,
    rating: int,
    date: string,     // ISO `YYYY-MM-DD`
    likes: int,
    tripType: TripType,
    photos: seq<string>,
    helpful: bool)

  // ---------------------------------------------------------------------------
  // Breakdown, total and average

  /** How many reviews gave each number of stars. */
  datatype Breakdown = Breakdown(fives: nat, fours: nat, threes: nat, twos: nat, ones: nat)

  function TotalReviews(b: Breakdown): nat {
    b.fives + b.fours + b.threes + b.twos + b.ones
  }

  /** Sum of rating times count over the breakdown. */
  function WeightedSum(b: Breakdown): nat {
    5 * b.fives + 4 * b.fours + 3 * b.threes + 2 * b.twos + b.ones
  }

  /** The weighted sum over the total; None where JavaScript yields NaN (no reviews). */
  function AverageRating(b: Breakdown): (r: Option<real>)
    ensures r.Some? <==> TotalReviews(b) > 0
    ensures r.Some? ==> 1.0 <= r.value <= 5.0
  {
    var t := TotalReviews(b);
    if t == 0 then None
    else
      QuotientBounds(WeightedSum(b), t);
      Some((WeightedSum(b) as real) / (t as real))
  }

  lemma QuotientBounds(w: nat, t: nat)
    requires 0 < t <= w <= 5 * t
    ensures 1.0 <= (w as real) / (t as real) <= 5.0
  {
    var q := (w as real) / (t as real);
    assert q * (t as real) == w as real;
  }

  /** The average times the total gives back the weighted sum. */
  lemma AverageTimesTotal(b: Breakdown)
    requires TotalReviews(b) > 0
    ensures AverageRating(b).value * (TotalReviews(b) as real) == WeightedSum(b) as real
  {
  }

  const MockBreakdown: Breakdown := Breakdown(68, 22, 7, 2, 1)

  lemma MockStatistics()
    ensures TotalReviews(MockBreakdown) == 100
    ensures AverageRating(MockBreakdown) == Some(4.54)
  {
    assert WeightedSum(MockBreakdown) == 454;
  }

  // ---------------------------------------------------------------------------
  // Star strip

  datatype Star = Full | Half | Empty

  /** Icon `i` (1 to 5) for a rating: full up to the rating, half within half a star of it. */
  function StarKind(i: int, rating: real): Star {
    if (i as real) <= rating then Full
    else if (i as real) - 0.5 <= rating then Half
    else Empty
  }

  /** The loop that pushes one icon for each position 1 to 5. */
  method RenderStars(rating: real) returns (stars: seq<Star>)
    ensures |stars| == 5
    ensures forall k | 0 <= k < 5 :: stars[k] == StarKind(k + 1, rating)
  {
    stars := [];
    var i := 1;
    while i <= 5
      invariant 1 <= i <= 6
      invariant |stars| == i - 1
      invariant forall k | 0 <= k < i - 1 :: stars[k] == StarKind(k + 1, rating)
    {
      var kind;
      if (i as real) <= rating {
        kind := Full;
      } else if (i as real) - 0.5 <= rating {
        kind := Half;
      } else {
        kind := Empty;
      }
      stars := stars + [kind];
      i := i + 1;
    }
  }

  function Rank(s: Star): int {
    match s
    case Full => 2
    case Half => 1
    case Empty => 0
  }

  /** Full icons come first, then at most one half icon, then empty ones. */
  lemma StarsShape(rating: real)
    ensures forall i, j | 1 <= i < j <= 5 :: Rank(StarKind(i, rating)) >= Rank(StarKind(j, rating))
    ensures forall i, j | 1 <= i < j <= 5 :: !(StarKind(i, rating) == Half && StarKind(j, rating) == Half)
  {
  }

  /** A whole-number rating from 0 to 5 shows that many full icons and no half icon. */
  lemma WholeRatingStars(n: int, rating: real)
    requires 0 <= n <= 5 && rating == n as real
    ensures forall i | 1 <= i <= 5 :: StarKind(i, rating) == if i <= n then Full else Empty
  {
  }

  // ---------------------------------------------------------------------------
  // Filtering

  datatype TripFilter = AnyTrip | OnlyTrip(tripType: TripType)

  datatype Mode = AllReviews | Recent | MostHelpful | WithPhotos

  /** `Array.prototype.filter`. */
  function Keep(xs: seq<Review>, p: Review -> bool): (r: seq<Review>)
    ensures |r| <= |xs|
  {
    if xs == [] then [] else if p(xs[0]) then [xs[0]] + Keep(xs[1..], p) else Keep(xs[1..], p)
  }

  /** The filter keeps each passing review as often as the list holds it, and nothing else. */
  lemma {:induction false} KeepSelects(xs: seq<Review>, p: Review -> bool)
    ensures forall x :: multiset(Keep(xs, p))[x] == if p(x) then multiset(xs)[x] else 0
  {
    if xs != [] {
      KeepSelects(xs[1..], p);
      assert xs == [xs[0]] + xs[1..];
    }
  }

  /** The filter keeps list order: filtering a concatenation concatenates the filtered parts. */
  lemma {:induction false} KeepKeepsOrder(a: seq<Review>, b: seq<Review>, p: Review -> bool)
    ensures Keep(a + b, p) == Keep(a, p) + Keep(b, p)
  {
    if a == [] {
      assert a + b == b;
    } else {
      assert (a + b)[0] == a[0] && (a + b)[1..] == a[1..] + b;
      KeepKeepsOrder(a[1..], b, p);
    }
  }

  function OfTrip(t: TripType): Review -> bool {
    (r: Review) => r.tripType == t
  }

  predicate IsHelpful(r: Review) { r.helpful }

  predicate HasPhotos(r: Review) { |r.photos| > 0 }

  function ByTrip(reviews: seq<Review>, trip: TripFilter): seq<Review> {
    match trip
    case AnyTrip => reviews
    case OnlyTrip(t) => Keep(reviews, OfTrip(t))
  }

  /** The reviews a mode shows before sorting. */
  function Selected(reviews: seq<Review>, mode: Mode, trip: TripFilter): seq<Review> {
    var base := ByTrip(reviews, trip);
    match mode
    case AllReviews => base
    case Recent => base
    case MostHelpful => Keep(base, IsHelpful)
    case WithPhotos => Keep(base, HasPhotos)
  }

  /** Every mode shows a sub-multiset of the reviews; a trip filter keeps
      only that trip type, and the helpful and photo modes only reviews that
      pass their test. */
  lemma SelectedSubset(reviews: seq<Review>, mode: Mode, trip: TripFilter)
    ensures multiset(Selected(reviews, mode, trip)) <= multiset(reviews)
    ensures trip.OnlyTrip? ==> forall r | r in Selected(reviews, mode, trip) :: r.tripType == trip.tripType
    ensures mode == MostHelpful ==> forall r | r in Selected(reviews, mode, trip) :: r.helpful
    ensures mode == WithPhotos ==> forall r | r in Selected(reviews, mode, trip) :: |r.photos| > 0
  {
    var base := ByTrip(reviews, trip);
    var sel := Selected(reviews, mode, trip);
    if trip.OnlyTrip? {
      KeepSelects(reviews, OfTrip(trip.tripType));
    }
    assert multiset(base) <= multiset(reviews);
    KeepSelects(base, IsHelpful);
    KeepSelects(base, HasPhotos);
    assert multiset(sel) <= multiset(base);
    forall r | r in sel ensures trip.OnlyTrip? ==> r.tripType == trip.tripType {
      assert multiset(sel)[r] > 0;
      assert multiset(base)[r] > 0;
    }
    forall r | r in sel ensures mode == MostHelpful ==> r.helpful {
      assert multiset(sel)[r] > 0;
    }
    forall r | r in sel ensures mode == WithPhotos ==> |r.photos| > 0 {
      assert multiset(sel)[r] > 0;
    }
  }

  /** With every trip type allowed and no mode test, nothing is dropped. */
  lemma AllShowsEverything(reviews: seq<Review>)
    ensures Selected(reviews, AllReviews, AnyTrip) == reviews
    ensures Selected(reviews, Recent, AnyTrip) == reviews
  {
  }

  // ---------------------------------------------------------------------------
  // Sort order

  /** Lexicographic order on integer sequences. */
  predicate LexLeq(a: seq<int>, b: seq<int>) {
    a == [] || (b != [] && (a[0] < b[0] || (a[0] == b[0] && LexLeq(a[1..], b[1..]))))
  }

  lemma {:induction false} LexTotal(a: seq<int>, b: seq<int>)
    ensures LexLeq(a, b) || LexLeq(b, a)
  {
    if a != [] && b != [] && a[0] == b[0] {
      LexTotal(a[1..], b[1..]);
    }
  }

  lemma {:induction false} LexTransitive(a: seq<int>, b: seq<int>, c: seq<int>)
    requires LexLeq(a, b) && LexLeq(b, c)
    ensures LexLeq(a, c)
  {
    if a != [] && b != [] && c != [] && a[0] == b[0] && b[0] == c[0] {
      LexTransitive(a[1..], b[1..], c[1..]);
    }
  }

  function Codes(s: string): (r: seq<int>)
    ensures |r| == |s|
    ensures forall k | 0 <= k < |s| :: r[k] == s[k] as int
  {
    if s == [] then [] else [s[0] as int] + Codes(s[1..])
  }

  /** What a mode sorts on: the date for recent reviews, the like count otherwise.
      ISO dates of one format compare as strings in time order. */
  function SortKey(mode: Mode, r: Review): seq<int> {
    if mode == Recent then Codes(r.date) else [r.likes]
  }

  /** `x` may stand before `y`: its key is not smaller (newest first, most liked first). */
  predicate NotAfter(mode: Mode, x: Review, y: Review) {
    LexLeq(SortKey(mode, y), SortKey(mode, x))
  }

  predicate SortedFor(mode: Mode, s: seq<Review>) {
    forall p, q | 0 <= p < q < |s| :: NotAfter(mode, s[p], s[q])
  }

  /** On likes the order is the numeric one. */
  lemma LikesOrder(mode: Mode, x: Review, y: Review)
    requires mode != Recent
    ensures NotAfter(mode, x, y) <==> x.likes >= y.likes
  {
    var kx, ky := SortKey(mode, x), SortKey(mode, y);
    assert kx == [x.likes] && ky == [y.likes];
    assert kx[1..] == [] && ky[1..] == [];
    assert LexLeq(ky[1..], kx[1..]);
  }

  /** The first `n` entries are in order. */
  predicate SortedBelow(mode: Mode, s: seq<Review>, n: int)
    requires n <= |s|
  {
    forall p, q | 0 <= p < q < n :: NotAfter(mode, s[p], s[q])
  }

  /** While `s[j]` moves down: the entries up to `i` other than `s[j]` are in
      order, and `s[j]` may stand before every entry it has passed. */
  predicate Inserting(mode: Mode, s: seq<Review>, i: int, j: int)
    requires 0 <= j <= i < |s|
  {
    (forall p, q | 0 <= p < q <= i && p != j && q != j :: NotAfter(mode, s[p], s[q])) &&
    (forall q | j < q <= i :: NotAfter(mode, s[j], s[q]))
  }

  lemma SwapStep(mode: Mode, s: seq<Review>, i: int, j: int)
    requires 0 < j <= i < |s| && Inserting(mode, s, i, j)
    requires !NotAfter(mode, s[j - 1], s[j])
    ensures Inserting(mode, s[j - 1 := s[j]][j := s[j - 1]], i, j - 1)
  {
    LexTotal(SortKey(mode, s[j - 1]), SortKey(mode, s[j]));
  }

  lemma InsertDone(mode: Mode, s: seq<Review>, i: int, j: int)
    requires 0 <= j <= i < |s| && Inserting(mode, s, i, j)
    requires j == 0 || NotAfter(mode, s[j - 1], s[j])
    ensures SortedBelow(mode, s, i + 1)
  {
    forall p, q | 0 <= p < q <= i ensures NotAfter(mode, s[p], s[q]) {
      if q == j && p < j - 1 {
        LexTransitive(SortKey(mode, s[j]), SortKey(mode, s[j - 1]), SortKey(mode, s[p]));
      }
    }
  }

  /** Sorts the array in place, most preferred first; equal keys are never swapped. */
  method InsertionSort(a: array<Review>, mode: Mode)
    modifies a
    ensures multiset(a[..]) == multiset(old(a[..]))
    ensures SortedFor(mode, a[..])
  {
    var i := 0;
    while i < a.Length
      invariant 0 <= i <= a.Length
      invariant multiset(a[..]) == multiset(old(a[..]))
      invariant SortedBelow(mode, a[..], i)
    {
      InsertAt(a, mode, i);
      i := i + 1;
    }
  }

  /** Moves `a[i]` down past the entries it strictly precedes. */
  method InsertAt(a: array<Review>, mode: Mode, i: int)
    requires 0 <= i < a.Length
    requires SortedBelow(mode, a[..], i)
    modifies a
    ensures multiset(a[..]) == multiset(old(a[..]))
    ensures SortedBelow(mode, a[..], i + 1)
  {
    var j := i;
    while j > 0 && !NotAfter(mode, a[j - 1], a[j])
      invariant 0 <= j <= i
      invariant multiset(a[..]) == multiset(old(a[..]))
      invariant Inserting(mode, a[..], i, j)
    {
      SwapStep(mode, a[..], i, j);
      ghost var before := a[..];
      a[j - 1], a[j] := a[j], a[j - 1];
      assert a[..] == before[j - 1 := before[j]][j := before[j - 1]];
      j := j - 1;
    }
    InsertDone(mode, a[..], i, j);
  }

  /** The list for a mode and trip filter, taken from a copy of the reviews:
      the photo mode keeps list order, every other mode sorts. */
  method FilteredReviews(source: array<Review>, mode: Mode, trip: TripFilter) returns (r: seq<Review>)
    ensures mode == WithPhotos ==> r == Selected(source[..], mode, trip)
    ensures multiset(r) == multiset(Selected(source[..], mode, trip))
    ensures mode != WithPhotos ==> SortedFor(mode, r)
  {
    var chosen := Selected(source[..], mode, trip);
    if mode == WithPhotos {
      return chosen;
    }
    var copy := new Review[|chosen|](k requires 0 <= k < |chosen| => chosen[k]);
    assert copy[..] == chosen;
    InsertionSort(copy, mode);
    r := copy[..];
  }

  // ---------------------------------------------------------------------------
  // The sample reviews

  const R1: Review := Review("1", 5, "2024-11-15", 24, Couple, ["sunset.jpg", "houseboat.jpg"], true)
  const R2: Review := Review("2", 4, "2024-11-10", 18, Family, ["spices.jpg"], true)
  const R3: Review := Review("3", 3, "2024-11-05", 7, Friends, [], false)
  const R4: Review := Review("4", 5, "2024-10-28", 31, Solo, ["ayurveda.jpg", "nature.jpg"], true)
  const R5: Review := Review("5", 4, "2024-10-20", 22, Couple, ["birds.jpg"], true)

  const MockReviews: seq<Review> := [R1, R2, R3, R4, R5]

  /** Review 3 alone has no photos. */
  lemma MockWithPhotos()
    ensures Selected(MockReviews, WithPhotos, AnyTrip) == [R1, R2, R4, R5]
  {
    var s := MockReviews;
    assert s[1..] == [R2, R3, R4, R5] && s[2..] == [R3, R4, R5] && s[3..] == [R4, R5] && s[4..] == [R5];
    assert [R5][1..] == [];
    assert Keep([R5], HasPhotos) == [R5];
    assert Keep([R4, R5], HasPhotos) == [R4, R5];
    assert Keep([R3, R4, R5], HasPhotos) == [R4, R5];
    assert Keep([R2, R3, R4, R5], HasPhotos) == [R2, R4, R5];
  }

  /** Review 3 alone is not marked helpful. */
  lemma MockMostHelpful()
    ensures Selected(MockReviews, MostHelpful, AnyTrip) == [R1, R2, R4, R5]
  {
    var s := MockReviews;
    assert s[1..] == [R2, R3, R4, R5] && s[2..] == [R3, R4, R5] && s[3..] == [R4, R5] && s[4..] == [R5];
    assert [R5][1..] == [];
    assert Keep([R5], IsHelpful) == [R5];
    assert Keep([R4, R5], IsHelpful) == [R4, R5];
    assert Keep([R3, R4, R5], IsHelpful) == [R4, R5];
    assert Keep([R2, R3, R4, R5], IsHelpful) == [R2, R4, R5];
  }

  /** Reviews 1 and 5 are the couples' trips. */
  lemma MockCouples()
    ensures Selected(MockReviews, AllReviews, OnlyTrip(Couple)) == [R1, R5]
  {
    var s := MockReviews;
    assert s[1..] == [R2, R3, R4, R5] && s[2..] == [R3, R4, R5] && s[3..] == [R4, R5] && s[4..] == [R5];
    assert [R5][1..] == [];
    assert Keep([R5], OfTrip(Couple)) == [R5];
    assert Keep([R4, R5], OfTrip(Couple)) == [R5];
    assert Keep([R3, R4, R5], OfTrip(Couple)) == [R5];
    assert Keep([R2, R3, R4, R5], OfTrip(Couple)) == [R5];
  }

  /** A list whose neighbours are in order is in order. */
  lemma {:induction false} NeighboursSorted(mode: Mode, s: seq<Review>)
    requires forall k | 0 <= k < |s| - 1 :: NotAfter(mode, s[k], s[k + 1])
    ensures SortedFor(mode, s)
  {
    if |s| > 1 {
      NeighboursSorted(mode, s[1..]);
      forall q | 1 < q < |s| ensures NotAfter(mode, s[0], s[q]) {
        assert NotAfter(mode, s[1..][0], s[1..][q - 1]);
        LexTransitive(SortKey(mode, s[q]), SortKey(mode, s[1]), SortKey(mode, s[0]));
      }
      forall p, q | 0 <= p < q < |s| ensures NotAfter(mode, s[p], s[q]) {
        if p > 0 {
          assert NotAfter(mode, s[1..][p - 1], s[1..][q - 1]);
        }
      }
    }
  }

  /** Most liked first, the sample reads 4, 1, 5, 2, 3. */
  lemma MockOrders()
    ensures SortedFor(AllReviews, [R4, R1, R5, R2, R3])
    ensures !SortedFor(AllReviews, MockReviews)
  {
    var byLikes := [R4, R1, R5, R2, R3];
    forall k | 0 <= k < 4 ensures NotAfter(AllReviews, byLikes[k], byLikes[k + 1]) {
      LikesOrder(AllReviews, byLikes[k], byLikes[k + 1]);
    }
    NeighboursSorted(AllReviews, byLikes);
    LikesOrder(AllReviews, R1, R2);
    LikesOrder(AllReviews, R3, R4);
    assert MockReviews[2] == R3 && MockReviews[3] == R4;
  }

  /** Dates that agree on their first `k` characters and differ at `k` compare by that character. */
  lemma DateBefore(a: string, b: string, k: nat)
    requires k < |a| && k < |b| && a[..k] == b[..k] && a[k] < b[k]
    ensures LexLeq(Codes(a), Codes(b))
  {
    var ca, cb := Codes(a), Codes(b);
    forall m | 0 <= m < k ensures ca[m] == cb[m] {
      assert a[m] == a[..k][m] == b[..k][m] == b[m];
    }
    assert ca[..k] == cb[..k];
    LexPrefixStep(ca, cb, k);
  }

  /** Sequences that agree before position `k` and are smaller at `k` compare as smaller. */
  lemma {:induction false} LexPrefixStep(a: seq<int>, b: seq<int>, k: nat)
    requires k < |a| && k < |b| && a[..k] == b[..k] && a[k] < b[k]
    ensures LexLeq(a, b)
  {
    if k > 0 {
      assert a[0] == a[..k][0] == b[..k][0] == b[0];
      assert a[1..][..k - 1] == a[..k][1..] && b[1..][..k - 1] == b[..k][1..];
      LexPrefixStep(a[1..], b[1..], k - 1);
    }
  }
}
