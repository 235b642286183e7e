/** app/services/admin_analytics_service.py and the trend query of app/repositories/analytics_repo.py:
    time buckets and the dense trend.  The database truncates in UTC; since is read on its own clock. */
module Analytics {
  import opened Calendar

  const MAX_RANGE_DAYS: nat := 366
  const BUCKET_BRAKE: nat := 5_000

  predicate RangeOk(since: Moment, until: Moment)
    requires since.Valid() && until.Valid()
  {
    Stamp(since) < Stamp(until) <= Stamp(since) + MAX_RANGE_DAYS * MICROS_PER_DAY
  }

  predicate Within(t: Moment, since: Moment, until: Moment) {
    t.Valid() && since.Valid() && until.Valid() && Stamp(since) <= Stamp(t) < Stamp(until)
  }

  // Buckets

  /** Period starts, one period apart. */
  predicate Chain(buckets: seq<Date>, g: Granularity) {
    && (forall k | 0 <= k < |buckets| :: buckets[k].Valid() && Aligned(buckets[k], g))
    && (forall k | 0 <= k < |buckets| - 1 :: buckets[k + 1] == BucketAdvance(buckets[k], g))
  }

  predicate StartsBefore(d: Date, until: Moment)
    requires d.Valid() && until.Valid()
  {
    Stamp(StartOf(d)) < Stamp(until)
  }

  /** The chain of period starts from the one of the date first up to the last before until. */
  predicate Covers(buckets: seq<Date>, first: Date, until: Moment, g: Granularity)
    requires first.Valid() && until.Valid()
  {
    Chain(buckets, g) &&
    if |buckets| == 0 then !StartsBefore(TruncDate(first, g), until)
    else
      && buckets[0] == TruncDate(first, g)
      && (forall k | 0 <= k < |buckets| :: StartsBefore(buckets[k], until))
      && !StartsBefore(BucketAdvance(buckets[|buckets| - 1], g), until)
  }

  lemma FirstBucketIsNear(since: Zoned, g: Granularity)
    requires since.Valid()
    ensures var first := TruncDate(LocalDate(since), g); Aligned(first, g) && Ord(since.at.date) <= Ord(first) + 31
  {
    var local := LocalDate(since);
    LocalIsNear(since);
    TruncStartsThePeriod(local, g);
    AdvanceStaysAligned(TruncDate(local, g), g);
  }

  lemma DaysApart(since: Moment, until: Moment, d: Date)
    requires since.Valid() && until.Valid() && d.Valid() && RangeOk(since, until) && StartsBefore(d, until)
    ensures Ord(d) <= Ord(since.date) + MAX_RANGE_DAYS
  {
  }

  lemma ChainExtends(buckets: seq<Date>, g: Granularity, d: Date)
    requires Chain(buckets, g) && d.Valid() && Aligned(d, g)
    requires |buckets| > 0 ==> d == BucketAdvance(buckets[|buckets| - 1], g)
    ensures Chain(buckets + [d], g)
  {
  }

  lemma NextBucket(buckets: seq<Date>, current: Date, since: Moment, until: Moment, g: Granularity)
    requires since.Valid() && until.Valid() && RangeOk(since, until) && Chain(buckets, g)
    requires current.Valid() && Aligned(current, g) && StartsBefore(current, until)
    requires |buckets| > 0 ==> current == BucketAdvance(buckets[|buckets| - 1], g)
    ensures Chain(buckets + [current], g) && Ord(current) <= Ord(since.date) + MAX_RANGE_DAYS
    ensures Aligned(BucketAdvance(current, g), g) && Ord(BucketAdvance(current, g)) > Ord(current)
  {
    DaysApart(since, until, current);
    AdvanceStaysAligned(current, g);
    ChainExtends(buckets, g, current);
  }

  /** The buckets of a range start at the date on since's own clock; the brake never fires. */
  method BucketRange(since: Zoned, until: Moment, g: Granularity) returns (buckets: seq<Date>)
    requires since.Valid() && until.Valid() && RangeOk(since.at, until)
    ensures Covers(buckets, LocalDate(since), until, g)
    ensures |buckets| <= MAX_RANGE_DAYS + 32
  {
    var first := TruncDate(LocalDate(since), g);
    FirstBucketIsNear(since, g);
    var current := first;
    buckets := [];
    while true
      invariant current.Valid() && Aligned(current, g) && Ord(current) >= Ord(first) + |buckets|
      invariant Chain(buckets, g) && forall k | 0 <= k < |buckets| :: StartsBefore(buckets[k], until)
      invariant if |buckets| == 0 then current == first
                else buckets[0] == first && current == BucketAdvance(buckets[|buckets| - 1], g)
      invariant |buckets| <= MAX_RANGE_DAYS + 32
      decreases Ord(since.at.date) + MAX_RANGE_DAYS + 32 - Ord(current)
    {
      if !StartsBefore(current, until) {
        break;
      }
      NextBucket(buckets, current, since.at, until, g);
      buckets := buckets + [current];
      current := BucketAdvance(current, g);
      if |buckets| > BUCKET_BRAKE {
        break;
      }
    }
  }

  lemma {:induction false} BucketsGrow(buckets: seq<Date>, g: Granularity, j: nat, k: nat)
    requires Chain(buckets, g) && j < k < |buckets|
    ensures Ord(BucketAdvance(buckets[j], g)) <= Ord(buckets[k])
    decreases k
  {
    if j < k - 1 {
      BucketsGrow(buckets, g, j, k - 1);
      AdvanceStaysAligned(buckets[k - 1], g);
    }
  }

  /** Walking back from the end finds the bucket of any date from the first bucket on. */
  lemma {:induction false} FindBucket(buckets: seq<Date>, g: Granularity, d: Date, n: nat) returns (k: nat)
    requires Chain(buckets, g) && d.Valid() && n < |buckets|
    requires Ord(buckets[0]) <= Ord(d) < Ord(BucketAdvance(buckets[n], g))
    ensures k < |buckets| && buckets[k] == TruncDate(d, g)
    decreases n
  {
    if Ord(buckets[n]) <= Ord(d) {
      PeriodsAreDisjoint(buckets[n], d, g);
      k := n;
    } else {
      k := FindBucket(buckets, g, d, n - 1);
    }
  }

  lemma BucketOf(buckets: seq<Date>, first: Date, until: Moment, g: Granularity, t: Moment) returns (k: nat)
    requires first.Valid() && until.Valid() && t.Valid() && Covers(buckets, first, until, g)
    requires Stamp(t) < Stamp(until) && Ord(TruncDate(first, g)) <= Ord(TruncDate(t.date, g))
    ensures k < |buckets| && buckets[k] == TruncDate(t.date, g)
  {
    TruncStartsThePeriod(t.date, g);
    StampOrders(StartOf(TruncDate(first, g)), t);
    StampOrders(StartOf(BucketAdvance(buckets[|buckets| - 1], g)), t);
    k := FindBucket(buckets, g, t.date, |buckets| - 1);
  }

  lemma BucketsFromFirst(buckets: seq<Date>, first: Date, until: Moment, g: Granularity, k: nat)
    requires first.Valid() && until.Valid() && Covers(buckets, first, until, g) && k < |buckets|
    ensures Ord(TruncDate(first, g)) <= Ord(buckets[k])
  {
    if k > 0 {
      BucketsGrow(buckets, g, 0, k);
      AdvanceStaysAligned(buckets[0], g);
    }
  }

  /** A moment before until has its bucket exactly when it does not truncate before the first one. */
  lemma HasBucketIff(buckets: seq<Date>, first: Date, until: Moment, g: Granularity, t: Moment)
    requires first.Valid() && until.Valid() && t.Valid() && Covers(buckets, first, until, g) && Stamp(t) < Stamp(until)
    ensures TruncDate(t.date, g) in buckets <==> Ord(TruncDate(first, g)) <= Ord(TruncDate(t.date, g))
  {
    if Ord(TruncDate(first, g)) <= Ord(TruncDate(t.date, g)) {
      var k := BucketOf(buckets, first, until, g, t);
    }
    if TruncDate(t.date, g) in buckets {
      var k :| 0 <= k < |buckets| && buckets[k] == TruncDate(t.date, g);
      BucketsFromFirst(buckets, first, until, g, k);
    }
  }

  ghost predicate EveryMomentHasItsBucket(buckets: seq<Date>, since: Moment, until: Moment, g: Granularity) {
    forall t: Moment | Within(t, since, until) :: TruncDate(t.date, g) in buckets
  }

  /** The buckets miss nothing of the range exactly when, at this granularity, since's own clock is not a
      period ahead of UTC. */
  lemma NothingMissedIff(buckets: seq<Date>, since: Zoned, until: Moment, g: Granularity)
    requires since.Valid() && until.Valid() && Stamp(since.at) < Stamp(until)
    requires Covers(buckets, LocalDate(since), until, g)
    ensures EveryMomentHasItsBucket(buckets, since.at, until, g) <==>
            Ord(TruncDate(LocalDate(since), g)) <= Ord(TruncDate(since.at.date, g))
  {
    var first := LocalDate(since);
    assert Within(since.at, since.at, until);
    HasBucketIff(buckets, first, until, g, since.at);
    if Ord(TruncDate(first, g)) <= Ord(TruncDate(since.at.date, g)) {
      forall t: Moment | Within(t, since.at, until)
        ensures TruncDate(t.date, g) in buckets
      {
        StampOrders(since.at, t);
        TruncKeepsOrder(since.at.date, t.date, g);
        HasBucketIff(buckets, first, until, g, t);
      }
    }
  }

  ghost predicate SomeMomentHas(b: Date, since: Moment, until: Moment, g: Granularity) {
    exists t: Moment :: Within(t, since, until) && TruncDate(t.date, g) == b
  }

  lemma LaterBucketIsUsed(since: Moment, until: Moment, g: Granularity, b: Date)
    requires since.Valid() && until.Valid() && Stamp(since) < Stamp(until)
    requires b.Valid() && Aligned(b, g) && StartsBefore(b, until) && Ord(TruncDate(since.date, g)) <= Ord(b)
    ensures SomeMomentHas(b, since, until, g)
  {
    TruncOfAligned(b, g);
    if Ord(b) <= Ord(since.date) {
      TruncKeepsOrder(b, since.date, g);
      OrdIsInjective(b, TruncDate(since.date, g));
      assert Within(since, since, until);
    } else {
      StampOrders(since, StartOf(b));
      assert Within(StartOf(b), since, until);
    }
  }

  /** The buckets are exactly the truncations of the range's moments if and only if since's own date and
      its UTC date lie in the same period. */
  lemma BucketsAreTheTruncationsIff(buckets: seq<Date>, since: Zoned, until: Moment, g: Granularity)
    requires since.Valid() && until.Valid() && Stamp(since.at) < Stamp(until)
    requires Covers(buckets, LocalDate(since), until, g)
    ensures (forall b: Date :: b in buckets <==> SomeMomentHas(b, since.at, until, g)) <==>
            TruncDate(LocalDate(since), g) == TruncDate(since.at.date, g)
  {
    var local, utc := TruncDate(LocalDate(since), g), TruncDate(since.at.date, g);
    NothingMissedIff(buckets, since, until, g);
    if local == utc {
      forall b: Date
        ensures b in buckets <==> SomeMomentHas(b, since.at, until, g)
      {
        if b in buckets {
          var k :| 0 <= k < |buckets| && buckets[k] == b;
          BucketsFromFirst(buckets, LocalDate(since), until, g, k);
          LaterBucketIsUsed(since.at, until, g, b);
        }
      }
    } else if forall b: Date :: b in buckets <==> SomeMomentHas(b, since.at, until, g) {
      assert EveryMomentHasItsBucket(buckets, since.at, until, g) by {
        forall t: Moment | Within(t, since.at, until)
          ensures TruncDate(t.date, g) in buckets
        {
          assert SomeMomentHas(TruncDate(t.date, g), since.at, until, g);
        }
      }
      FirstIsUnused(buckets, since, until, g);
    }
  }

  /** A clock a period behind UTC adds a bucket that no moment of the range has. */
  lemma FirstIsUnused(buckets: seq<Date>, since: Zoned, until: Moment, g: Granularity)
    requires since.Valid() && until.Valid() && Stamp(since.at) < Stamp(until)
    requires Covers(buckets, LocalDate(since), until, g)
    requires Ord(TruncDate(LocalDate(since), g)) <= Ord(TruncDate(since.at.date, g))
    requires TruncDate(LocalDate(since), g) != TruncDate(since.at.date, g)
    ensures |buckets| > 0 && !SomeMomentHas(buckets[0], since.at, until, g)
  {
    var local, utc := TruncDate(LocalDate(since), g), TruncDate(since.at.date, g);
    TruncStartsThePeriod(since.at.date, g);
    StampOrders(StartOf(local), since.at);
    if Ord(local) == Ord(utc) {
      OrdIsInjective(local, utc);
    }
    forall t: Moment | Within(t, since.at, until)
      ensures TruncDate(t.date, g) != local
    {
      StampOrders(since.at, t);
      TruncKeepsOrder(since.at.date, t.date, g);
    }
  }

  // Trend

  datatype Point = Point(revenue: int, orders: nat, units: nat)

  const ZERO := Point(0, 0, 0)

  function Plus(a: Point, b: Point): Point {
    Point(a.revenue + b.revenue, a.orders + b.orders, a.units + b.units)
  }

  type Instant = t: Moment | t.Valid() witness Moment(Date(1, 1, 1), 0)

  datatype Sale = Sale(at: Instant, paid: bool, total: int, units: nat)

  /** Only paid orders contribute revenue and units. */
  function PointOf(o: Sale): Point {
    if o.paid then Point(o.total, 1, o.units) else Point(0, 1, 0)
  }

  function Kept(orders: seq<Sale>, keep: Sale -> bool): seq<Sale> {
    if orders == [] then []
    else
      var n := |orders| - 1;
      Kept(orders[..n], keep) + if keep(orders[n]) then [orders[n]] else []
  }

  function InRange(since: Moment, until: Moment): Sale -> bool {
    (o: Sale) => Within(o.at, since, until)
  }

  /** The orders of the range. */
  function Placed(orders: seq<Sale>, since: Moment, until: Moment): seq<Sale> {
    Kept(orders, InRange(since, until))
  }

  lemma {:induction false} KeptIff(orders: seq<Sale>, keep: Sale -> bool, o: Sale)
    ensures multiset(Kept(orders, keep))[o] == if keep(o) then multiset(orders)[o] else 0
  {
    if orders != [] {
      var n := |orders| - 1;
      KeptIff(orders[..n], keep, o);
      assert orders == orders[..n] + [orders[n]];
    }
  }

  lemma PlacedWithin(orders: seq<Sale>, since: Moment, until: Moment)
    ensures forall o <- Placed(orders, since, until) :: Within(o.at, since, until)
  {
    forall o <- Placed(orders, since, until)
      ensures InRange(since, until)(o)
    {
      KeptIff(orders, InRange(since, until), o);
      assert multiset(Placed(orders, since, until))[o] > 0;
    }
  }

  /** The orders of the range are those from since on and before until, each as often as it occurs. */
  lemma PlacedIff(orders: seq<Sale>, since: Moment, until: Moment, o: Sale)
    requires since.Valid() && until.Valid()
    ensures multiset(Placed(orders, since, until))[o] ==
            if Stamp(since) <= Stamp(o.at) && Stamp(o.at) < Stamp(until) then multiset(orders)[o] else 0
  {
    KeptIff(orders, InRange(since, until), o);
  }

  function BucketValue(observed: map<Date, Point>, b: Date): Point {
    if b in observed then observed[b] else ZERO
  }

  /** The query's grouping: date_trunc of the order's UTC date. */
  function Period(g: Granularity): Sale -> Date {
    (o: Sale) => TruncDate(o.at.date, g)
  }

  /** The query's rows: one per period that occurs among the orders placed. */
  function Observed(placed: seq<Sale>, period: Sale -> Date): map<Date, Point> {
    if placed == [] then map[]
    else
      var n := |placed| - 1;
      var m, b := Observed(placed[..n], period), period(placed[n]);
      m[b := Plus(BucketValue(m, b), PointOf(placed[n]))]
  }

  datatype Bucket = Bucket(start: Date, point: Point)

  datatype TrendResult = InvalidRange | RangeTooLarge | Trend(buckets: seq<Bucket>)

  method DenseTrend(orders: seq<Sale>, since: Zoned, until: Moment, g: Granularity) returns (r: TrendResult)
    requires since.Valid() && until.Valid()
    ensures r == InvalidRange <==> Stamp(since.at) >= Stamp(until)
    ensures r == RangeTooLarge <==> Stamp(until) > Stamp(since.at) + 366 * 86_400_000_000
    ensures r.Trend? ==> Covers(Starts(r.buckets), LocalDate(since), until, g)
    ensures r.Trend? ==> forall k | 0 <= k < |r.buckets| ::
              r.buckets[k].point == BucketValue(Observed(Placed(orders, since.at, until), Period(g)),
                                                r.buckets[k].start)
    ensures r.Trend? ==>
              var placed := Placed(orders, since.at, until);
              Plus(Shown(r.buckets), Lost(placed, Drops(LocalDate(since), g))) == Totals(placed)
  {
    if Stamp(since.at) >= Stamp(until) {
      return InvalidRange;
    }
    if Stamp(until) - Stamp(since.at) > MAX_RANGE_DAYS * MICROS_PER_DAY {
      return RangeTooLarge;
    }
    var allBuckets := BucketRange(since, until, g);
    var out := Filled(Observed(Placed(orders, since.at, until), Period(g)), allBuckets);
    assert Starts(out) == allBuckets;
    ShownIsSum(Observed(Placed(orders, since.at, until), Period(g)), out);
    TrendPlusLost(orders, allBuckets, LocalDate(since), since.at, until, g);
    return Trend(out);
  }

  /** Quiet periods show as zeros. */
  method Filled(observed: map<Date, Point>, allBuckets: seq<Date>) returns (out: seq<Bucket>)
    ensures |out| == |allBuckets|
    ensures forall k | 0 <= k < |out| :: out[k] == Bucket(allBuckets[k], BucketValue(observed, allBuckets[k]))
  {
    out := [];
    for k := 0 to |allBuckets|
      invariant |out| == k
      invariant forall j | 0 <= j < k :: out[j] == Bucket(allBuckets[j], BucketValue(observed, allBuckets[j]))
    {
      if allBuckets[k] in observed {
        out := out + [Bucket(allBuckets[k], observed[allBuckets[k]])];
      } else {
        out := out + [Bucket(allBuckets[k], ZERO)];
      }
    }
  }

  function Starts(buckets: seq<Bucket>): seq<Date> {
    seq(|buckets|, k requires 0 <= k < |buckets| => buckets[k].start)
  }

  /** What the points of a trend add up to. */
  function Shown(buckets: seq<Bucket>): Point {
    if buckets == [] then ZERO else Plus(Shown(buckets[..|buckets| - 1]), buckets[|buckets| - 1].point)
  }

  lemma {:induction false} ShownIsSum(observed: map<Date, Point>, buckets: seq<Bucket>)
    requires forall k | 0 <= k < |buckets| :: buckets[k].point == BucketValue(observed, buckets[k].start)
    ensures Shown(buckets) == SumOver(observed, Starts(buckets))
  {
    if buckets != [] {
      ShownIsSum(observed, buckets[..|buckets| - 1]);
      assert Starts(buckets)[..|buckets| - 1] == Starts(buckets[..|buckets| - 1]);
    }
  }

  function Totals(placed: seq<Sale>): Point {
    if placed == [] then ZERO else Plus(Totals(placed[..|placed| - 1]), PointOf(placed[|placed| - 1]))
  }

  /** Every order counts, but only paid ones bring revenue and units. */
  lemma OnlyPaidEarn(placed: seq<Sale>, o: Sale)
    ensures var before, after := Totals(placed), Totals(placed + [o]);
            && after.orders == before.orders + 1
            && after.revenue == before.revenue + (if o.paid then o.total else 0)
            && after.units == before.units + (if o.paid then o.units else 0)
    ensures Totals([]) == Point(0, 0, 0)
  {
    assert (placed + [o])[..|placed|] == placed;
  }

  function Tally(placed: seq<Sale>, period: Sale -> Date, b: Date): Point {
    if placed == [] then ZERO
    else
      var n := |placed| - 1;
      var p := Tally(placed[..n], period, b);
      if period(placed[n]) == b then Plus(p, PointOf(placed[n])) else p
  }

  lemma ValueAfter(observed: map<Date, Point>, c: Date, p: Point, b: Date)
    ensures BucketValue(observed[c := p], b) == if b == c then p else BucketValue(observed, b)
  {
  }

  /** Each bucket shows exactly the orders that truncate to it. */
  lemma {:induction false} BucketShowsItsOrders(placed: seq<Sale>, period: Sale -> Date, b: Date)
    ensures BucketValue(Observed(placed, period), b) == Tally(placed, period, b)
  {
    if placed != [] {
      var n := |placed| - 1;
      BucketShowsItsOrders(placed[..n], period, b);
      var m, c := Observed(placed[..n], period), period(placed[n]);
      ValueAfter(m, c, Plus(BucketValue(m, c), PointOf(placed[n])), b);
    }
  }

  // What the trend shows in all

  function SumOver(observed: map<Date, Point>, buckets: seq<Date>): Point {
    if buckets == [] then ZERO
    else Plus(SumOver(observed, buckets[..|buckets| - 1]), BucketValue(observed, buckets[|buckets| - 1]))
  }

  lemma {:induction false} SumIgnoresOthers(observed: map<Date, Point>, buckets: seq<Date>, b: Date, p: Point)
    requires forall k | 0 <= k < |buckets| :: buckets[k] != b
    ensures SumOver(observed[b := p], buckets) == SumOver(observed, buckets)
  {
    if buckets != [] {
      SumIgnoresOthers(observed, buckets[..|buckets| - 1], b, p);
    }
  }

  ghost predicate AllDistinct(buckets: seq<Date>) {
    forall j, k | 0 <= j < k < |buckets| :: buckets[j] != buckets[k]
  }

  /** Adding to one of distinct buckets adds once to the sum. */
  lemma {:induction false} SumAddsOnce(observed: map<Date, Point>, buckets: seq<Date>, i: nat, p: Point)
    requires i < |buckets| && forall j, k | 0 <= j < k < |buckets| :: buckets[j] != buckets[k]
    ensures SumOver(observed[buckets[i] := Plus(BucketValue(observed, buckets[i]), p)], buckets)
            == Plus(SumOver(observed, buckets), p)
  {
    var n := |buckets| - 1;
    if i < n {
      SumAddsOnce(observed, buckets[..n], i, p);
    } else {
      SumIgnoresOthers(observed, buckets[..n], buckets[i], Plus(BucketValue(observed, buckets[i]), p));
    }
  }

  lemma SumAddsIff(observed: map<Date, Point>, buckets: seq<Date>, b: Date, p: Point)
    requires AllDistinct(buckets)
    ensures SumOver(observed[b := Plus(BucketValue(observed, b), p)], buckets)
            == if b in buckets then Plus(SumOver(observed, buckets), p) else SumOver(observed, buckets)
  {
    if b in buckets {
      var i :| 0 <= i < |buckets| && buckets[i] == b;
      SumAddsOnce(observed, buckets, i, p);
    } else {
      SumIgnoresOthers(observed, buckets, b, Plus(BucketValue(observed, b), p));
    }
  }

  function Lost(placed: seq<Sale>, dropped: Sale -> bool): Point {
    if placed == [] then ZERO
    else
      var n := |placed| - 1;
      var p := Lost(placed[..n], dropped);
      if dropped(placed[n]) then Plus(p, PointOf(placed[n])) else p
  }

  lemma {:induction false} NothingLostIff(placed: seq<Sale>, dropped: Sale -> bool)
    ensures Lost(placed, dropped).orders == 0 <==> forall o <- placed :: !dropped(o)
    ensures Lost(placed, dropped).orders == 0 ==> Lost(placed, dropped) == ZERO
  {
    if placed != [] {
      var n := |placed| - 1;
      NothingLostIff(placed[..n], dropped);
      assert placed == placed[..n] + [placed[n]];
    }
  }

  lemma {:induction false} ShownPlusLost(placed: seq<Sale>, buckets: seq<Date>, dropped: Sale -> bool,
                                         period: Sale -> Date)
    requires AllDistinct(buckets)
    requires forall k | 0 <= k < |placed| :: period(placed[k]) in buckets <==> !dropped(placed[k])
    ensures Plus(SumOver(Observed(placed, period), buckets), Lost(placed, dropped)) == Totals(placed)
  {
    if placed == [] {
      NothingObserved(Observed(placed, period), buckets);
      PlusZero(Totals(placed));
    } else {
      var before := placed[..|placed| - 1];
      assert forall k | 0 <= k < |before| :: before[k] == placed[k];
      ShownPlusLost(before, buckets, dropped, period);
      OneMoreShown(placed, buckets, dropped, period);
    }
  }

  lemma PlusZero(p: Point)
    ensures Plus(p, ZERO) == p
  {
  }

  lemma OneMoreShown(placed: seq<Sale>, buckets: seq<Date>, dropped: Sale -> bool, period: Sale -> Date)
    requires AllDistinct(buckets) && placed != []
    requires var o := placed[|placed| - 1]; period(o) in buckets <==> !dropped(o)
    requires var before := placed[..|placed| - 1];
             Plus(SumOver(Observed(before, period), buckets), Lost(before, dropped)) == Totals(before)
    ensures Plus(SumOver(Observed(placed, period), buckets), Lost(placed, dropped)) == Totals(placed)
  {
    var before, o := placed[..|placed| - 1], placed[|placed| - 1];
    var m, b := Observed(before, period), period(o);
    SumAddsIff(m, buckets, b, PointOf(o));
    PlusOne(SumOver(m, buckets), Lost(before, dropped), Totals(before), PointOf(o));
    assert Observed(placed, period) == m[b := Plus(BucketValue(m, b), PointOf(o))];
    assert Totals(placed) == Plus(Totals(before), PointOf(o));
    if dropped(o) {
      assert Lost(placed, dropped) == Plus(Lost(before, dropped), PointOf(o));
    } else {
      assert Lost(placed, dropped) == Lost(before, dropped);
    }
  }

  lemma PlusOne(shown: Point, lost: Point, all: Point, p: Point)
    requires Plus(shown, lost) == all
    ensures Plus(Plus(shown, p), lost) == Plus(all, p) == Plus(shown, Plus(lost, p))
  {
  }

  lemma SumsAgreeIff(shown: Point, lost: Point, all: Point)
    requires Plus(shown, lost) == all && (lost.orders == 0 ==> lost == ZERO)
    ensures shown == all <==> lost.orders == 0
  {
  }

  lemma {:induction false} NothingObserved(observed: map<Date, Point>, buckets: seq<Date>)
    requires observed == map[]
    ensures SumOver(observed, buckets) == ZERO
  {
    if buckets != [] {
      NothingObserved(observed, buckets[..|buckets| - 1]);
    }
  }

  /** Truncated before the first bucket. */
  predicate Dropped(o: Sale, first: Date, g: Granularity)
    requires first.Valid()
  {
    Ord(TruncDate(o.at.date, g)) < Ord(TruncDate(first, g))
  }

  function Drops(first: Date, g: Granularity): Sale -> bool
    requires first.Valid()
  {
    (o: Sale) => Dropped(o, first, g)
  }

  lemma BucketsAreDistinct(buckets: seq<Date>, g: Granularity, j: nat, k: nat)
    requires Chain(buckets, g) && j < k < |buckets|
    ensures buckets[j] != buckets[k]
  {
    BucketsGrow(buckets, g, j, k);
    AdvanceStaysAligned(buckets[j], g);
  }

  lemma CoversShowOrDrop(placed: seq<Sale>, buckets: seq<Date>, first: Date, since: Moment, until: Moment,
                         g: Granularity)
    requires first.Valid() && until.Valid() && Covers(buckets, first, until, g)
    requires forall o <- placed :: Within(o.at, since, until)
    ensures AllDistinct(buckets)
    ensures forall k | 0 <= k < |placed| ::
              Period(g)(placed[k]) in buckets <==> !Drops(first, g)(placed[k])
  {
    forall j, k | 0 <= j < k < |buckets|
      ensures buckets[j] != buckets[k]
    {
      BucketsAreDistinct(buckets, g, j, k);
    }
    forall k | 0 <= k < |placed|
      ensures TruncDate(placed[k].at.date, g) in buckets <==> !Dropped(placed[k], first, g)
    {
      assert placed[k] in placed;
      HasBucketIff(buckets, first, until, g, placed[k].at);
    }
  }

  /** What the dense trend shows, and what it drops, add up to all the orders of the range. */
  lemma TrendPlusLost(orders: seq<Sale>, buckets: seq<Date>, first: Date, since: Moment, until: Moment, g: Granularity)
    requires first.Valid() && until.Valid() && Covers(buckets, first, until, g)
    ensures var placed := Placed(orders, since, until);
            Plus(SumOver(Observed(placed, Period(g)), buckets), Lost(placed, Drops(first, g))) == Totals(placed)
  {
    var placed := Placed(orders, since, until);
    PlacedWithin(orders, since, until);
    CoversShowOrDrop(placed, buckets, first, since, until, g);
    ShownPlusLost(placed, buckets, Drops(first, g), Period(g));
  }

  ghost predicate Conserves(orders: seq<Sale>, buckets: seq<Date>, since: Moment, until: Moment, g: Granularity) {
    SumOver(Observed(Placed(orders, since, until), Period(g)), buckets) == Totals(Placed(orders, since, until))
  }

  /** The dense trend keeps the totals of the range exactly when no order of it is dropped. */
  lemma DenseTrendConservesIff(orders: seq<Sale>, buckets: seq<Date>, first: Date, since: Moment, until: Moment,
                               g: Granularity)
    requires first.Valid() && until.Valid() && Covers(buckets, first, until, g)
    ensures Conserves(orders, buckets, since, until, g) <==>
            forall o <- Placed(orders, since, until) :: !Drops(first, g)(o)
  {
    TrendPlusLost(orders, buckets, first, since, until, g);
    ShownIsAllIff(Placed(orders, since, until), buckets, Drops(first, g), Period(g));
  }

  lemma ShownIsAllIff(placed: seq<Sale>, buckets: seq<Date>, dropped: Sale -> bool, period: Sale -> Date)
    requires Plus(SumOver(Observed(placed, period), buckets), Lost(placed, dropped)) == Totals(placed)
    ensures SumOver(Observed(placed, period), buckets) == Totals(placed) <==> forall o <- placed :: !dropped(o)
  {
    NothingLostIff(placed, dropped);
    SumsAgreeIff(SumOver(Observed(placed, period), buckets), Lost(placed, dropped), Totals(placed));
  }

  lemma NotAheadDropsNothing(placed: seq<Sale>, since: Zoned, until: Moment, g: Granularity)
    requires since.Valid() && Ord(TruncDate(LocalDate(since), g)) <= Ord(TruncDate(since.at.date, g))
    requires forall o <- placed :: Within(o.at, since.at, until)
    ensures forall o <- placed :: !Dropped(o, LocalDate(since), g)
  {
    forall o <- placed
      ensures !Dropped(o, LocalDate(since), g)
    {
      StampOrders(since.at, o.at);
      TruncKeepsOrder(since.at.date, o.at.date, g);
    }
  }

  /** So it does for all orders exactly when, at this granularity, since's own clock is not a period ahead
      of UTC. */
  lemma AlwaysConservesIff(buckets: seq<Date>, since: Zoned, until: Moment, g: Granularity)
    requires since.Valid() && until.Valid() && Stamp(since.at) < Stamp(until)
    requires Covers(buckets, LocalDate(since), until, g)
    ensures (forall orders: seq<Sale> :: Conserves(orders, buckets, since.at, until, g)) <==>
            Ord(TruncDate(LocalDate(since), g)) <= Ord(TruncDate(since.at.date, g))
  {
    if Ord(TruncDate(LocalDate(since), g)) <= Ord(TruncDate(since.at.date, g)) {
      forall orders: seq<Sale>
        ensures Conserves(orders, buckets, since.at, until, g)
      {
        PlacedWithin(orders, since.at, until);
        NotAheadDropsNothing(Placed(orders, since.at, until), since, until, g);
        DenseTrendConservesIff(orders, buckets, LocalDate(since), since.at, until, g);
      }
    } else {
      var o := Sale(since.at, true, 1, 1);
      PlacedOne(o, since.at, until);
      assert Dropped(o, LocalDate(since), g) && o in Placed([o], since.at, until);
      DenseTrendConservesIff([o], buckets, LocalDate(since), since.at, until, g);
      assert !Conserves([o], buckets, since.at, until, g);
    }
  }

  lemma PlacedOne(o: Sale, since: Moment, until: Moment)
    requires Within(o.at, since, until)
    ensures Placed([o], since, until) == [o]
  {
    assert Kept([o][..0], InRange(since, until)) == [];
  }

  const HOUR: nat := 3_600_000_000

  /** An hour past midnight on a clock five and a half hours ahead of UTC, where the date is still d. */
  function JustPastMidnight(d: Date): Zoned {
    Zoned(Moment(d, 39 * HOUR / 2), 11 * HOUR / 2)
  }

  /** For the day that begins then, whatever the date, an order placed half an hour later is in the query's
      range and in no bucket. */
  lemma ClockAheadDropsOrders(d: Date, until: Moment, buckets: seq<Date>, total: int, units: nat)
    requires d.Valid() && until.Valid() && Ord(d) < Ord(until.date)
    requires Covers(buckets, LocalDate(JustPastMidnight(d)), until, Day)
    ensures var orders := [Sale(Moment(d, 20 * HOUR), true, total, units)];
            var placed := Placed(orders, JustPastMidnight(d).at, until);
            SumOver(Observed(placed, Period(Day)), buckets) == ZERO && Totals(placed) == Point(total, 1, units)
  {
    var since := JustPastMidnight(d);
    var o := Sale(Moment(d, 20 * HOUR), true, total, units);
    AfterMidnight(d, until);
    PlacedOne(o, since.at, until);
    OneDropped(o, buckets, LocalDate(since), since.at, until, Day);
  }

  lemma OneDropped(o: Sale, buckets: seq<Date>, first: Date, since: Moment, until: Moment, g: Granularity)
    requires first.Valid() && until.Valid() && Covers(buckets, first, until, g)
    requires Placed([o], since, until) == [o] && Dropped(o, first, g)
    ensures SumOver(Observed([o], Period(g)), buckets) == ZERO && Totals([o]) == PointOf(o)
  {
    TrendPlusLost([o], buckets, first, since, until, g);
    LostOne(o, first, g);
  }

  lemma AfterMidnight(d: Date, until: Moment)
    requires d.Valid() && until.Valid() && Ord(d) < Ord(until.date)
    ensures Ord(LocalDate(JustPastMidnight(d))) == Ord(d) + 1
    ensures Within(Moment(d, 20 * HOUR), JustPastMidnight(d).at, until)
  {
  }

  lemma LostOne(o: Sale, first: Date, g: Granularity)
    requires first.Valid() && Dropped(o, first, g)
    ensures Lost([o], Drops(first, g)) == Totals([o]) == PointOf(o)
  {
    assert Lost([o][..0], Drops(first, g)) == Totals([o][..0]) == ZERO;
  }
}
