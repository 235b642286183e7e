/** The proleptic Gregorian calendar behind app/services/admin_analytics_service.py, and its buckets. */
module Calendar {
  // Dates and their ordinals

  predicate Leap(year: nat) {
    year % 4 == 0 && (year % 100 != 0 || year % 400 == 0)
  }

  function DaysIn(year: nat, month: nat): nat {
    if month == 2 then (if Leap(year) then 29 else 28)
    else if month == 4 || month == 6 || month == 9 || month == 11 then 30
    else 31
  }

  datatype Date = Date(year: nat, month: nat, day: nat) {
    predicate Valid() {
      1 <= year && 1 <= month <= 12 && 1 <= day <= DaysIn(year, month)
    }
  }

  predicate IsMonth(year: nat, month: nat) {
    1 <= year && 1 <= month <= 12
  }

  /** Days before the month. */
  function MonthStart(year: nat, month: nat): nat
    requires IsMonth(year, month)
    decreases year, month
  {
    if month > 1 then MonthStart(year, month - 1) + DaysIn(year, month - 1)
    else if year > 1 then MonthStart(year - 1, 12) + DaysIn(year - 1, 12)
    else 0
  }

  /** 1 for the first of January of year 1. */
  function Ord(d: Date): nat
    requires d.Valid()
  {
    MonthStart(d.year, d.month) + d.day
  }

  function YearAfter(year: nat, month: nat): nat {
    if month == 12 then year + 1 else year
  }

  function MonthAfter(month: nat): nat {
    if month == 12 then 1 else month + 1
  }

  lemma NextMonthStarts(year: nat, month: nat)
    requires IsMonth(year, month)
    ensures MonthStart(YearAfter(year, month), MonthAfter(month)) == MonthStart(year, month) + DaysIn(year, month)
  {
  }

  function DateFrom(year: nat, month: nat, n: nat): (d: Date)
    requires IsMonth(year, month) && MonthStart(year, month) < n
    ensures d.Valid() && Ord(d) == n
    decreases n - MonthStart(year, month)
  {
    if n <= MonthStart(year, month) + DaysIn(year, month) then Date(year, month, n - MonthStart(year, month))
    else
      NextMonthStarts(year, month);
      DateFrom(YearAfter(year, month), MonthAfter(month), n)
  }

  function FromOrd(n: nat): (d: Date)
    requires n >= 1
    ensures d.Valid() && Ord(d) == n
  {
    DateFrom(1, 1, n)
  }

  predicate Earlier(year: nat, month: nat, laterYear: nat, laterMonth: nat) {
    year < laterYear || (year == laterYear && month < laterMonth)
  }

  lemma {:induction false} MonthsGrow(year: nat, month: nat, laterYear: nat, laterMonth: nat)
    requires IsMonth(year, month) && IsMonth(laterYear, laterMonth) && Earlier(year, month, laterYear, laterMonth)
    ensures MonthStart(year, month) + DaysIn(year, month) <= MonthStart(laterYear, laterMonth)
    decreases laterYear, laterMonth
  {
    var y, m := if laterMonth > 1 then laterYear else laterYear - 1, if laterMonth > 1 then laterMonth - 1 else 12;
    if Earlier(year, month, y, m) {
      MonthsGrow(year, month, y, m);
    }
  }

  /** Dates with the same ordinal are the same. */
  lemma OrdIsInjective(a: Date, b: Date)
    requires a.Valid() && b.Valid() && Ord(a) == Ord(b)
    ensures a == b
  {
    if Earlier(a.year, a.month, b.year, b.month) {
      MonthsGrow(a.year, a.month, b.year, b.month);
    } else if Earlier(b.year, b.month, a.year, a.month) {
      MonthsGrow(b.year, b.month, a.year, a.month);
    }
  }

  // Moments

  const MICROS_PER_DAY: nat := 86_400_000_000

  datatype Moment = Moment(date: Date, micros: nat) {
    predicate Valid() {
      date.Valid() && micros < MICROS_PER_DAY
    }
  }

  /** Microseconds on one UTC time line. */
  function Stamp(t: Moment): nat
    requires t.Valid()
  {
    Ord(t.date) * MICROS_PER_DAY + t.micros
  }

  function StartOf(d: Date): Moment {
    Moment(d, 0)
  }

  lemma StampOrders(a: Moment, b: Moment)
    requires a.Valid() && b.Valid()
    ensures Stamp(a) <= Stamp(b) ==> Ord(a.date) <= Ord(b.date)
    ensures Ord(a.date) < Ord(b.date) ==> Stamp(a) < Stamp(b)
    ensures a.micros == 0 && Ord(a.date) <= Ord(b.date) ==> Stamp(a) <= Stamp(b)
  {
  }

  /** A moment as a client wrote it: the instant, and how far its clock was ahead of UTC. */
  datatype Zoned = Zoned(at: Moment, offset: int) {
    predicate Valid() {
      at.Valid() && -(MICROS_PER_DAY as int) < offset < MICROS_PER_DAY && Stamp(at) + offset >= MICROS_PER_DAY
    }
  }

  /** The date on the client's clock. */
  function LocalDate(z: Zoned): (d: Date)
    requires z.Valid()
    ensures d.Valid() && Ord(d) * MICROS_PER_DAY <= Stamp(z.at) + z.offset < (Ord(d) + 1) * MICROS_PER_DAY
  {
    FromOrd((Stamp(z.at) + z.offset) / MICROS_PER_DAY)
  }

  lemma LocalIsNear(z: Zoned)
    requires z.Valid()
    ensures Ord(z.at.date) - 1 <= Ord(LocalDate(z)) <= Ord(z.at.date) + 1
    ensures z.offset == 0 ==> LocalDate(z) == z.at.date
  {
    if z.offset == 0 {
      OrdIsInjective(LocalDate(z), z.at.date);
    }
  }

  // Buckets

  datatype Granularity = Day | Week | Month

  /** 0 is Monday; the first of January of year 1 was one. */
  function Weekday(d: Date): nat
    requires d.Valid()
  {
    (Ord(d) + 6) % 7
  }

  function TruncDate(d: Date, g: Granularity): (r: Date)
    requires d.Valid()
    ensures r.Valid()
  {
    match g
    case Day => d
    case Week => FromOrd(Ord(d) - Weekday(d))
    case Month => d.(day := 1)
  }

  function BucketAdvance(d: Date, g: Granularity): (r: Date)
    requires d.Valid() && Aligned(d, g)
    ensures r.Valid()
  {
    match g
    case Day => FromOrd(Ord(d) + 1)
    case Week => FromOrd(Ord(d) + 7)
    case Month => if d.month == 12 then d.(year := d.year + 1, month := 1) else d.(month := d.month + 1)
  }

  /** The first date of its period. */
  predicate Aligned(d: Date, g: Granularity)
    requires d.Valid()
  {
    match g
    case Day => true
    case Week => Weekday(d) == 0
    case Month => d.day == 1
  }

  lemma AdvanceIsNextMonth(d: Date)
    requires d.Valid() && d.day == 1
    ensures Ord(BucketAdvance(d, Month)) == Ord(d) + DaysIn(d.year, d.month) && BucketAdvance(d, Month).day == 1
  {
    NextMonthStarts(d.year, d.month);
  }

  /** Advancing stays on period starts (month buckets never leave day 1), by one period of at most 31 days. */
  lemma AdvanceStaysAligned(d: Date, g: Granularity)
    requires d.Valid() && Aligned(d, g)
    ensures Aligned(BucketAdvance(d, g), g)
    ensures Ord(d) < Ord(BucketAdvance(d, g)) <= Ord(d) + 31
  {
    if g == Month {
      AdvanceIsNextMonth(d);
    }
  }

  lemma MondayBefore(n: nat)
    requires n >= 1
    ensures var monday := n - (n + 6) % 7; 1 <= monday <= n < monday + 7 && (monday + 6) % 7 == 0
  {
    var q, r := (n + 6) / 7, (n + 6) % 7;
    assert n + 6 == 7 * q + r;
    assert n - r + 6 == 7 * q;
  }

  /** A date lies in the period that its truncation starts. */
  lemma TruncStartsThePeriod(d: Date, g: Granularity)
    requires d.Valid()
    ensures Aligned(TruncDate(d, g), g)
    ensures Ord(TruncDate(d, g)) <= Ord(d) < Ord(BucketAdvance(TruncDate(d, g), g))
  {
    if g == Month {
      AdvanceIsNextMonth(TruncDate(d, g));
    } else if g == Week {
      MondayBefore(Ord(d));
    }
  }

  lemma SameMonth(b: Date, d: Date)
    requires b.Valid() && d.Valid() && b.day == 1
    requires Ord(b) <= Ord(d) <= MonthStart(b.year, b.month) + DaysIn(b.year, b.month)
    ensures b.year == d.year && b.month == d.month
  {
    if Earlier(b.year, b.month, d.year, d.month) {
      MonthsGrow(b.year, b.month, d.year, d.month);
    } else if Earlier(d.year, d.month, b.year, b.month) {
      MonthsGrow(d.year, d.month, b.year, b.month);
    }
  }

  lemma SameWeek(a: nat, b: nat, n: nat)
    requires (a + 6) % 7 == 0 && (b + 6) % 7 == 0 && a <= n < a + 7 && b <= n < b + 7
    ensures a == b
  {
  }

  /** And in no other. */
  lemma PeriodsAreDisjoint(b: Date, d: Date, g: Granularity)
    requires b.Valid() && d.Valid() && Aligned(b, g)
    requires Ord(b) <= Ord(d) < Ord(BucketAdvance(b, g))
    ensures TruncDate(d, g) == b
  {
    if g == Month {
      AdvanceIsNextMonth(b);
      SameMonth(b, d);
    } else {
      var a := TruncDate(d, g);
      TruncStartsThePeriod(d, g);
      if g == Week {
        SameWeek(Ord(a), Ord(b), Ord(d));
      }
      OrdIsInjective(a, b);
    }
  }

  lemma TruncOfAligned(b: Date, g: Granularity)
    requires b.Valid() && Aligned(b, g)
    ensures TruncDate(b, g) == b
  {
    AdvanceStaysAligned(b, g);
    PeriodsAreDisjoint(b, b, g);
  }

  lemma TruncKeepsOrder(a: Date, b: Date, g: Granularity)
    requires a.Valid() && b.Valid() && Ord(a) <= Ord(b)
    ensures Ord(TruncDate(a, g)) <= Ord(TruncDate(b, g))
  {
    TruncStartsThePeriod(a, g);
    TruncStartsThePeriod(b, g);
    if Ord(TruncDate(b, g)) < Ord(TruncDate(a, g)) {
      PeriodsAreDisjoint(TruncDate(b, g), a, g);
    }
  }

  // The calendar itself

  lemma TwoMonths(year: nat, month: nat)
    requires IsMonth(year, month) && month <= 11
    ensures MonthStart(YearAfter(year, month + 1), MonthAfter(month + 1)) ==
            MonthStart(year, month) + DaysIn(year, month) + DaysIn(year, month + 1)
  {
    NextMonthStarts(year, month);
    NextMonthStarts(year, month + 1);
  }

  lemma MonthLengths(year: nat)
    ensures forall m | m in {1, 3, 5, 7, 8, 10, 12} :: DaysIn(year, m) == 31
    ensures forall m | m in {4, 6, 9, 11} :: DaysIn(year, m) == 30
    ensures DaysIn(year, 2) == if year % 400 == 0 || (year % 4 == 0 && year % 100 != 0) then 29 else 28
  {
    assert year % 400 == 0 ==> year % 4 == 0;
  }

  /** Every fourth year, but of the centuries only every fourth, has a day more; January to December have the
      lengths they have. */
  lemma YearsAndMonths(year: nat)
    requires year >= 1
    ensures MonthStart(year + 1, 1) - MonthStart(year, 1) ==
            if year % 400 == 0 || (year % 4 == 0 && year % 100 != 0) then 366 else 365
    ensures forall m | m in {1, 3, 5, 7, 8, 10, 12} :: DaysIn(year, m) == 31
    ensures forall m | m in {4, 6, 9, 11} :: DaysIn(year, m) == 30
  {
    MonthLengths(year);
    HalfYear(year, 1);
    HalfYear(year, 7);
  }

  /** Half a year of months. */
  lemma HalfYear(year: nat, month: nat)
    requires year >= 1 && (month == 1 || month == 7)
    ensures MonthStart(YearAfter(year, month + 5), MonthAfter(month + 5)) ==
            MonthStart(year, month) + DaysIn(year, month) + DaysIn(year, month + 1) + DaysIn(year, month + 2) +
            DaysIn(year, month + 3) + DaysIn(year, month + 4) + DaysIn(year, month + 5)
  {
    TwoMonths(year, month);
    TwoMonths(year, month + 2);
    TwoMonths(year, month + 4);
  }

  lemma DayAfter(n: nat)
    ensures (n + 7) % 7 == if (n + 6) % 7 == 6 then 0 else (n + 6) % 7 + 1
  {
  }

  /** A day later it is the next day of the week. */
  lemma WeekdaysFollow(d: Date, e: Date)
    requires d.Valid() && e.Valid() && Ord(e) == Ord(d) + 1
    ensures Weekday(e) == if Weekday(d) == 6 then 0 else Weekday(d) + 1
  {
    DayAfter(Ord(d));
  }

  /** Weeks start on Monday, as the calendar did. */
  lemma FirstDayIsMonday(first: Date)
    requires first.year == 1 && first.month == 1 && first.day == 1
    ensures first.Valid() && Ord(first) == 1 && Weekday(first) == 0
  {
    CalendarBegins(first.year, first.month);
    DayAfter(0);
  }

  lemma CalendarBegins(year: nat, month: nat)
    requires year == 1 && month == 1
    ensures MonthStart(year, month) == 0 && DaysIn(year, month) == 31
  {
  }
}
