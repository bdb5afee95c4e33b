/**
 * Clamped UTC calendar arithmetic.
 *
 * An instant is the number of milliseconds since 1970-01-01T00:00:00Z, and a calendar month is
 * numbered 12 * year + month0 in the proleptic Gregorian calendar, as ECMAScript dates count.
 */
module Calendar {
  import opened Common

  datatype Period = Monthly | Yearly

  // ---------------------------------------------------------------- the Gregorian calendar

  predicate Leap(year: int) {
    year % 4 == 0 && (year % 100 != 0 || year % 400 == 0)
  }

  /** Days from 0000-01-01 to January 1 of the given year. */
  function DaysBeforeYear(year: int): int {
    365 * year + Multiples(year, 4) - Multiples(year, 100) + Multiples(year, 400)
  }

  /** How many multiples of n lie from 0 up to but not including a, counted backwards below 0. */
  function Multiples(a: int, n: int): int
    requires n > 0
  {
    (a + n - 1) / n
  }

  function MonthLength(month: int): (days: int)
    ensures 28 <= days <= 31
  {
    var m := month % 12;
    if m == 1 then (if Leap(month / 12) then 29 else 28)
    else if m == 3 || m == 5 || m == 8 || m == 10 then 30
    else 31
  }

  function DaysBeforeMonthOfYear(m: int, leap: bool): int
    requires 0 <= m < 12
  {
    [0, 31, 59, 90, 120, 151, 181, 212, 243, 273, 304, 334][m] + (if leap && m >= 2 then 1 else 0)
  }

  /** The day number, counted from 1970-01-01, of the first day of a month. */
  function MonthStart(month: int): int {
    DaysBeforeYear(month / 12) + DaysBeforeMonthOfYear(month % 12, Leap(month / 12)) - 719528
  }

  lemma YearStep(year: int)
    ensures DaysBeforeYear(year + 1) == DaysBeforeYear(year) + (if Leap(year) then 366 else 365)
  {
    hide Multiples;
    MultiplesStep(year, 4);
    MultiplesStep(year, 100);
    MultiplesStep(year, 400);
    Centuries(year);
  }

  lemma MultiplesStep(a: int, n: int)
    requires n in {4, 100, 400}
    ensures Multiples(a + 1, n) == Multiples(a, n) + (if a % n == 0 then 1 else 0)
  {
  }

  lemma Centuries(year: int)
    ensures (year % 400 == 0 ==> year % 100 == 0) && (year % 100 == 0 ==> year % 4 == 0)
  {
  }

  /** Consecutive months tile the time line: the closed form is the running sum of the lengths. */
  lemma MonthStep(month: int)
    ensures MonthStart(month + 1) == MonthStart(month) + MonthLength(month)
  {
    YearStep(month / 12);
    if month % 12 == 11 {
      assert (month + 1) / 12 == month / 12 + 1 && (month + 1) % 12 == 0;
    } else {
      assert (month + 1) / 12 == month / 12 && (month + 1) % 12 == month % 12 + 1;
    }
  }

  /** The month that holds a day, found from any starting month. */
  function MonthFrom(month: int, day: int): (k: int)
    ensures MonthStart(k) <= day < MonthStart(k + 1)
    decreases if day < MonthStart(month) then MonthStart(month) - day
              else if day >= MonthStart(month + 1) then day - MonthStart(month + 1) + 1 else 0
  {
    hide MonthStart, MonthLength;
    MonthStep(month - 1);
    MonthStep(month);
    MonthStep(month + 1);
    if day < MonthStart(month) then MonthFrom(month - 1, day)
    else if day >= MonthStart(month + 1) then MonthFrom(month + 1, day)
    else month
  }

  lemma {:induction false} MonthsAscend(a: int, b: int)
    requires a <= b
    ensures MonthStart(a) + 28 * (b - a) <= MonthStart(b)
    decreases b - a
  {
    hide MonthStart, MonthLength;
    if a < b {
      MonthStep(a);
      MonthsAscend(a + 1, b);
    }
  }

  lemma MonthIsUnique(k: int, k': int, day: int)
    requires MonthStart(k) <= day < MonthStart(k + 1)
    requires MonthStart(k') <= day < MonthStart(k' + 1)
    ensures k == k'
  {
    hide MonthStart, MonthLength;
    if k < k' {
      MonthsAscend(k + 1, k');
    } else if k' < k {
      MonthsAscend(k' + 1, k);
    }
  }

  // ---------------------------------------------------------------- fields of an instant

  function DayOf(t: int): int { t / DAY }

  function TimeOf(t: int): int { t % DAY }

  /** The month that ECMAScript's getUTCFullYear and getUTCMonth report together. */
  function MonthOf(t: int): (k: int)
    ensures MonthStart(k) <= DayOf(t) < MonthStart(k + 1)
  {
    MonthFrom(23640, DayOf(t))
  }

  function DateOf(t: int): (d: int)
    ensures 1 <= d <= MonthLength(MonthOf(t))
  {
    MonthStep(MonthOf(t));
    DayOf(t) - MonthStart(MonthOf(t)) + 1
  }

  /** The instant with the given month, day of the month and time of day. */
  function Instant(month: int, date: int, time: int): int {
    (MonthStart(month) + date - 1) * DAY + time
  }

  lemma FieldsOfInstant(month: int, date: int, time: int)
    requires 1 <= date <= MonthLength(month) && 0 <= time < DAY
    ensures MonthOf(Instant(month, date, time)) == month
    ensures DateOf(Instant(month, date, time)) == date
    ensures TimeOf(Instant(month, date, time)) == time
    ensures DayOf(Instant(month, date, time)) == MonthStart(month) + date - 1
  {
    hide MonthStart, MonthLength;
    var t := Instant(month, date, time);
    DivMod(MonthStart(month) + date - 1, time);
    MonthStep(month);
    MonthIsUnique(MonthOf(t), month, DayOf(t));
  }

  lemma DivMod(q: int, r: int)
    requires 0 <= r < DAY
    ensures (q * DAY + r) / DAY == q && (q * DAY + r) % DAY == r
  {
  }

  lemma InstantOfFields(t: int)
    ensures Instant(MonthOf(t), DateOf(t), TimeOf(t)) == t
    ensures 0 <= TimeOf(t) < DAY
  {
  }

  // ---------------------------------------------------------------- the clamped add

  /** Date.UTC reads a year from 0 to 99 as 1900 plus that year. */
  function DateUtcMonth(month: int): int {
    if 0 <= month / 12 <= 99 then month + 22800 else month
  }

  function Min(a: int, b: int): int { if a <= b then a else b }

  /** The clamped add, said directly: the same day of the month, or the last one there is. */
  function AddMonths(t: int, months: int): (r: int)
    ensures MonthOf(r) == MonthOf(t) + months
    ensures TimeOf(r) == TimeOf(t)
    ensures DateOf(r) == Min(DateOf(t), MonthLength(DateUtcMonth(MonthOf(t) + months)))
  {
    hide MonthStart, MonthLength, MonthOf;
    var month := MonthOf(t) + months;
    var date := Min(DateOf(t), MonthLength(DateUtcMonth(month)));
    DateUtcLength(month);
    FieldsOfInstant(month, date, TimeOf(t));
    Instant(month, date, TimeOf(t))
  }

  /** Reading a small year as 1900 plus it changes the length of February of year 0 only. */
  lemma DateUtcLength(month: int)
    ensures MonthLength(DateUtcMonth(month)) == (if month == 1 then 28 else MonthLength(month))
    ensures MonthLength(1) == 29
  {
    var year := month / 12;
    if 0 <= year <= 99 {
      assert (month + 22800) / 12 == year + 1900 && (month + 22800) % 12 == month % 12;
      assert year != 0 ==> Leap(year + 1900) == Leap(year) by {
        assert year != 0 ==> (year + 1900) % 100 != 0 && year % 100 != 0;
      }
      assert Leap(0) && !Leap(1900);
    }
  }

  function SetUtcDate(t: int, date: int): int {
    Instant(MonthOf(t), date, TimeOf(t))
  }

  function SetUtcMonth(t: int, monthIndex: int): int {
    Instant(MonthOf(t) / 12 * 12 + monthIndex, DateOf(t), TimeOf(t))
  }

  /** The Date mutations in their order: to the first, to the month, then to the clamped day. */
  method AddCalendarMonthsClamped(t: int, months: int) returns (result: int)
    ensures result == AddMonths(t, months)
  {
    hide MonthStart, MonthLength, MonthOf;
    result := t;
    var day := DateOf(result);
    InstantOfFields(t);
    result := SetUtcDate(result, 1);
    FieldsOfInstant(MonthOf(t), 1, TimeOf(t));
    result := SetUtcMonth(result, MonthOf(result) % 12 + months);
    FieldsOfInstant(MonthOf(t) + months, 1, TimeOf(t));
    var lastDay := MonthLength(DateUtcMonth(MonthOf(result)));
    DateUtcLength(MonthOf(result));
    result := SetUtcDate(result, Min(day, lastDay));
  }

  /** The WinCRM period end: as above, but the last day comes from setUTCMonth(month + 1, 0). */
  method WincrmPeriodEnd(start: int, cycle: Period) returns (end: int)
    ensures end == AddMonths(start, MonthsOf(cycle)) <==>
            !(MonthOf(start) + MonthsOf(cycle) == 1 && DateOf(start) >= 29)
    ensures MonthOf(end) == MonthOf(start) + MonthsOf(cycle)
    ensures DateOf(end) == Min(DateOf(start), MonthLength(MonthOf(end))) && TimeOf(end) == TimeOf(start)
    ensures end > start
  {
    hide MonthStart, MonthLength, MonthOf;
    end := start;
    var day := DateOf(end);
    InstantOfFields(start);
    end := SetUtcDate(end, 1);
    FieldsOfInstant(MonthOf(start), 1, TimeOf(start));
    end := SetUtcMonth(end, MonthOf(end) % 12 + MonthsOf(cycle));
    var month := MonthOf(start) + MonthsOf(cycle);
    FieldsOfInstant(month, 1, TimeOf(start));
    var last := end;
    last := Instant(MonthOf(last) + 1, 0, TimeOf(last));
    LastOfMonth(month, TimeOf(start));
    end := SetUtcDate(end, Min(day, DateOf(last)));
    FieldsOfInstant(month, Min(day, MonthLength(month)), TimeOf(start));
    DateUtcLength(month);
    InstantOfFields(AddMonths(start, MonthsOf(cycle)));
    MonthsAscend(MonthOf(start) + 1, month);
    MonthStep(MonthOf(start));
  }

  lemma LastOfMonth(month: int, time: int)
    requires 0 <= time < DAY
    ensures Instant(month + 1, 0, time) == Instant(month, MonthLength(month), time)
    ensures DateOf(Instant(month + 1, 0, time)) == MonthLength(month)
  {
    hide MonthStart, MonthLength, MonthOf;
    MonthStep(month);
    FieldsOfInstant(month, MonthLength(month), time);
  }

  function MonthsOf(period: Period): int {
    if period == Yearly then 12 else 1
  }

  function MinimumDays(period: Period): int {
    if period == Yearly then 365 else 28
  }

  /** The billing period end of the payment and subscription services. */
  function AddPeriod(t: int, period: Period): (end: int)
    ensures end >= t + MinimumDays(period) * DAY
  {
    MovesForward(t, period);
    AddMonths(t, MonthsOf(period))
  }

  lemma MovesForward(t: int, period: Period)
    ensures AddMonths(t, MonthsOf(period)) >= t + MinimumDays(period) * DAY
    ensures period == Monthly ==> AddMonths(t, 1) <= t + 31 * DAY
  {
    hide MonthStart, MonthLength, MonthOf;
    var k, n := MonthOf(t), MonthsOf(period);
    InstantOfFields(t);
    InstantOfFields(AddMonths(t, n));
    DateUtcLength(k + n);
    MonthStep(k);
    if period == Yearly {
      YearOfMonths(k);
    }
  }

  /** Twelve months are a whole year: 366 days exactly when a leap day lies between. */
  lemma YearOfMonths(k: int)
    ensures MonthStart(k + 12) - MonthStart(k) >= 365
    ensures MonthLength(k) > MonthLength(k + 12) ==>
              MonthStart(k + 12) - MonthStart(k) == 366 && MonthLength(k) == MonthLength(k + 12) + 1
    ensures k + 12 == 1 ==> MonthLength(k) == 28
  {
    hide DaysBeforeYear, Leap;
    YearStep(k / 12);
    assert (k + 12) / 12 == k / 12 + 1 && (k + 12) % 12 == k % 12;
    LeapYearsApart(k / 12);
  }

  lemma LeapYearsApart(year: int)
    ensures !(Leap(year) && Leap(year + 1)) && !Leap(-1)
  {
  }

  /** At day granularity the add is monotone. */
  lemma DaysAreMonotone(a: int, b: int, months: int)
    requires DayOf(a) <= DayOf(b)
    ensures DayOf(AddMonths(a, months)) <= DayOf(AddMonths(b, months))
  {
    hide MonthStart, MonthLength, MonthOf;
    var ka, kb := MonthOf(a), MonthOf(b);
    DateUtcLength(ka + months);
    DateUtcLength(kb + months);
    if kb < ka {
      MonthsAscend(kb + 1, ka);
    } else if ka < kb {
      MonthStep(ka + months);
      MonthsAscend(ka + months + 1, kb + months);
    }
  }

  /**
   * At millisecond granularity it is not: two instants are reordered exactly when both are cut
   * back to the same last day of the month while their times of day run the other way.
   */
  lemma ReorderedExactlyWhenClampedTogether(a: int, b: int, months: int)
    requires a <= b
    ensures AddMonths(a, months) > AddMonths(b, months) <==>
            MonthOf(a) == MonthOf(b) && TimeOf(a) > TimeOf(b) &&
            MonthLength(DateUtcMonth(MonthOf(a) + months)) <= DateOf(a)
  {
    hide MonthStart, MonthLength, MonthOf;
    var ra, rb := AddMonths(a, months), AddMonths(b, months);
    assert DayOf(a) <= DayOf(b);
    DaysAreMonotone(a, b, months);
    InstantOfFields(a);
    InstantOfFields(b);
    if DayOf(ra) == DayOf(rb) {
      MonthIsUnique(MonthOf(ra), MonthOf(rb), DayOf(ra));
    }
  }

  lemma JanuaryNightsAreReordered()
    ensures var (a, b) := (Instant(24240, 30, 82800000), Instant(24240, 31, 3600000));
            a < b && AddMonths(a, 1) > AddMonths(b, 1)
  {
    hide MonthStart, MonthOf;
    FieldsOfInstant(24240, 30, 82800000);
    FieldsOfInstant(24240, 31, 3600000);
    ReorderedExactlyWhenClampedTogether(Instant(24240, 30, 82800000), Instant(24240, 31, 3600000), 1);
  }

  // ---------------------------------------------------------------- repeated adds

  /** n adds of one month each, as the reset loop makes them. */
  function Repeated(t: int, n: nat): int {
    if n == 0 then t else AddMonths(Repeated(t, n - 1), 1)
  }

  /** Clamping is never undone: n single months end no later than one add of n months. */
  lemma {:induction false} SingleMonthsNeverExceedOneAdd(t: int, n: nat)
    ensures n > 0 ==> Repeated(t, n) <= AddMonths(t, n)
    ensures MonthOf(Repeated(t, n)) == MonthOf(t) + n && TimeOf(Repeated(t, n)) == TimeOf(t)
    ensures DateOf(Repeated(t, n)) <= DateOf(t)
  {
    hide MonthStart, MonthLength, MonthOf;
    InstantOfFields(Repeated(t, n));
    InstantOfFields(AddMonths(t, n));
    if n > 0 {
      SingleMonthsNeverExceedOneAdd(t, n - 1);
    }
  }

  /**
   * The quota reset loop: it stops at the first of the monthly instants that lies strictly after
   * `now`, less than 31 days and a millisecond away.
   */
  method NextReset(current: int, now: int) returns (next: int, ghost steps: nat)
    requires current < now
    ensures steps > 0 && next == Repeated(current, steps)
    ensures now < next <= now + 31 * DAY
    ensures forall i: nat :: i < steps ==> Repeated(current, i) <= now
  {
    hide AddMonths, MonthOf, DateOf, DayOf, TimeOf, MonthLength, MonthStart, DateUtcMonth, Min;
    next := current;
    steps := 0;
    MovesForward(next, Monthly);
    next := AddCalendarMonthsClamped(next, 1);
    steps := 1;
    while next <= now
      invariant steps > 0 && next == Repeated(current, steps)
      invariant Repeated(current, steps - 1) <= now && next <= Repeated(current, steps - 1) + 31 * DAY
      invariant forall i: nat :: i < steps ==> Repeated(current, i) <= now
      decreases now - next
    {
      MovesForward(next, Monthly);
      next := AddCalendarMonthsClamped(next, 1);
      steps := steps + 1;
    }
  }
}
