/** The proleptic Gregorian calendar as far as renewal dates need it: day numbers, adding days, adding months. */
module Calendar {
  import opened Wrappers

  /** The years the date library can represent. */
  const MIN_YEAR := -262143
  const MAX_YEAR := 262142

  datatype Date = Date(year: int, month: int, day: int)

  predicate IsLeap(y: int) {
    y % 4 == 0 && (y % 100 != 0 || y % 400 == 0)
  }

  function MonthLength(y: int, m: int): int {
    if m == 2 then if IsLeap(y) then 29 else 28
    else if m == 4 || m == 6 || m == 9 || m == 11 then 30
    else 31
  }

  predicate ValidDate(d: Date) {
    MIN_YEAR <= d.year <= MAX_YEAR && 1 <= d.month <= 12 && 1 <= d.day <= MonthLength(d.year, d.month)
  }

  predicate Before(a: Date, b: Date) {
    || a.year < b.year
    || (a.year == b.year && (a.month < b.month || (a.month == b.month && a.day < b.day)))
  }

  // ---------- day numbers ----------

  function DaysBeforeYear(y: int): int {
    365 * y + (y - 1) / 4 - (y - 1) / 100 + (y - 1) / 400
  }

  function DaysBeforeMonth(y: int, m: int): int
    requires 1 <= m <= 13
    decreases m
  {
    if m == 1 then 0 else DaysBeforeMonth(y, m - 1) + MonthLength(y, m - 1)
  }

  function DayNumber(d: Date): int
    requires 1 <= d.month <= 12
  {
    DaysBeforeYear(d.year) + DaysBeforeMonth(d.year, d.month) + d.day - 1
  }

  function YearLength(y: int): int {
    if IsLeap(y) then 366 else 365
  }

  lemma Every4(y: int)
    ensures y / 4 - (y - 1) / 4 == if y % 4 == 0 then 1 else 0
  {
  }

  lemma Every100(y: int)
    ensures y / 100 - (y - 1) / 100 == if y % 100 == 0 then 1 else 0
  {
  }

  lemma Every400(y: int)
    ensures y / 400 - (y - 1) / 400 == if y % 400 == 0 then 1 else 0
  {
    var q, r := (y - 1) / 400, (y - 1) % 400;
    assert y == 400 * q + r + 1 && 0 <= r < 400;
  }

  lemma CenturiesAreFourths(y: int)
    ensures y % 400 == 0 ==> y % 100 == 0
  {
  }

  lemma LeapYearsAreFourths(y: int)
    ensures y % 100 == 0 ==> y % 4 == 0
  {
  }

  lemma YearStep(y: int)
    ensures DaysBeforeYear(y + 1) == DaysBeforeYear(y) + YearLength(y)
  {
    Every4(y);
    Every100(y);
    Every400(y);
    CenturiesAreFourths(y);
    LeapYearsAreFourths(y);
  }

  lemma {:induction false} LaterYear(a: int, b: int)
    requires a < b
    ensures DaysBeforeYear(a) + YearLength(a) <= DaysBeforeYear(b)
    decreases b - a
  {
    YearStep(b - 1);
    if a < b - 1 {
      LaterYear(a, b - 1);
    }
  }

  lemma WholeYear(y: int)
    ensures DaysBeforeMonth(y, 13) == YearLength(y)
  {
    assert DaysBeforeMonth(y, 4) == DaysBeforeMonth(y, 3) + 31 == DaysBeforeMonth(y, 2) + MonthLength(y, 2) + 31;
    assert DaysBeforeMonth(y, 2) == 31;
    assert DaysBeforeMonth(y, 7) == DaysBeforeMonth(y, 4) + 91;
    assert DaysBeforeMonth(y, 10) == DaysBeforeMonth(y, 7) + 92;
    assert DaysBeforeMonth(y, 13) == DaysBeforeMonth(y, 10) + 92;
  }

  lemma {:induction false} LaterMonth(y: int, a: int, b: int)
    requires 1 <= a < b <= 13
    ensures DaysBeforeMonth(y, a) + MonthLength(y, a) <= DaysBeforeMonth(y, b)
    decreases b
  {
    if a < b - 1 {
      LaterMonth(y, a, b - 1);
    }
  }

  /** Day numbers order dates as the calendar does. */
  lemma DayNumberOrders(a: Date, b: Date)
    requires ValidDate(a) && ValidDate(b)
    ensures Before(a, b) <==> DayNumber(a) < DayNumber(b)
    ensures a == b <==> DayNumber(a) == DayNumber(b)
  {
    EarlierHasSmallerNumber(a, b);
    EarlierHasSmallerNumber(b, a);
  }

  lemma EarlierHasSmallerNumber(a: Date, b: Date)
    requires ValidDate(a) && ValidDate(b)
    ensures Before(a, b) ==> DayNumber(a) < DayNumber(b)
  {
    if a.year < b.year {
      LaterYear(a.year, b.year);
      WholeYear(a.year);
      LaterMonth(a.year, a.month, 13);
      assert DaysBeforeMonth(b.year, b.month) >= 0 by {
        if b.month > 1 {
          LaterMonth(b.year, 1, b.month);
        }
      }
    } else if a.year == b.year && a.month < b.month {
      LaterMonth(a.year, a.month, b.month);
    }
  }

  // ---------- adding days ----------

  function NextDay(d: Date): (next: Option<Date>)
    requires ValidDate(d)
    ensures next.Some? ==> ValidDate(next.value)
  {
    if d.day < MonthLength(d.year, d.month) then Some(Date(d.year, d.month, d.day + 1))
    else if d.month < 12 then Some(Date(d.year, d.month + 1, 1))
    else if d.year < MAX_YEAR then Some(Date(d.year + 1, 1, 1))
    else None
  }

  /** The date `n` days later, unless it is past the last representable one. */
  function AddDays(d: Date, n: nat): (r: Option<Date>)
    requires ValidDate(d)
    ensures r.Some? ==> ValidDate(r.value)
    decreases n
  {
    if n == 0 then Some(d)
    else
      match NextDay(d)
      case None => None
      case Some(next) => AddDays(next, n - 1)
  }

  const LAST_DATE := Date(MAX_YEAR, 12, 31)
  const FIRST_DATE := Date(MIN_YEAR, 1, 1)

  lemma NextDayNumber(d: Date)
    requires ValidDate(d)
    ensures NextDay(d).Some? ==> DayNumber(NextDay(d).value) == DayNumber(d) + 1
    ensures NextDay(d).None? <==> d == LAST_DATE
  {
    hide DaysBeforeYear, IsLeap;
    if d.day == MonthLength(d.year, d.month) && d.month == 12 {
      WholeYear(d.year);
      YearStep(d.year);
    }
  }

  /** Adding days adds to the day number, and fails exactly past the end of the calendar. */
  lemma {:induction false} AddDaysNumber(d: Date, n: nat)
    requires ValidDate(d)
    ensures AddDays(d, n).Some? <==> DayNumber(d) + n <= DayNumber(LAST_DATE)
    ensures AddDays(d, n).Some? ==> DayNumber(AddDays(d, n).value) == DayNumber(d) + n
    decreases n
  {
    DayNumberOrders(d, LAST_DATE);
    NextDayNumber(d);
    if n > 0 && NextDay(d).Some? {
      AddDaysNumber(NextDay(d).value, n - 1);
    }
  }

  /** The date with a day number, if the calendar has one. */
  function DateOf(n: int): (r: Option<Date>)
    ensures r.Some? ==> ValidDate(r.value)
  {
    if n < DayNumber(FIRST_DATE) then None else AddDays(FIRST_DATE, n - DayNumber(FIRST_DATE))
  }

  lemma DateOfInverse(n: int, d: Date)
    ensures DateOf(n).Some? <==> DayNumber(Date(-262143, 1, 1)) <= n <= DayNumber(Date(262142, 12, 31))
    ensures DateOf(n).Some? ==> DayNumber(DateOf(n).value) == n
    ensures ValidDate(d) ==> DateOf(DayNumber(d)) == Some(d)
  {
    hide DayNumber, AddDays, DaysBeforeYear, DaysBeforeMonth;
    DayNumberOrders(FIRST_DATE, LAST_DATE);
    if n >= DayNumber(FIRST_DATE) {
      AddDaysNumber(FIRST_DATE, n - DayNumber(FIRST_DATE));
    }
    if ValidDate(d) {
      DayNumberOrders(FIRST_DATE, d);
      DayNumberOrders(d, LAST_DATE);
      AddDaysNumber(FIRST_DATE, DayNumber(d) - DayNumber(FIRST_DATE));
      DayNumberOrders(DateOf(DayNumber(d)).value, d);
    }
  }

  // ---------- adding months ----------

  /** Months counted from year zero. */
  function MonthIndex(d: Date): int {
    d.year * 12 + d.month - 1
  }

  function MonthLengthAt(index: int): int {
    MonthLength(index / 12, index % 12 + 1)
  }

  /** The same day `months` later, or that month's last day if it is shorter. */
  function AddMonths(d: Date, months: nat): (r: Option<Date>)
    requires ValidDate(d)
    ensures r.Some? ==> ValidDate(r.value)
    ensures r.Some? ==> MonthIndex(r.value) == MonthIndex(d) + months
    ensures r.Some? ==> r.value.day == if d.day <= MonthLengthAt(MonthIndex(d) + months) then d.day
                                       else MonthLengthAt(MonthIndex(d) + months)
    ensures r.None? <==> (MonthIndex(d) + months) / 12 > MAX_YEAR
  {
    var index := MonthIndex(d) + months;
    if index / 12 > MAX_YEAR then None
    else
      var longest := MonthLengthAt(index);
      Some(Date(index / 12, index % 12 + 1, if d.day <= longest then d.day else longest))
  }

  lemma LaterMonthIsLater(a: Date, b: Date)
    requires 1 <= a.month <= 12 && 1 <= b.month <= 12 && MonthIndex(a) < MonthIndex(b)
    ensures Before(a, b)
  {
  }
}
