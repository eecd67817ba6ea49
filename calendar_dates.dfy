/**
 * Local calendar days in the proleptic Gregorian calendar, enough of date-fns'
 * `startOfWeek` (Monday first, as the Ukrainian locale sets it),
 * `Date.prototype.setDate` with day overflow, and `new Date(y, m, 1)` for the
 * calendar's range arithmetic. Days are numbered consecutively so that day
 * number 0 is Monday 1 January of year 1.
 */
module CalendarDates {

  datatype Date = Date(year: int, month: int, day: int)

  predicate IsLeapYear(y: int)
  {
    y % 4 == 0 && (y % 100 != 0 || y % 400 == 0)
  }

  function DaysInMonth(y: int, m: int): (n: int)
    requires 1 <= m <= 12
    ensures 28 <= n <= 31
  {
    if m == 2 then (if IsLeapYear(y) then 29 else 28)
    else if m == 4 || m == 6 || m == 9 || m == 11 then 30
    else 31
  }

  predicate Valid(d: Date)
  {
    1 <= d.month <= 12 && 1 <= d.day <= DaysInMonth(d.year, d.month)
  }

  /** Days from 1 January of year 1 to 1 January of year `y`. */
  function DaysBeforeYear(y: int): int
  {
    var p := y - 1;
    365 * p + p / 4 - p / 100 + p / 400
  }

  /** Days from 1 January to the first of month `m` in year `y`. */
  function DaysBeforeMonth(y: int, m: int): (n: int)
    requires 1 <= m <= 12
    ensures 0 <= n <= 335
  {
    [0, 31, 59, 90, 120, 151, 181, 212, 243, 273, 304, 334][m - 1]
      + (if m > 2 && IsLeapYear(y) then 1 else 0)
  }

  lemma MonthStep(y: int, m: int)
    requires 1 <= m < 12
    ensures DaysBeforeMonth(y, m + 1) == DaysBeforeMonth(y, m) + DaysInMonth(y, m)
  {
  }

  function DayNumber(d: Date): int
    requires Valid(d)
  {
    DaysBeforeYear(d.year) + DaysBeforeMonth(d.year, d.month) + d.day - 1
  }

  lemma MulAtLeast(k: int, t: int)
    requires k > 0
    ensures t >= 1 ==> k * t >= k
  {
    if t >= 1 {
      assert k * t == k * (t - 1) + k;
      assert k * (t - 1) >= 0;
    }
  }

  /** Euclidean division is determined by the quotient-remainder equation. */
  lemma DivUnique(a: int, k: int, q: int, r: int)
    requires k > 0 && a == k * q + r && 0 <= r < k
    ensures a / k == q && a % k == r
  {
    var q0, r0 := a / k, a % k;
    assert k * q0 + r0 == k * q + r;
    assert k * (q - q0) == k * q - k * q0;
    assert k * (q0 - q) == k * q0 - k * q;
    MulAtLeast(k, q - q0);
    MulAtLeast(k, q0 - q);
  }

  /** `y / k - (y - 1) / k` is 1 exactly when `k` divides `y`. */
  lemma DivStep(y: int, k: int)
    requires k > 0
    ensures y / k - (y - 1) / k == if y % k == 0 then 1 else 0
  {
    var q, r := y / k, y % k;
    if r == 0 {
      DivUnique(y - 1, k, q - 1, k - 1);
    } else {
      DivUnique(y - 1, k, q, r - 1);
    }
  }

  /** A multiple of `k * m` is a multiple of `k`. */
  lemma MultipleOfFactor(y: int, k: int, m: int)
    requires k > 0 && m > 0 && y % (k * m) == 0
    ensures y % k == 0
  {
    var q := y / (k * m);
    assert y == (k * m) * q;
    assert (k * m) * q == k * (m * q);
    DivUnique(y, k, m * q, 0);
  }

  lemma YearLength(y: int)
    ensures DaysBeforeYear(y + 1) - DaysBeforeYear(y) == if IsLeapYear(y) then 366 else 365
  {
    DivStep(y, 4);
    DivStep(y, 100);
    DivStep(y, 400);
    if y % 400 == 0 {
      MultipleOfFactor(y, 100, 4);
    }
    if y % 100 == 0 {
      MultipleOfFactor(y, 4, 25);
    }
  }

  lemma DaysBeforeDecember(y: int)
    ensures DaysBeforeMonth(y, 12) + 31 == if IsLeapYear(y) then 366 else 365
  {
  }

  /** The day after `d`, with month and year roll-over. */
  function NextDay(d: Date): (r: Date)
    requires Valid(d)
    ensures Valid(r) && DayNumber(r) == DayNumber(d) + 1
  {
    if d.day < DaysInMonth(d.year, d.month) then Date(d.year, d.month, d.day + 1)
    else if d.month < 12 then Date(d.year, d.month + 1, 1)
    else
      YearLength(d.year);
      DaysBeforeDecember(d.year);
      Date(d.year + 1, 1, 1)
  }

  /** The day before `d`, with month and year roll-back. */
  function PrevDay(d: Date): (r: Date)
    requires Valid(d)
    ensures Valid(r) && DayNumber(r) == DayNumber(d) - 1
  {
    if d.day > 1 then Date(d.year, d.month, d.day - 1)
    else if d.month > 1 then Date(d.year, d.month - 1, DaysInMonth(d.year, d.month - 1))
    else
      YearLength(d.year - 1);
      DaysBeforeDecember(d.year - 1);
      Date(d.year - 1, 12, 31)
  }

  /** `date.setDate(date.getDate() + n)`: `n` days later (earlier when negative). */
  function AddDays(d: Date, n: int): (r: Date)
    requires Valid(d)
    ensures Valid(r) && DayNumber(r) == DayNumber(d) + n
    decreases if n >= 0 then n else -n
  {
    if n == 0 then d
    else if n > 0 then AddDays(NextDay(d), n - 1)
    else AddDays(PrevDay(d), n + 1)
  }

  /** Day of the week, 0 = Monday … 6 = Sunday. */
  function Weekday(d: Date): (w: int)
    requires Valid(d)
    ensures 0 <= w < 7
  {
    DayNumber(d) % 7
  }

  /** date-fns `startOfWeek(d, { locale: uk })`: the Monday on or before `d`. */
  function StartOfWeek(d: Date): (r: Date)
    requires Valid(d)
    ensures Valid(r) && Weekday(r) == 0
    ensures DayNumber(r) == DayNumber(d) - Weekday(d)
    ensures DayNumber(d) - 6 <= DayNumber(r) <= DayNumber(d)
  {
    var w := Weekday(d);
    var r := AddDays(d, -w);
    assert DayNumber(r) == DayNumber(d) - w;
    assert DayNumber(d) % 7 == w;
    DivUnique(DayNumber(r), 7, DayNumber(d) / 7, 0);
    r
  }

  /** `d.setDate(1)`: the first day of `d`'s month. */
  function FirstOfMonth(d: Date): (r: Date)
    requires Valid(d)
    ensures Valid(r) && r.year == d.year && r.month == d.month && r.day == 1
    ensures DayNumber(r) == DayNumber(d) - (d.day - 1)
  {
    Date(d.year, d.month, 1)
  }

  /** Two valid dates with the same day number are the same date. */
  lemma {:induction false} DayNumberInjective(a: Date, b: Date)
    requires Valid(a) && Valid(b) && DayNumber(a) == DayNumber(b)
    ensures a == b
  {
    if a.year < b.year {
      YearsApart(a, b);
    } else if b.year < a.year {
      YearsApart(b, a);
    } else if a.month < b.month {
      MonthsApart(a, b);
    } else if b.month < a.month {
      MonthsApart(b, a);
    }
  }

  lemma YearsApart(a: Date, b: Date)
    requires Valid(a) && Valid(b) && a.year < b.year
    ensures DayNumber(a) < DayNumber(b)
  {
    DayNumberBelowNextYear(a);
    DaysBeforeYearMonotone(a.year + 1, b.year);
  }

  lemma DayNumberBelowNextYear(a: Date)
    requires Valid(a)
    ensures DayNumber(a) < DaysBeforeYear(a.year + 1)
  {
    YearLength(a.year);
    DaysBeforeDecember(a.year);
    DaysBeforeMonthMonotone(a.year, a.month, 12);
  }

  lemma {:induction false} DaysBeforeYearMonotone(x: int, y: int)
    requires x <= y
    ensures DaysBeforeYear(x) <= DaysBeforeYear(y)
    decreases y - x
  {
    if x < y {
      YearLength(x);
      DaysBeforeYearMonotone(x + 1, y);
    }
  }

  lemma {:induction false} DaysBeforeMonthMonotone(y: int, m: int, n: int)
    requires 1 <= m <= n <= 12
    ensures DaysBeforeMonth(y, n) - DaysBeforeMonth(y, m) >= 28 * (n - m)
    decreases n - m
  {
    if m < n {
      DaysBeforeMonthMonotone(y, m, n - 1);
      MonthStep(y, n - 1);
    }
  }

  lemma MonthsApart(a: Date, b: Date)
    requires Valid(a) && Valid(b) && a.year == b.year && a.month < b.month
    ensures DayNumber(a) < DayNumber(b)
  {
    MonthStep(a.year, a.month);
    DaysBeforeMonthMonotone(a.year, a.month + 1, b.month);
  }
}
