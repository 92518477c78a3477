/** The proleptic Gregorian calendar, with day numbers as Python's `date.toordinal` counts them. */
module Calendar {

  datatype Date = Date(year: int, month: int, day: int)

  predicate Leap(y: int) {
    y % 4 == 0 && (y % 100 != 0 || y % 400 == 0)
  }

  function DaysInMonth(y: int, m: int): int {
    if m == 2 then (if Leap(y) then 29 else 28) else if m in [4, 6, 9, 11] then 30 else 31
  }

  predicate IsDate(d: Date) {
    1 <= d.month <= 12 && 1 <= d.day <= DaysInMonth(d.year, d.month)
  }

  function DaysInYear(y: int): int {
    if Leap(y) then 366 else 365
  }

  /** Days from the first of January of year 1; negative before it. */
  function DaysBeforeYear(y: int): int
    decreases if y < 1 then 1 - y else y - 1
  {
    if y == 1 then 0
    else if y > 1 then DaysBeforeYear(y - 1) + DaysInYear(y - 1)
    else DaysBeforeYear(y + 1) - DaysInYear(y)
  }

  function DaysBeforeMonth(y: int, m: int): int
    decreases m
  {
    if m <= 1 then 0 else DaysBeforeMonth(y, m - 1) + DaysInMonth(y, m - 1)
  }

  function Ordinal(d: Date): int {
    DaysBeforeYear(d.year) + DaysBeforeMonth(d.year, d.month) + d.day
  }

  /** The months of a year make up its days, and a year's days come before the next. */
  lemma YearLength(y: int)
    ensures DaysBeforeMonth(y, 13) == DaysInYear(y)
    ensures DaysBeforeYear(y + 1) == DaysBeforeYear(y) + DaysInYear(y)
  {
    hide Leap;
    assert DaysBeforeMonth(y, 3) == 31 + DaysInMonth(y, 2);
    assert DaysBeforeMonth(y, 5) == DaysBeforeMonth(y, 3) + 61;
    assert DaysBeforeMonth(y, 7) == DaysBeforeMonth(y, 5) + 61;
    assert DaysBeforeMonth(y, 9) == DaysBeforeMonth(y, 7) + 62;
    assert DaysBeforeMonth(y, 11) == DaysBeforeMonth(y, 9) + 61;
    assert DaysBeforeMonth(y, 13) == DaysBeforeMonth(y, 11) + 61;
  }

  // ---- the calendar in closed form ----

  lemma LengthsAre(y: int)
    ensures Leap(y) <==> (y % 4 == 0 && y % 100 != 0) || y % 400 == 0
    ensures forall m :: m in [1, 3, 5, 7, 8, 10, 12] ==> DaysInMonth(y, m) == 31
    ensures forall m :: m in [4, 6, 9, 11] ==> DaysInMonth(y, m) == 30
    ensures DaysInMonth(y, 2) == if Leap(y) then 29 else 28
  {
  }

  /** What one more year does to a quotient: it grows by one exactly at a multiple. */
  lemma QuotientStep(y: int, k: int)
    requires k > 0
    ensures y / k == (y - 1) / k + if y % k == 0 then 1 else 0
  {
    var q, r := (y - 1) / k, (y - 1) % k;
    assert y - 1 == q * k + r && 0 <= r < k;
    if r == k - 1 {
      assert y == (q + 1) * k;
      QuotientIs(y, k, q + 1, 0);
    } else {
      assert y == q * k + (r + 1);
      QuotientIs(y, k, q, r + 1);
    }
  }

  lemma MultiplesGrow(a: int, b: int, k: int)
    requires a <= b && k > 0
    ensures a * k <= b * k
  {
  }

  lemma QuotientIs(x: int, k: int, q: int, r: int)
    requires k > 0 && x == q * k + r && 0 <= r < k
    ensures x / k == q && x % k == r
  {
    var a := x / k;
    assert x == a * k + x % k;
    assert (q + 1) * k == q * k + k && (a + 1) * k == a * k + k;
    if a > q { MultiplesGrow(q + 1, a, k); } else if a < q { MultiplesGrow(a + 1, q, k); }
  }

  /** The leap years up to year `y`, counted by the Gregorian rule. */
  function LeapsUpTo(y: int): int {
    y / 4 - y / 100 + y / 400
  }

  lemma MultiplesNest(y: int)
    ensures y % 400 == 0 ==> y % 100 == 0
    ensures y % 100 == 0 ==> y % 4 == 0
  {
    if y % 400 == 0 { QuotientIs(y, 100, 4 * (y / 400), 0); }
    if y % 100 == 0 { QuotientIs(y, 4, 25 * (y / 100), 0); }
  }

  lemma LeapsStep(y: int)
    ensures LeapsUpTo(y) == LeapsUpTo(y - 1) + if Leap(y) then 1 else 0
  {
    QuotientStep(y, 4);
    QuotientStep(y, 100);
    QuotientStep(y, 400);
    MultiplesNest(y);
  }

  /** Before year `y` came 365 days for every earlier year and one for each leap year among them. */
  lemma {:induction false} YearsAre(y: int)
    ensures DaysBeforeYear(y) == 365 * (y - 1) + LeapsUpTo(y - 1)
    decreases if y < 1 then 1 - y else y - 1
  {
    hide LeapsUpTo, Leap;
    if y > 1 {
      YearsAre(y - 1);
      LeapsStep(y - 1);
    } else if y < 1 {
      YearsAre(y + 1);
      LeapsStep(y);
    } else {
      assert LeapsUpTo(0) == 0 by { NoLeaps(); }
    }
  }

  lemma NoLeaps()
    ensures LeapsUpTo(0) == 0
  {
  }

  /** The days of a common year before each month. */
  const BEFORE: seq<int> := [0, 31, 59, 90, 120, 151, 181, 212, 243, 273, 304, 334]

  lemma MonthsAre(y: int, m: int)
    requires 1 <= m <= 12
    ensures DaysBeforeMonth(y, m) == BEFORE[m - 1] + if m > 2 && Leap(y) then 1 else 0
  {
    hide Leap;
    assert DaysBeforeMonth(y, 3) == 31 + DaysInMonth(y, 2);
    assert DaysBeforeMonth(y, 5) == DaysBeforeMonth(y, 3) + 61;
    assert DaysBeforeMonth(y, 7) == DaysBeforeMonth(y, 5) + 61;
    assert DaysBeforeMonth(y, 9) == DaysBeforeMonth(y, 7) + 62;
    assert DaysBeforeMonth(y, 11) == DaysBeforeMonth(y, 9) + 61;
  }

  /** A date's day number in closed form. */
  lemma OrdinalIs(d: Date)
    requires 1 <= d.month <= 12
    ensures Ordinal(d)
            == 365 * (d.year - 1) + (d.year - 1) / 4 - (d.year - 1) / 100 + (d.year - 1) / 400
               + BEFORE[d.month - 1] + (if d.month > 2 && Leap(d.year) then 1 else 0) + d.day
  {
    hide DaysBeforeYear, DaysBeforeMonth, Leap;
    YearsAre(d.year);
    MonthsAre(d.year, d.month);
  }

  /** Day 1, the first of January of year 1, is a Monday, and the weekdays go round by sevens. */
  lemma WeekdayIs(d: Date)
    ensures Ordinal(Date(1, 1, 1)) == 1 && Weekday(Date(1, 1, 1)) == 0
    ensures Weekday(d) == (Ordinal(d) - 1) % 7
  {
    hide Ordinal;
    assert Ordinal(Date(1, 1, 1)) == 1 by { FirstDay(); }
    var n := Ordinal(d) - 1;
    QuotientIs(n + 7, 7, n / 7 + 1, n % 7);
  }

  lemma FirstDay()
    ensures Ordinal(Date(1, 1, 1)) == 1
  {
  }

  function NextDay(d: Date): (n: Date)
    requires IsDate(d)
    ensures IsDate(n) && Ordinal(n) == Ordinal(d) + 1
  {
    hide DaysBeforeYear;
    YearLength(d.year);
    if d.day < DaysInMonth(d.year, d.month) then Date(d.year, d.month, d.day + 1)
    else if d.month < 12 then Date(d.year, d.month + 1, 1)
    else Date(d.year + 1, 1, 1)
  }

  function PreviousDay(d: Date): (p: Date)
    requires IsDate(d)
    ensures IsDate(p) && Ordinal(p) == Ordinal(d) - 1
  {
    hide DaysBeforeYear;
    YearLength(d.year - 1);
    if d.day > 1 then Date(d.year, d.month, d.day - 1)
    else if d.month > 1 then Date(d.year, d.month - 1, DaysInMonth(d.year, d.month - 1))
    else Date(d.year - 1, 12, 31)
  }

  predicate Numbered(d: Date, n: int) {
    IsDate(d) && Ordinal(d) == n
  }

  lemma DateExists(n: int) returns (d: Date)
    ensures Numbered(d, n)
    decreases if n < 1 then 1 - n else n - 1
  {
    if n == 1 {
      d := Date(1, 1, 1);
    } else if n > 1 {
      var e := DateExists(n - 1);
      d := NextDay(e);
    } else {
      var e := DateExists(n + 1);
      d := PreviousDay(e);
    }
  }

  /** The date with a given day number; there is exactly one. */
  ghost function FromOrdinal(n: int): (d: Date)
    ensures IsDate(d) && Ordinal(d) == n
  {
    assert exists d :: Numbered(d, n) by { var d := DateExists(n); }
    var d :| Numbered(d, n);
    d
  }

  /** date + timedelta(days=k) */
  ghost function AddDays(d: Date, k: int): (r: Date)
    ensures IsDate(r) && Ordinal(r) == Ordinal(d) + k
  {
    FromOrdinal(Ordinal(d) + k)
  }

  /** date.weekday(): Monday is 0. */
  function Weekday(d: Date): (w: int)
    ensures 0 <= w < 7
  {
    (Ordinal(d) + 6) % 7
  }

  // ---- a day number belongs to one date ----

  lemma {:induction false} YearsGrow(y: int, z: int)
    requires y < z
    ensures DaysBeforeYear(y) + DaysBeforeMonth(y, 13) <= DaysBeforeYear(z)
    decreases z - y
  {
    hide DaysBeforeYear, DaysBeforeMonth;
    YearLength(y);
    if y + 1 < z {
      YearsGrow(y + 1, z);
      YearLength(y + 1);
    }
  }

  lemma {:induction false} MonthsGrow(y: int, m: int, n: int)
    requires 1 <= m < n
    ensures DaysBeforeMonth(y, m) + DaysInMonth(y, m) <= DaysBeforeMonth(y, n)
    decreases n
  {
    if m + 1 < n { MonthsGrow(y, m, n - 1); }
  }

  predicate Earlier(a: Date, b: Date) {
    a.year < b.year || (a.year == b.year && (a.month < b.month || (a.month == b.month && a.day < b.day)))
  }

  lemma WithinYear(d: Date)
    requires IsDate(d)
    ensures 0 <= DaysBeforeMonth(d.year, d.month) && DaysBeforeMonth(d.year, d.month) + d.day
            <= DaysBeforeMonth(d.year, 13)
  {
    hide DaysBeforeYear;
    MonthsGrow(d.year, d.month, 13);
    if d.month > 1 { MonthsGrow(d.year, 1, d.month); }
  }

  lemma OrdinalIncreases(a: Date, b: Date)
    requires IsDate(a) && IsDate(b) && Earlier(a, b)
    ensures Ordinal(a) < Ordinal(b)
  {
    hide DaysBeforeYear, DaysBeforeMonth;
    WithinYear(a);
    WithinYear(b);
    if a.year < b.year {
      YearsGrow(a.year, b.year);
    } else if a.month < b.month {
      MonthsGrow(a.year, a.month, b.month);
    }
  }

  lemma DateOfOrdinal(d: Date)
    requires IsDate(d)
    ensures FromOrdinal(Ordinal(d)) == d
  {
    var e := FromOrdinal(Ordinal(d));
    hide FromOrdinal;
    if Earlier(d, e) { OrdinalIncreases(d, e); } else if Earlier(e, d) { OrdinalIncreases(e, d); }
  }

  // ---- months ----

  /** The first of the following month, with December rolling into January. */
  function NextMonth(year: int, month: int): Date {
    if month + 1 > 12 then Date(year + 1, 1, 1) else Date(year, month + 1, 1)
  }

  lemma MonthSpan(year: int, month: int)
    requires 1 <= month <= 12
    ensures IsDate(NextMonth(year, month))
    ensures Ordinal(NextMonth(year, month)) == Ordinal(Date(year, month, 1)) + DaysInMonth(year, month)
  {
    hide DaysBeforeYear;
    YearLength(year);
  }

  /**
   The days from one first of a month to the next are that month's days, and none of them but the first is a
   first.
   */
  lemma DaysOfMonth(year: int, month: int, n: int)
    requires 1 <= month <= 12
    requires Ordinal(Date(year, month, 1)) <= n < Ordinal(NextMonth(year, month))
    ensures FromOrdinal(n) == Date(year, month, n - Ordinal(Date(year, month, 1)) + 1)
  {
    hide DaysBeforeYear, DaysBeforeMonth, FromOrdinal, NextMonth;
    MonthSpan(year, month);
    var day := n - Ordinal(Date(year, month, 1)) + 1;
    assert IsDate(Date(year, month, day));
    assert Ordinal(Date(year, month, day)) == n;
    hide Ordinal;
    DateOfOrdinal(Date(year, month, day));
  }
}
