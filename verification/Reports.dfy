/**
 reports.py: when a report schedule is next due, and which period a due report covers. Local time is civil time
 at a fixed offset from UTC; instants count microseconds, and day `n` of the calendar begins at `n` days.
 */
module Reports {
  import opened Prelude
  import opened Model
  import opened Calendar

  const DAY: int := 24 * HOUR

  datatype Cadence = Daily | Weekly | Monthly

  /** A schedule's timing fields; the weekday is set exactly for weekly ones. */
  datatype Timing = Timing(cadence: Cadence, weekday: Option<int>, hour: int, offset: int)

  predicate GoodTiming(s: Timing) {
    0 <= s.hour <= 23 && (s.cadence.Weekly? <==> s.weekday.Some?) && (s.weekday.Some? ==> 0 <= s.weekday.value <= 6)
  }

  ghost function DateAt(local: int): (d: Date)
    ensures IsDate(d) && Ordinal(d) == local / DAY
  {
    FromOrdinal(local / DAY)
  }

  /** datetime(d.year, d.month, d.day, hour) */
  function AtHour(d: Date, hour: int): int {
    Ordinal(d) * DAY + hour * HOUR
  }

  /** compute_next_run */
  ghost function NextRun(s: Timing, after: Time): Time
    requires GoodTiming(s)
  {
    var local := after + s.offset;
    var date := DateAt(local);
    var next :=
      match s.cadence
      case Daily =>
        if AtHour(date, s.hour) <= local then AtHour(AddDays(date, 1), s.hour) else AtHour(date, s.hour)
      case Weekly =>
        var day := AddDays(date, (s.weekday.value - Weekday(date)) % 7);
        if AtHour(day, s.hour) <= local then AtHour(AddDays(day, 7), s.hour) else AtHour(day, s.hour)
      case Monthly =>
        var first := Date(date.year, date.month, 1);
        if AtHour(first, s.hour) <= local then AtHour(NextMonth(date.year, date.month), s.hour)
          else AtHour(first, s.hour);
    next - s.offset
  }

  /** The first day a report due on `date` does not cover. */
  ghost function EndDate(cadence: Cadence, date: Date): Date {
    match cadence
    case Daily => date
    case Weekly => AddDays(date, -Weekday(date))
    case Monthly => Date(date.year, date.month, 1)
  }

  /** The first day it does cover. */
  ghost function StartDate(cadence: Cadence, date: Date): Date {
    var end := EndDate(cadence, date);
    match cadence
    case Daily => AddDays(end, -1)
    case Weekly => AddDays(end, -7)
    case Monthly =>
      var previous := AddDays(end, -1);
      Date(previous.year, previous.month, 1)
  }

  datatype Period = Period(start: Time, end: Time)

  /** compute_period */
  ghost function PeriodOf(s: Timing, reference: Time): Period {
    var date := DateAt(reference + s.offset);
    Period(AtHour(StartDate(s.cadence, date), 0) - s.offset, AtHour(EndDate(s.cadence, date), 0) - s.offset)
  }

  // ---- what an occurrence is ----

  /** The schedule's wall-clock pattern. */
  ghost predicate Occurs(s: Timing, t: Time) {
    var local := t + s.offset;
    && local % DAY == s.hour * HOUR
    && (s.cadence.Weekly? ==> Some(Weekday(DateAt(local))) == s.weekday)
    && (s.cadence.Monthly? ==> DateAt(local).day == 1)
  }

  lemma Split(local: int)
    ensures local == (local / DAY) * DAY + local % DAY && 0 <= local % DAY < DAY
  {
  }

  lemma OnDay(n: int, hour: int)
    requires 0 <= hour <= 23
    ensures (n * DAY + hour * HOUR) / DAY == n && (n * DAY + hour * HOUR) % DAY == hour * HOUR
  {
    var local := n * DAY + hour * HOUR;
    Split(local);
    assert DAY * (n - local / DAY) == local % DAY - hour * HOUR;
  }

  lemma DayOfHour(d: Date, hour: int)
    requires IsDate(d) && 0 <= hour <= 23
    ensures DateAt(AtHour(d, hour)) == d && AtHour(d, hour) % DAY == hour * HOUR
  {
    hide Ordinal, FromOrdinal;
    OnDay(Ordinal(d), hour);
    DateOfOrdinal(d);
  }

  /** The day an occurrence at `hour` falls on lies strictly between two others when the occurrence does. */
  lemma DaysBetween(local: int, m: int, n: int, hour: int)
    requires 0 <= hour <= 23 && local % DAY == hour * HOUR
    ensures m * DAY + hour * HOUR < local ==> m < local / DAY
    ensures local < n * DAY + hour * HOUR ==> local / DAY < n
  {
    Split(local);
  }

  lemma DayHasPassed(local: int, n: int, hour: int)
    requires 0 <= hour <= 23
    ensures n < local / DAY ==> n * DAY + hour * HOUR < local
    ensures local / DAY < n ==> local < n * DAY + hour * HOUR
  {
    Split(local);
  }

  /** Nothing occurs strictly between these two instants. */
  ghost predicate NoneBetween(s: Timing, from: Time, to: Time) {
    forall t :: from < t < to ==> !Occurs(s, t)
  }

  /** `next` is the least occurrence strictly after `after`. */
  ghost predicate LeastAfter(s: Timing, after: Time, next: Time) {
    after < next && Occurs(s, next) && NoneBetween(s, after, next)
  }

  lemma DailyNext(s: Timing, after: Time)
    requires GoodTiming(s) && s.cadence.Daily?
    ensures LeastAfter(s, after, NextRun(s, after))
  {
    hide Ordinal, FromOrdinal;
    var local := after + s.offset;
    var d := local / DAY;
    var date := DateAt(local);
    DayOfHour(date, s.hour);
    DayOfHour(AddDays(date, 1), s.hour);
    DayHasPassed(local, d + 1, s.hour);
    forall t | after < t < NextRun(s, after) ensures !Occurs(s, t) {
      if Occurs(s, t) {
        DaysBetween(t + s.offset, d, d + 1, s.hour);
        DaysBetween(t + s.offset, d - 1, d, s.hour);
        DayHasPassed(local, d - 1, s.hour);
      }
    }
  }

  lemma WeekdayOf(n: int)
    ensures Weekday(FromOrdinal(n)) == (n + 6) % 7
  {
    hide Ordinal, FromOrdinal;
  }

  lemma Remainder(x: int, q: int, r: int)
    requires x == 7 * q + r && 0 <= r < 7
    ensures x % 7 == r
  {
    assert 7 * (x / 7 - q) == r - x % 7;
  }

  /** Of the days from `n` on, the first with weekday `w` is `(w - weekday) % 7` ahead. */
  lemma WeekdayAhead(n: int, w: int, m: int)
    requires 0 <= w <= 6
    ensures var first := n + (w - (n + 6) % 7) % 7;
            && n <= first < n + 7 && (first + 6) % 7 == w && (first + 7 + 6) % 7 == w
            && (n <= m < first + 7 && m != first ==> (m + 6) % 7 != w)
  {
    var a, q := (n + 6) % 7, (n + 6) / 7;
    var ahead, p := (w - a) % 7, (w - a) / 7;
    assert n + 6 == 7 * q + a && w - a == 7 * p + ahead;
    var first := n + ahead;
    Remainder(first + 6, q - p, w);
    Remainder(first + 7 + 6, q - p + 1, w);
    if n <= m < first + 7 && (m + 6) % 7 == w {
      var t := (m + 6) / 7;
      assert m + 6 == 7 * t + w;
      assert m - first == 7 * (t - (q - p));
    }
  }

  /** On any weekday but the schedule's nothing occurs, and between two such days no instant does. */
  lemma NoneBetweenWeeks(s: Timing, after: Time, first: int, t: Time)
    requires GoodTiming(s) && s.cadence.Weekly?
    requires first == (after + s.offset) / DAY + (s.weekday.value - ((after + s.offset) / DAY + 6) % 7) % 7
    requires after < t < first * DAY + s.hour * HOUR - s.offset
             || (first * DAY + s.hour * HOUR - s.offset <= after < t < (first + 7) * DAY + s.hour * HOUR - s.offset)
    ensures !Occurs(s, t)
  {
    hide Ordinal, FromOrdinal, Weekday;
    var d, m := (after + s.offset) / DAY, (t + s.offset) / DAY;
    if Occurs(s, t) {
      WeekdayOf(m);
      WeekdayAhead(d, s.weekday.value, m);
      DaysBetween(t + s.offset, first, first + 7, s.hour);
      DaysBetween(t + s.offset, d, first, s.hour);
      Ordered(after + s.offset, t + s.offset);
    }
  }

  lemma WeeklyNext(s: Timing, after: Time)
    requires GoodTiming(s) && s.cadence.Weekly?
    ensures LeastAfter(s, after, NextRun(s, after))
  {
    hide Ordinal, FromOrdinal, Weekday;
    var local := after + s.offset;
    var d, date := local / DAY, DateAt(local);
    WeekdayOf(d);
    var ahead := (s.weekday.value - Weekday(date)) % 7;
    var day := AddDays(date, ahead);
    WeekdayAhead(d, s.weekday.value, d);
    WeekdayOf(d + ahead);
    WeekdayOf(d + ahead + 7);
    DayOfHour(day, s.hour);
    DayOfHour(AddDays(day, 7), s.hour);
    DayHasPassed(local, d + ahead, s.hour);
    DayHasPassed(local, d + ahead + 7, s.hour);
    forall t | after < t < NextRun(s, after) ensures !Occurs(s, t) {
      NoneBetweenWeeks(s, after, d + ahead, t);
    }
  }

  lemma Ordered(a: int, b: int)
    requires a <= b
    ensures a / DAY <= b / DAY
  {
    Split(a);
    Split(b);
  }

  lemma MonthlyNext(s: Timing, after: Time)
    requires GoodTiming(s) && s.cadence.Monthly?
    ensures LeastAfter(s, after, NextRun(s, after))
  {
    hide Ordinal, FromOrdinal;
    var local := after + s.offset;
    var d, date := local / DAY, DateAt(local);
    var first, next := Date(date.year, date.month, 1), NextMonth(date.year, date.month);
    MonthSpan(date.year, date.month);
    FirstOfMonth(date);
    DayOfHour(first, s.hour);
    DayOfHour(next, s.hour);
    DayHasPassed(local, Ordinal(first), s.hour);
    DayHasPassed(local, Ordinal(next), s.hour);
    forall t | after < t < NextRun(s, after) ensures !Occurs(s, t) {
      if Occurs(s, t) {
        var m := (t + s.offset) / DAY;
        DaysBetween(t + s.offset, Ordinal(first), Ordinal(next), s.hour);
        DaysBetween(t + s.offset, d, Ordinal(first), s.hour);
        Ordered(local, t + s.offset);
        if Ordinal(first) <= m < Ordinal(next) { DaysOfMonth(date.year, date.month, m); }
      }
    }
  }

  lemma FirstOfMonth(d: Date)
    requires IsDate(d)
    ensures IsDate(Date(d.year, d.month, 1))
    ensures Ordinal(Date(d.year, d.month, 1)) == Ordinal(d) - d.day + 1 <= Ordinal(d)
            < Ordinal(NextMonth(d.year, d.month))
  {
    MonthSpan(d.year, d.month);
  }

  /** For every cadence the next run is the least matching wall-clock instant strictly after the argument. */
  lemma NextRunIsLeast(s: Timing, after: Time)
    requires GoodTiming(s)
    ensures LeastAfter(s, after, NextRun(s, after))
  {
    hide *;
    match s.cadence {
      case Daily => DailyNext(s, after);
      case Weekly => WeeklyNext(s, after);
      case Monthly => MonthlyNext(s, after);
    }
  }

  // ---- periods tile time ----

  /** Within a day's wait the next run is the same, and waiting past it skips it. */
  lemma NextRunWhileWaiting(s: Timing, due: Time, now: Time)
    requires GoodTiming(s) && due <= now
    ensures now < NextRun(s, due) ==> NextRun(s, now) == NextRun(s, due)
    ensures NextRun(s, due) <= now ==> NextRun(s, due) < NextRun(s, now)
  {
    NextRunIsLeast(s, due);
    NextRunIsLeast(s, now);
    hide NextRun, Occurs, GoodTiming;
    var a, b := NextRun(s, due), NextRun(s, now);
    assert now < a < b ==> !Occurs(s, a);
    assert due < b < a ==> !Occurs(s, b);
  }

  lemma NextOfOccurrence(s: Timing, due: Time)
    requires GoodTiming(s) && Occurs(s, due)
    ensures var date := DateAt(due + s.offset);
            AtHour(date, s.hour) == due + s.offset
            && DateAt(NextRun(s, due) + s.offset)
               == match s.cadence
                  case Daily => AddDays(date, 1)
                  case Weekly => AddDays(date, 7)
                  case Monthly => NextMonth(date.year, date.month)
  {
    hide Ordinal, FromOrdinal, Weekday;
    var local := due + s.offset;
    var date := DateAt(local);
    Split(local);
    DayOfHour(AddDays(date, 1), s.hour);
    DayOfHour(AddDays(date, 7), s.hour);
    match s.cadence {
      case Daily =>
      case Weekly => SameDay(date);
      case Monthly =>
        MonthSpan(date.year, date.month);
        DayOfHour(NextMonth(date.year, date.month), s.hour);
    }
  }

  lemma SameDay(d: Date)
    requires IsDate(d)
    ensures AddDays(d, 0) == d
  {
    DateOfOrdinal(d);
  }

  lemma BackAndForth(d: Date, k: int)
    requires IsDate(d)
    ensures AddDays(AddDays(d, k), -k) == d
  {
    hide Ordinal, FromOrdinal;
    DateOfOrdinal(d);
  }

  lemma BeforeNextMonth(year: int, month: int)
    requires 1 <= month <= 12
    ensures var previous := AddDays(NextMonth(year, month), -1);
            previous.year == year && previous.month == month
  {
    hide Ordinal, FromOrdinal;
    MonthSpan(year, month);
    DaysOfMonth(year, month, Ordinal(NextMonth(year, month)) - 1);
  }

  /** The weekly period boundary of a day, as a day number. */
  lemma WeekStart(n: int)
    ensures Ordinal(EndDate(Weekly, FromOrdinal(n))) == n - (n + 6) % 7
    ensures Ordinal(StartDate(Weekly, FromOrdinal(n))) == n - (n + 6) % 7 - 7
  {
    hide Ordinal, FromOrdinal;
  }

  lemma SameOrdinal(a: Date, b: Date)
    requires IsDate(a) && IsDate(b) && Ordinal(a) == Ordinal(b)
    ensures a == b
  {
    hide Ordinal, FromOrdinal;
    DateOfOrdinal(a);
    DateOfOrdinal(b);
  }

  /** The next day on which the schedule occurs starts its period where this one's ends. */
  lemma DatesMeet(s: Timing, due: Time)
    requires GoodTiming(s) && Occurs(s, due)
    ensures StartDate(s.cadence, DateAt(NextRun(s, due) + s.offset)) == EndDate(s.cadence, DateAt(due + s.offset))
  {
    hide Ordinal, FromOrdinal, NextRun, Weekday;
    var date := DateAt(due + s.offset);
    NextOfOccurrence(s, due);
    match s.cadence {
      case Daily => BackAndForth(date, 1);
      case Weekly => WeeksMeet(date);
      case Monthly => BeforeNextMonth(date.year, date.month);
    }
  }

  lemma WeeksMeet(d: Date)
    requires IsDate(d)
    ensures StartDate(Weekly, AddDays(d, 7)) == EndDate(Weekly, d)
  {
    hide Ordinal, FromOrdinal, EndDate, StartDate;
    var n := Ordinal(d);
    DateOfOrdinal(d);
    WeekStart(n);
    WeekStart(n + 7);
    PeriodDates(Weekly, d);
    PeriodDates(Weekly, AddDays(d, 7));
    assert (n + 7 + 6) % 7 == (n + 6) % 7;
    SameOrdinal(StartDate(Weekly, AddDays(d, 7)), EndDate(Weekly, d));
  }

  lemma PeriodDates(cadence: Cadence, d: Date)
    requires IsDate(d)
    ensures IsDate(StartDate(cadence, d)) && IsDate(EndDate(cadence, d))
    ensures Ordinal(StartDate(cadence, d)) < Ordinal(EndDate(cadence, d)) <= Ordinal(d)
  {
    hide Ordinal, FromOrdinal;
    if cadence.Monthly? {
      FirstOfMonth(d);
      FirstOfMonth(AddDays(EndDate(cadence, d), -1));
    }
  }

  /** Periods are not empty, and end no later than the instant they are computed for. */
  lemma PeriodShape(s: Timing, t: Time)
    ensures PeriodOf(s, t).start < PeriodOf(s, t).end <= t
  {
    hide Ordinal, FromOrdinal, EndDate, StartDate;
    PeriodDates(s.cadence, DateAt(t + s.offset));
    Split(t + s.offset);
  }

  /** A period may begin on this day: any day, a Monday, or a first of the month. */
  ghost predicate Turns(cadence: Cadence, n: int) {
    match cadence
    case Daily => true
    case Weekly => (n - 1) % 7 == 0
    case Monthly => FromOrdinal(n).day == 1
  }

  lemma TurnDates(cadence: Cadence, d: Date, n: int)
    requires IsDate(d) && Ordinal(StartDate(cadence, d)) <= n <= Ordinal(d)
    ensures Turns(cadence, n)
            <==> cadence.Daily? || n == Ordinal(StartDate(cadence, d)) || n == Ordinal(EndDate(cadence, d))
  {
    hide Ordinal, FromOrdinal;
    match cadence {
      case Daily =>
      case Weekly =>
        DateOfOrdinal(d);
        WeekStart(Ordinal(d));
        MondayIs(Ordinal(d), n);
      case Monthly =>
        var previous := AddDays(EndDate(Monthly, d), -1);
        FirstOfMonth(d);
        FirstOfMonth(previous);
        DateOfOrdinal(EndDate(Monthly, d));
        LastOfMonth(previous);
        if n < Ordinal(EndDate(Monthly, d)) {
          DaysOfMonth(previous.year, previous.month, n);
        } else {
          DaysOfMonth(d.year, d.month, n);
        }
    }
  }

  /** Two weeks back from a day only their Mondays are Mondays. */
  lemma MondayIs(d: int, n: int)
    requires d - (d + 6) % 7 - 7 <= n <= d
    ensures (n - 1) % 7 == 0 <==> n == d - (d + 6) % 7 || n == d - (d + 6) % 7 - 7
  {
    var q, a := (d + 6) / 7, (d + 6) % 7;
    assert d == 7 * (q - 1) + 1 + a;
    if (n - 1) % 7 == 0 { assert n - 1 == 7 * ((n - 1) / 7); }
    Remainder(d - a - 1, q - 1, 0);
    Remainder(d - a - 8, q - 2, 0);
  }

  /** A day whose successor begins a month is its month's last. */
  lemma LastOfMonth(d: Date)
    requires IsDate(d) && FromOrdinal(Ordinal(d) + 1).day == 1
    ensures Ordinal(NextMonth(d.year, d.month)) == Ordinal(d) + 1
  {
    hide Ordinal, FromOrdinal;
    FirstOfMonth(d);
    if Ordinal(d) + 1 < Ordinal(NextMonth(d.year, d.month)) { DaysOfMonth(d.year, d.month, Ordinal(d) + 1); }
  }

  /** A period of whole days: from the first of them to the last, both beginnings, with none in between. */
  ghost predicate WholePeriod(cadence: Cadence, first: int, last: int) {
    first < last && Turns(cadence, first) && Turns(cadence, last)
    && if cadence.Daily? then last == first + 1 else forall n :: first < n < last ==> !Turns(cadence, n)
  }

  /**
   The period of an instant is the last complete one before it: whole local days, from one beginning to the next, and
   no later beginning has come by then.
   */
  lemma PeriodIsLastComplete(s: Timing, t: Time)
    ensures var today, p := (t + s.offset) / 86_400_000_000, PeriodOf(s, t);
            exists first, last ::
              && WholePeriod(s.cadence, first, last) && last <= today
              && (if s.cadence.Daily? then last == today else forall n :: last < n <= today ==> !Turns(s.cadence, n))
              && p == Period(first * 86_400_000_000 - s.offset, last * 86_400_000_000 - s.offset)
  {
    hide Ordinal, FromOrdinal, StartDate, EndDate, Turns;
    var d := DateAt(t + s.offset);
    PeriodDates(s.cadence, d);
    var first, last := Ordinal(StartDate(s.cadence, d)), Ordinal(EndDate(s.cadence, d));
    forall n | first <= n <= Ordinal(d)
      ensures Turns(s.cadence, n) <==> s.cadence.Daily? || n == first || n == last
    {
      TurnDates(s.cadence, d, n);
    }
    if s.cadence.Daily? { DailyDates(d); }
    assert WholePeriod(s.cadence, first, last);
  }

  lemma DailyDates(d: Date)
    requires IsDate(d)
    ensures Ordinal(EndDate(Daily, d)) == Ordinal(d) && Ordinal(StartDate(Daily, d)) == Ordinal(d) - 1
  {
    hide Ordinal, FromOrdinal;
  }

  lemma PeriodsMeet(s: Timing, due: Time)
    requires GoodTiming(s) && Occurs(s, due)
    ensures PeriodOf(s, NextRun(s, due)).start == PeriodOf(s, due).end
  {
    hide NextRun, DateAt, EndDate, StartDate, AtHour, Occurs;
    DatesMeet(s, due);
  }

  lemma FirstsGrow(a: Date, b: Date)
    requires IsDate(a) && IsDate(b) && Ordinal(a) <= Ordinal(b)
    ensures Ordinal(Date(a.year, a.month, 1)) <= Ordinal(Date(b.year, b.month, 1))
  {
    hide Ordinal;
    var first, second := Date(a.year, a.month, 1), Date(b.year, b.month, 1);
    if Earlier(b, a) { OrdinalIncreases(b, a); }
    if Earlier(first, second) { OrdinalIncreases(first, second); }
  }

  lemma StartsGrow(cadence: Cadence, a: Date, b: Date)
    requires IsDate(a) && IsDate(b) && Ordinal(a) <= Ordinal(b)
    ensures Ordinal(StartDate(cadence, a)) <= Ordinal(StartDate(cadence, b))
  {
    hide Ordinal, FromOrdinal, Weekday;
    match cadence {
      case Daily =>
      case Weekly =>
        DateOfOrdinal(a);
        DateOfOrdinal(b);
        WeekStart(Ordinal(a));
        WeekStart(Ordinal(b));
        FloorGrows(Ordinal(a), Ordinal(b));
      case Monthly =>
        FirstsGrow(a, b);
        FirstOfMonth(a);
        FirstOfMonth(b);
        FirstsGrow(AddDays(EndDate(Monthly, a), -1), AddDays(EndDate(Monthly, b), -1));
    }
  }

  lemma FloorGrows(m: int, n: int)
    requires m <= n
    ensures m - (m + 6) % 7 <= n - (n + 6) % 7
  {
    assert m + 6 == 7 * ((m + 6) / 7) + (m + 6) % 7;
    assert n + 6 == 7 * ((n + 6) / 7) + (n + 6) % 7;
  }

  lemma LaterStartsLater(s: Timing, a: Time, b: Time)
    requires a <= b
    ensures PeriodOf(s, a).start <= PeriodOf(s, b).start
  {
    hide Ordinal, FromOrdinal, StartDate;
    Ordered(a + s.offset, b + s.offset);
    StartsGrow(s.cadence, DateAt(a + s.offset), DateAt(b + s.offset));
  }

  /**
   The report after one dispatched at `now` covers the period that follows, with no gap and no overlap, exactly when
   that dispatch came before the schedule's next occurrence.
   */
  lemma DispatchedInTimeTiles(s: Timing, due: Time, now: Time)
    requires GoodTiming(s) && Occurs(s, due) && due <= now
    ensures PeriodOf(s, NextRun(s, now)).start == PeriodOf(s, due).end <==> now < NextRun(s, due)
    ensures PeriodOf(s, NextRun(s, now)).start >= PeriodOf(s, due).end
  {
    hide NextRun, Occurs, PeriodOf, GoodTiming;
    NextRunWhileWaiting(s, due, now);
    PeriodsMeet(s, due);
    NextRunIsLeast(s, due);
    NextRunIsLeast(s, now);
    if NextRun(s, due) <= now {
      var missed := NextRun(s, due);
      NextRunWhileWaiting(s, missed, now);
      PeriodsMeet(s, missed);
      PeriodShape(s, missed);
      LaterStartsLater(s, NextRun(s, missed), NextRun(s, now));
    }
  }

  /** A daily report due at eight on day `n` but dispatched thirty hours late: no report ever covers day `n`. */
  lemma LateDailyReportSkipsADay(n: int)
    ensures var s := Timing(Daily, None, 8, 0);
            var due := n * DAY + 8 * HOUR;
            var next := NextRun(s, due + 30 * HOUR);
            && Occurs(s, due)
            && PeriodOf(s, due) == Period((n - 1) * DAY, n * DAY)
            && next == (n + 2) * DAY + 8 * HOUR
            && PeriodOf(s, next) == Period((n + 1) * DAY, (n + 2) * DAY)
  {
    hide Ordinal, FromOrdinal;
    var s := Timing(Daily, None, 8, 0);
    OnDay(n, 8);
    OnDay(n + 1, 14);
    OnDay(n + 2, 8);
    assert n * DAY + 8 * HOUR + 30 * HOUR == (n + 1) * DAY + 14 * HOUR;
  }

  // ---- a schedule over its life ----

  /** The due instants of a schedule, each computed when the one before was dispatched, in time. */
  ghost predicate Punctual(s: Timing, dues: seq<Time>, nows: seq<Time>) {
    && GoodTiming(s) && dues != [] && |nows| == |dues| - 1 && Occurs(s, dues[0])
    && forall k :: 0 <= k < |nows| ==> dues[k] <= nows[k] < NextRun(s, dues[k]) && dues[k + 1] == NextRun(s, nows[k])
  }

  ghost predicate Covers(s: Timing, due: Time, t: Time) {
    PeriodOf(s, due).start <= t < PeriodOf(s, due).end
  }

  lemma {:induction false} DuesOccur(s: Timing, dues: seq<Time>, nows: seq<Time>, k: nat)
    requires Punctual(s, dues, nows) && k < |dues|
    ensures Occurs(s, dues[k])
  {
    hide NextRun, Occurs;
    if k > 0 { NextRunIsLeast(s, nows[k - 1]); }
  }

  lemma Adjacent(s: Timing, dues: seq<Time>, nows: seq<Time>, k: nat)
    requires Punctual(s, dues, nows) && k + 1 < |dues|
    ensures PeriodOf(s, dues[k + 1]).start == PeriodOf(s, dues[k]).end
  {
    DuesOccur(s, dues, nows, k);
    hide NextRun, Occurs, PeriodOf;
    DispatchedInTimeTiles(s, dues[k], nows[k]);
  }

  lemma {:induction false} PeriodsInOrder(s: Timing, dues: seq<Time>, nows: seq<Time>, i: nat, j: nat)
    requires Punctual(s, dues, nows) && i < j < |dues|
    ensures PeriodOf(s, dues[i]).end <= PeriodOf(s, dues[j]).start
  {
    hide Punctual, PeriodOf;
    Adjacent(s, dues, nows, j - 1);
    if i < j - 1 {
      PeriodsInOrder(s, dues, nows, i, j - 1);
      PeriodShape(s, dues[j - 1]);
    }
  }

  /**
   Reports tile time: every instant from the first period's start to the last one's end lies in exactly one
   period.
   */
  lemma {:induction false} ReportsTileTime(s: Timing, dues: seq<Time>, nows: seq<Time>, t: Time)
    requires Punctual(s, dues, nows)
    requires PeriodOf(s, dues[0]).start <= t < PeriodOf(s, dues[|dues| - 1]).end
    ensures exists k :: 0 <= k < |dues| && Covers(s, dues[k], t)
                         && forall j :: 0 <= j < |dues| && Covers(s, dues[j], t) ==> j == k
  {
    var k := CoveredBy(s, dues, nows, |dues| - 1, t);
    forall j | 0 <= j < |dues| && Covers(s, dues[j], t) ensures j == k {
      if j < k { PeriodsInOrder(s, dues, nows, j, k); } else if k < j { PeriodsInOrder(s, dues, nows, k, j); }
    }
    hide Punctual, PeriodOf;
  }

  lemma {:induction false} CoveredBy(s: Timing, dues: seq<Time>, nows: seq<Time>, n: nat, t: Time) returns (k: nat)
    requires Punctual(s, dues, nows) && n < |dues|
    requires PeriodOf(s, dues[0]).start <= t < PeriodOf(s, dues[n]).end
    ensures k <= n && Covers(s, dues[k], t)
  {
    hide PeriodOf;
    if PeriodOf(s, dues[n]).start <= t {
      k := n;
    } else {
      Adjacent(s, dues, nows, n - 1);
      hide Punctual;
      k := CoveredBy(s, dues, nows, n - 1, t);
    }
  }
}
