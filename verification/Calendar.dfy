/** The date arithmetic of the range picker, against a day count that uses
    nothing but the lengths of months and years. */
module Calendar {

  datatype Date = Date(year: int, month: int, day: int)

  // ------------------------------------------------------------------ the picker

  /** Integer division as the picker's language has it, truncating toward zero. */
  function Quot(a: int, b: int): int
    requires b > 0
  {
    if a >= 0 then a / b else -((-a) / b)
  }

  /** modBy, which is never negative for a positive modulus. */
  function ModBy(b: int, a: int): int
    requires b > 0
  {
    a % b
  }

  function ToInt(d: Date): int { d.year * 10000 + d.month * 100 + d.day }

  predicate InRange(lo: Date, hi: Date, d: Date) { ToInt(d) >= ToInt(lo) && ToInt(d) <= ToInt(hi) }

  function Order(a: Date, b: Date): (Date, Date) { if ToInt(a) <= ToInt(b) then (a, b) else (b, a) }

  predicate IsLeap(y: int) { (ModBy(4, y) == 0 && ModBy(100, y) != 0) || ModBy(400, y) == 0 }

  function DaysInMonth(y: int, m: int): int {
    match m
    case 2 => if IsLeap(y) then 29 else 28
    case 4 => 30
    case 6 => 30
    case 9 => 30
    case 11 => 30
    case _ => 31
  }

  /** Day of the week, Monday being 0, by Sakamoto's method. */
  function WeekdayMon(d: Date): int {
    var y := if d.month < 3 then d.year - 1 else d.year;
    var sun0 := ModBy(7, y + Quot(y, 4) - Quot(y, 100) + Quot(y, 400) + MonthTerm(d.month) + d.day);
    ModBy(7, sun0 + 6)
  }

  /** The table of the method; a month outside it falls back to 0. */
  function MonthTerm(m: int): int {
    if 1 <= m <= 12 then [0, 3, 2, 5, 0, 3, 5, 1, 4, 6, 2, 4][m - 1] else 0
  }

  function MonthTotal(d: Date): int { d.year * 12 + (d.month - 1) }

  function ShiftMonth(delta: int, d: Date): Date {
    var total := MonthTotal(d) + delta;
    Date(Quot(total, 12), ModBy(12, total) + 1, 1)
  }

  /** The cells of a month's grid: blanks up to the weekday of the first, then the days. */
  function GridColumn(y: int, m: int, day: int): int
  {
    (WeekdayMon(Date(y, m, 1)) + (day - 1)) % 7
  }

  // --------------------------------------------------------------- the day count

  predicate ValidDate(d: Date) {
    d.year >= 1 && 1 <= d.month <= 12 && 1 <= d.day <= DaysInMonth(d.year, d.month)
  }

  function DaysInYear(y: int): int { if IsLeap(y) then 366 else 365 }

  /** Days from 0001-01-01 to the first of January of year y. */
  function DaysBeforeYear(y: int): int
    requires y >= 1
    decreases y
  {
    if y == 1 then 0 else DaysBeforeYear(y - 1) + DaysInYear(y - 1)
  }

  /** Days of year y before month m. */
  function DaysBeforeMonth(y: int, m: int): int
    requires 1 <= m <= 13
    decreases m
  {
    if m == 1 then 0 else DaysBeforeMonth(y, m - 1) + DaysInMonth(y, m - 1)
  }

  /** Days since 0001-01-01, a Monday in the proleptic calendar. */
  function DayNumber(d: Date): int
    requires d.year >= 1 && 1 <= d.month <= 12
  {
    DaysBeforeYear(d.year) + DaysBeforeMonth(d.year, d.month) + d.day - 1
  }

  function NextDay(d: Date): Date {
    if d.day < DaysInMonth(d.year, d.month) then Date(d.year, d.month, d.day + 1)
    else if d.month < 12 then Date(d.year, d.month + 1, 1)
    else Date(d.year + 1, 1, 1)
  }

  // --------------------------------------------------------- months inside a year

  /** Days before each month, written out. */
  function MonthOffset(m: int, leap: int): int
    requires 1 <= m <= 13
  {
    [0, 31, 59 + leap, 90 + leap, 120 + leap, 151 + leap, 181 + leap, 212 + leap,
     243 + leap, 273 + leap, 304 + leap, 334 + leap, 365 + leap][m - 1]
  }

  function LeapDay(y: int): int { if IsLeap(y) then 1 else 0 }

  lemma {:induction false} MonthsAddUp(y: int, m: int)
    requires 1 <= m <= 13
    ensures DaysBeforeMonth(y, m) == MonthOffset(m, LeapDay(y))
    decreases m
  {
    if m > 1 {
      MonthsAddUp(y, m - 1);
    }
  }

  lemma YearIsItsMonths(y: int)
    ensures DaysBeforeMonth(y, 13) == DaysInYear(y)
  {
    MonthsAddUp(y, 13);
  }

  // ------------------------------------------------------------ the count is a count

  /** The first day is number 0, and each next day is one more: the day number
      really counts the days of the calendar. */
  lemma DayNumberCounts(d: Date)
    requires ValidDate(d)
    ensures ValidDate(NextDay(d))
    ensures DayNumber(NextDay(d)) == DayNumber(d) + 1
    ensures DayNumber(Date(1, 1, 1)) == 0
  {
    YearIsItsMonths(d.year);
    if d.day == DaysInMonth(d.year, d.month) && d.month == 12 {
      assert DaysBeforeMonth(d.year, 13) == DaysBeforeMonth(d.year, 12) + DaysInMonth(d.year, 12);
    }
  }

  // -------------------------------------------------------------------- weekdays

  /** Leap years up to year y. */
  function LeapsThrough(y: int): int
    requires y >= 0
  {
    y / 4 - y / 100 + y / 400
  }

  lemma Step4(y: int)
    ensures y / 4 == (y - 1) / 4 + if y % 4 == 0 then 1 else 0
  {
  }

  lemma Step100(y: int)
    ensures y / 100 == (y - 1) / 100 + if y % 100 == 0 then 1 else 0
  {
  }

  lemma Step400(y: int)
    ensures y / 400 == (y - 1) / 400 + if y % 400 == 0 then 1 else 0
  {
  }

  lemma Multiples(y: int)
    ensures y % 400 == 0 ==> y % 100 == 0
    ensures y % 100 == 0 ==> y % 4 == 0
  {
    if y % 400 == 0 {
      Of100(4 * (y / 400));
    }
    if y % 100 == 0 {
      Of4(25 * (y / 100));
    }
  }

  lemma Of100(q: int)
    ensures (100 * q) % 100 == 0
  {
  }

  lemma Of4(q: int)
    ensures (4 * q) % 4 == 0
  {
  }

  lemma LeapStep(y: int)
    requires y >= 1
    ensures LeapsThrough(y) == LeapsThrough(y - 1) + LeapDay(y)
  {
    Step4(y);
    Step100(y);
    Step400(y);
    Multiples(y);
  }

  lemma {:induction false} YearsAddUp(y: int)
    requires y >= 1
    ensures DaysBeforeYear(y) == 365 * (y - 1) + LeapsThrough(y - 1)
    decreases y
  {
    if y > 1 {
      YearsAddUp(y - 1);
      LeapStep(y - 1);
    }
  }

  /** The table of the method makes up, modulo 7, for the days before a month. */
  lemma TableFits(m: int, leap: int)
    requires 1 <= m <= 12
    ensures MonthTerm(m) - MonthOffset(m, leap) + (if m < 3 then 0 else leap)
         == 7 * [0, -4, -9, -13, -18, -22, -26, -31, -35, -39, -44, -48][m - 1] + (if m < 3 then 0 else 6)
  {
  }

  lemma SameResidue(a: int, b: int, k: int)
    requires a == b + 7 * k
    ensures a % 7 == b % 7
  {
  }

  /** The picker's weekday is the day count modulo seven. */
  lemma WeekdayIsDayCount(d: Date)
    requires d.year >= 1 && 1 <= d.month <= 12
    ensures WeekdayMon(d) == DayNumber(d) % 7
  {
    YearsAddUp(d.year);
    MonthsAddUp(d.year, d.month);
    LeapStep(d.year);
    var leap := LeapDay(d.year);
    TableFits(d.month, leap);
    var y := if d.month < 3 then d.year - 1 else d.year;
    var c := [0, -4, -9, -13, -18, -22, -26, -31, -35, -39, -44, -48][d.month - 1];
    var sum := y + LeapsThrough(y) + MonthTerm(d.month) + d.day;
    hide MonthOffset, MonthTerm, DaysBeforeYear, DaysBeforeMonth;
    if d.month < 3 {
      assert sum + 6 == DayNumber(d) + 7 * (c + 1 - 52 * (d.year - 1));
      SameResidue(sum + 6, DayNumber(d), c + 1 - 52 * (d.year - 1));
    } else {
      assert sum + 6 == DayNumber(d) + 7 * (c + 54 - 52 * d.year);
      SameResidue(sum + 6, DayNumber(d), c + 54 - 52 * d.year);
    }
    SameResidue(sum % 7 + 6, sum + 6, -(sum / 7));
  }

  /** Consecutive days fall on consecutive weekdays, and the calendar grid puts
      every day of a month in the column of its weekday. */
  lemma WeekdaysAdvance(d: Date)
    requires ValidDate(d)
    ensures WeekdayMon(NextDay(d)) == (WeekdayMon(d) + 1) % 7
    ensures GridColumn(d.year, d.month, d.day) == WeekdayMon(d)
  {
    DayNumberCounts(d);
    WeekdayIsDayCount(d);
    WeekdayIsDayCount(NextDay(d));
    WeekdayIsDayCount(Date(d.year, d.month, 1));
    var first := DayNumber(Date(d.year, d.month, 1));
    assert first == DayNumber(d) - (d.day - 1);
    hide WeekdayMon, DayNumber, NextDay;
    SameResidue(first % 7 + (d.day - 1), DayNumber(d), -(first / 7));
    SameResidue(DayNumber(d) % 7 + 1, DayNumber(d) + 1, -(DayNumber(d) / 7));
  }

  // -------------------------------------------------------------------- ordering

  lemma {:induction false} YearsIncrease(a: int, b: int)
    requires 1 <= a < b
    ensures DaysBeforeYear(a) + DaysInYear(a) <= DaysBeforeYear(b)
    decreases b
  {
    if a < b - 1 {
      YearsIncrease(a, b - 1);
    }
  }

  lemma {:induction false} MonthsIncrease(y: int, a: int, b: int)
    requires 1 <= a < b <= 13
    ensures DaysBeforeMonth(y, a) + DaysInMonth(y, a) <= DaysBeforeMonth(y, b)
    decreases b
  {
    if a < b - 1 {
      MonthsIncrease(y, a, b - 1);
    }
  }

  lemma WithinYear(d: Date)
    requires ValidDate(d)
    ensures DaysBeforeYear(d.year) <= DayNumber(d) < DaysBeforeYear(d.year) + DaysInYear(d.year)
  {
    MonthsIncrease(d.year, d.month, 13);
    YearIsItsMonths(d.year);
    MonthsAddUp(d.year, d.month);
  }

  lemma EarlierIsLess(a: Date, b: Date)
    requires ValidDate(a) && ValidDate(b)
    requires a.year < b.year
          || (a.year == b.year && (a.month < b.month || (a.month == b.month && a.day < b.day)))
    ensures DayNumber(a) < DayNumber(b) && ToInt(a) < ToInt(b)
  {
    if a.year < b.year {
      WithinYear(a);
      WithinYear(b);
      YearsIncrease(a.year, b.year);
    } else if a.month < b.month {
      MonthsIncrease(a.year, a.month, b.month);
    }
  }

  /** The integer key orders valid dates exactly as the day count does. */
  lemma KeyOrdersDates(a: Date, b: Date)
    requires ValidDate(a) && ValidDate(b)
    ensures ToInt(a) < ToInt(b) <==> DayNumber(a) < DayNumber(b)
    ensures ToInt(a) == ToInt(b) <==> a == b
    ensures DayNumber(a) == DayNumber(b) <==> a == b
  {
    if a != b {
      if a.year < b.year || (a.year == b.year && (a.month < b.month || (a.month == b.month && a.day < b.day))) {
        EarlierIsLess(a, b);
      } else {
        EarlierIsLess(b, a);
      }
    }
  }

  /** A committed range holds its two ends in calendar order, and highlights
      exactly the days between them. */
  lemma RangeIsInterval(a: Date, b: Date, d: Date)
    requires ValidDate(a) && ValidDate(b) && ValidDate(d)
    ensures var (lo, hi) := Order(a, b);
      && (lo, hi) in {(a, b), (b, a)} && DayNumber(lo) <= DayNumber(hi)
      && Order(b, a) == (lo, hi)
      && (InRange(lo, hi, d) <==> DayNumber(lo) <= DayNumber(d) <= DayNumber(hi))
      && InRange(lo, hi, a) && InRange(lo, hi, b)
  {
    KeyOrdersDates(a, b);
    KeyOrdersDates(a, d);
    KeyOrdersDates(b, d);
    KeyOrdersDates(b, a);
    KeyOrdersDates(d, a);
    KeyOrdersDates(d, b);
  }

  // ---------------------------------------------------------------- month shifts

  /** A shift yields the first day of a month; from a non-negative total it is
      the month delta months away. */
  lemma ShiftIsMonthsAway(delta: int, d: Date)
    ensures var r := ShiftMonth(delta, d);
      && 1 <= r.month <= 12 && r.day == 1
      && (MonthTotal(r) == MonthTotal(d) + delta <==>
            MonthTotal(d) + delta >= 0 || (MonthTotal(d) + delta) % 12 == 0)
      && (MonthTotal(r) != MonthTotal(d) + delta ==> MonthTotal(r) == MonthTotal(d) + delta + 12)
  {
    QuotRem(MonthTotal(d) + delta);
  }

  /** Truncated quotient and never-negative remainder, recombined. */
  lemma QuotRem(t: int)
    ensures 0 <= ModBy(12, t) < 12
    ensures Quot(t, 12) * 12 + ModBy(12, t) == if t >= 0 || t % 12 == 0 then t else t + 12
  {
    if t < 0 {
      assert -t == 12 * ((-t) / 12) + (-t) % 12;
    }
  }

  lemma QuotMonotone(t: int)
    ensures Quot(t, 12) == Quot(t + 12, 12) <==> -12 < t < 0
  {
    QuotRem(t);
    QuotRem(t + 12);
    assert (t + 12) % 12 == t % 12;
  }

  /** Two shifts are one shift of the sum, exactly when the first lands on a
      non-negative month total, or on a whole negative year, or the sum lands
      in the year around zero that truncation maps to itself. */
  lemma ShiftsCompose(a: int, b: int, d: Date)
    ensures ShiftMonth(b, ShiftMonth(a, d)) == ShiftMonth(a + b, d)
      <==> var t := MonthTotal(d) + a; t >= 0 || t % 12 == 0 || -12 < t + b < 0
  {
    var t := MonthTotal(d) + a;
    ShiftIsMonthsAway(a, d);
    var u := MonthTotal(ShiftMonth(a, d)) + b;
    if u != t + b {
      QuotMonotone(t + b);
      assert (t + b + 12) % 12 == (t + b) % 12;
    }
  }

  /** One step back from January of year 0 shows December of year 0, not of
      year -1, and a step forward then lands a year late. */
  lemma ShiftFailsBelowZero()
    ensures ShiftMonth(-1, Date(0, 1, 1)) == Date(0, 12, 1)
    ensures ShiftMonth(1, ShiftMonth(-1, Date(0, 1, 1))) == Date(1, 1, 1) != ShiftMonth(0, Date(0, 1, 1))
  {
  }

  /** Navigating away and back returns to the first of the month. */
  lemma ShiftBack(n: int, d: Date)
    requires 1 <= d.month <= 12 && d.year >= 0 && MonthTotal(d) + n >= 0
    ensures ShiftMonth(-n, ShiftMonth(n, d)) == Date(d.year, d.month, 1)
  {
    ShiftsCompose(n, -n, d);
  }
}
