/** Counting the days of a time value (lib/time.c). */
module Days {

  type int32 = x: int | -0x8000_0000 <= x < 0x8000_0000
  type int64 = x: int | -0x8000_0000_0000_0000 <= x < 0x8000_0000_0000_0000

  /** Nanoseconds of a day. */
  const DAY: int := 24 * 60 * 60 * 1_000_000_000

  /** Division and remainder of C: toward zero. */
  function Quot(a: int, b: int): int
    requires b > 0
  {
    if a >= 0 then a / b else -(-a / b)
  }

  function Rem(a: int, b: int): int
    requires b > 0
  {
    a - b * Quot(a, b)
  }

  function Abs(x: int): nat {
    if x < 0 then -x else x
  }

  predicate IsLeapYear(year: nat) {
    year % 4 == 0 && (year % 100 != 0 || year % 400 == 0)
  }

  function DaysInMonth(year: nat, month: nat): nat
    requires month < 12
  {
    if month in {0, 2, 4, 6, 7, 9, 11} then 31
    else if month == 1 then if IsLeapYear(year) then 29 else 28
    else 30
  }

  /** The days of the first `n` months from the start of year 0. */
  function MonthDays(n: nat): nat {
    if n == 0 then 0 else MonthDays(n - 1) + DaysInMonth((n - 1) / 12, (n - 1) % 12)
  }

  /** Months before year 0 count down. */
  function Days(months: int): int {
    if months < 0 then 0 - MonthDays(-months) else MonthDays(months)
  }

  /** The days of a year before each of its months, February with 28 days. */
  const STARTS: seq<nat> := [0, 31, 59, 90, 120, 151, 181, 212, 243, 273, 304, 334]

  /** The days from the start of year 0 to the start of month `m` of year `y`, without
      counting: 365 a year, one for each leap year before `y`, year 0 among them, and in
      the year begun those before the month. */
  function DaysBefore(y: nat, m: nat): int
    requires m < 12
  {
    365 * y + (y + 3) / 4 - (y + 99) / 100 + (y + 399) / 400
    + STARTS[m] + if m >= 2 && y % 4 == 0 && (y % 100 != 0 || y % 400 == 0) then 1 else 0
  }

  /** time_days_imp: the months from the start of year 0, forward or back, and the whole
      days in the nanoseconds. */
  method TimeDays(months: int32, ns: int64) returns (days: int64)
    ensures var counted := DaysBefore(Abs(months) / 12, Abs(months) % 12);
            var whole := Abs(ns) / 86_400_000_000_000;
            days == (if months >= 0 then counted else 0 - counted) + if ns >= 0 then whole else 0 - whole
  {
    hide MonthDays, DaysInMonth, DaysBefore, Quot;
    CountsTo(Abs(months));
    var yMax, mMax := Abs(Quot(months, 12)), Abs(Rem(months, 12));
    Parts(months);
    var y: nat, m: nat, sum: int := 0, 0, 0;
    NoMonths();
    while y < yMax || m < mMax
      invariant y <= yMax && m < 12 && mMax < 12 && (y == yMax ==> m <= mMax)
      invariant sum == MonthDays(12 * y + m)
      decreases yMax - y, mMax + 12 - m
    {
      MonthAt(y, m);
      sum := sum + DaysInMonth(y, m);
      if m == 11 {
        y := y + 1;
        m := 0;
      } else {
        m := m + 1;
      }
    }
    MonthsBound(12 * y + m);
    if months < 0 { sum := sum * -1; }
    WholeDays(ns);
    days := sum + Quot(ns, DAY);
  }

  lemma Parts(months: int32)
    ensures Abs(Rem(months, 12)) < 12 && 12 * Abs(Quot(months, 12)) + Abs(Rem(months, 12)) == Abs(months)
  {
  }

  lemma NoMonths()
    ensures MonthDays(0) == 0
  {
  }

  lemma WholeDays(ns: int64)
    ensures -200_000 < Quot(ns, DAY) < 200_000
    ensures var whole := Abs(ns) / 86_400_000_000_000; Quot(ns, DAY) == if ns >= 0 then whole else 0 - whole
  {
  }

  lemma MonthAt(y: nat, m: nat)
    requires m < 12
    ensures MonthDays(12 * y + m + 1) == MonthDays(12 * y + m) + DaysInMonth(y, m)
  {
    assert (12 * y + m) / 12 == y && (12 * y + m) % 12 == m;
  }

  lemma {:induction false} MonthsBound(n: nat)
    ensures MonthDays(n) <= 31 * n
  {
    if n > 0 { MonthsBound(n - 1); }
  }

  // ---- closed form ---------------------------------------------------------

  function CeilDiv(a: nat, b: nat): nat
    requires b > 0
  {
    (a + b - 1) / b
  }

  /** The leap years before year `y`, year 0 among them. */
  function LeapYears(y: nat): int {
    CeilDiv(y, 4) - CeilDiv(y, 100) + CeilDiv(y, 400)
  }

  lemma CeilStep4(y: nat)
    ensures CeilDiv(y + 1, 4) == CeilDiv(y, 4) + if y % 4 == 0 then 1 else 0
  {
  }

  lemma CeilStep100(y: nat)
    ensures CeilDiv(y + 1, 100) == CeilDiv(y, 100) + if y % 100 == 0 then 1 else 0
  {
  }

  lemma CeilStep400(y: nat)
    ensures CeilDiv(y + 1, 400) == CeilDiv(y, 400) + if y % 400 == 0 then 1 else 0
  {
  }

  lemma Centuries(y: nat)
    ensures (y % 400 == 0 ==> y % 100 == 0) && (y % 100 == 0 ==> y % 4 == 0)
  {
    var (k, l) := (4 * (y / 400), 25 * (y / 100));
    if y % 400 == 0 { assert y == 100 * k; }
    if y % 100 == 0 { assert y == 4 * l; }
  }

  lemma LeapStep(y: nat)
    ensures LeapYears(y + 1) == LeapYears(y) + if IsLeapYear(y) then 1 else 0
  {
    hide CeilDiv;
    CeilStep4(y);
    CeilStep100(y);
    CeilStep400(y);
    Centuries(y);
  }

  lemma YearDays(y: nat)
    ensures MonthDays(12 * (y + 1)) == MonthDays(12 * y) + 365 + if IsLeapYear(y) then 1 else 0
  {
    hide MonthDays;
    MonthAt(y, 0); MonthAt(y, 1); MonthAt(y, 2); MonthAt(y, 3); MonthAt(y, 4); MonthAt(y, 5);
    MonthAt(y, 6); MonthAt(y, 7); MonthAt(y, 8); MonthAt(y, 9); MonthAt(y, 10); MonthAt(y, 11);
  }

  lemma NoYears()
    ensures LeapYears(0) == 0
  {
  }

  /** Whole years: 365 days each, and one for every leap year among them. */
  lemma {:induction false} WholeYears(y: nat)
    ensures MonthDays(12 * y) == 365 * y + LeapYears(y)
  {
    hide MonthDays, LeapYears;
    if y == 0 {
      NoMonths();
      NoYears();
    } else {
      WholeYears(y - 1);
      YearDays(y - 1);
      LeapStep(y - 1);
    }
  }

  /** The days of a month in the table are those the loop adds. */
  lemma MonthOfTable(y: nat, m: nat)
    requires m < 11
    ensures DaysBefore(y, m + 1) == DaysBefore(y, m) + DaysInMonth(y, m)
  {
  }

  lemma LastMonth(y: nat)
    ensures DaysBefore(y, 0) == 365 * y + LeapYears(y)
    ensures DaysBefore(y + 1, 0) == DaysBefore(y, 11) + DaysInMonth(y, 11)
  {
    LeapStep(y);
  }

  /** Adding up month by month gives the closed form. */
  lemma {:induction false} MonthsAddUp(y: nat, m: nat)
    requires m < 12
    ensures MonthDays(12 * y + m) == DaysBefore(y, m)
  {
    hide MonthDays, DaysBefore, DaysInMonth, LeapYears;
    if m == 0 {
      WholeYears(y);
      LastMonth(y);
    } else {
      MonthsAddUp(y, m - 1);
      MonthAt(y, m - 1);
      MonthOfTable(y, m - 1);
    }
  }

  lemma CountsTo(n: nat)
    ensures MonthDays(n) == DaysBefore(n / 12, n % 12)
  {
    MonthsAddUp(n / 12, n % 12);
    assert 12 * (n / 12) + n % 12 == n;
  }

  /** The day count in closed form: 365 days a year, one more for each leap year, and in
      the year begun the days before the month by the calendar.  Counting back gives the
      same with a minus. */
  lemma DayCount(y: nat, m: nat)
    requires m < 12
    ensures var leap := if m >= 2 && y % 4 == 0 && (y % 100 != 0 || y % 400 == 0) then 1 else 0;
            var starts := [0, 31, 59, 90, 120, 151, 181, 212, 243, 273, 304, 334];
            Days(12 * y + m) == 365 * y + (y + 3) / 4 - (y + 99) / 100 + (y + 399) / 400 + starts[m] + leap
    ensures Days(-12 * y - m) == 0 - Days(12 * y + m)
  {
    MonthsAddUp(y, m);
  }
}
