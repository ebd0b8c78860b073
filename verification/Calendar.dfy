/** The part of the ECMAScript Date object that billing uses, in UTC. */
module Calendar {
  // Times are milliseconds and days are counted from 1 January of year 0 of the proleptic Gregorian
  // calendar; months are 0 to 11.

  const DAY := 86_400_000

  predicate IsLeap(y: nat) {
    y % 4 == 0 && (y % 100 != 0 || y % 400 == 0)
  }

  function YearLength(y: nat): nat {
    if IsLeap(y) then 366 else 365
  }

  function MonthLength(y: nat, m: nat): nat
    requires m < 12
  {
    if m == 1 then (if IsLeap(y) then 29 else 28)
    else if m == 3 || m == 5 || m == 8 || m == 10 then 30
    else 31
  }

  /** Days before 1 January of year `y`. */
  function YearStart(y: nat): nat {
    if y == 0 then 0 else YearStart(y - 1) + YearLength(y - 1)
  }

  /** Days of year `y` before the first of month `m`. */
  function MonthOffset(y: nat, m: nat): nat
    requires m <= 12
  {
    if m == 0 then 0 else MonthOffset(y, m - 1) + MonthLength(y, m - 1)
  }

  lemma MonthsFillTheYear(y: nat)
    ensures MonthOffset(y, 12) == YearLength(y)
  {
    assert MonthOffset(y, 1) == 31;
    assert MonthOffset(y, 3) == 62 + MonthLength(y, 1);
    assert MonthOffset(y, 5) == MonthOffset(y, 3) + 61;
    assert MonthOffset(y, 7) == MonthOffset(y, 5) + 61;
    assert MonthOffset(y, 9) == MonthOffset(y, 7) + 61;
    assert MonthOffset(y, 11) == MonthOffset(y, 9) + 61;
  }

  /** The year of a day number, searching up from year `y`. */
  function YearFrom(day: nat, y: nat): (r: nat)
    requires YearStart(y) <= day
    ensures YearStart(r) <= day < YearStart(r + 1)
    decreases day - YearStart(y)
  {
    if day < YearStart(y + 1) then y else YearFrom(day, y + 1)
  }

  function MonthFrom(y: nat, rest: nat, m: nat): (r: nat)
    requires m < 12 && MonthOffset(y, m) <= rest < YearLength(y)
    ensures r < 12 && MonthOffset(y, r) <= rest < MonthOffset(y, r + 1)
    decreases 12 - m
  {
    MonthsFillTheYear(y);
    if rest < MonthOffset(y, m + 1) then m else MonthFrom(y, rest, m + 1)
  }

  function Year(day: nat): nat {
    YearFrom(day, 0)
  }

  /** getUTCMonth. */
  function Month(day: nat): (m: nat)
    ensures m < 12
  {
    MonthFrom(Year(day), day - YearStart(Year(day)), 0)
  }

  /** getUTCDate. */
  function Date(day: nat): (d: nat)
    ensures 1 <= d <= MonthLength(Year(day), Month(day))
    ensures day == YearStart(Year(day)) + MonthOffset(Year(day), Month(day)) + d - 1
  {
    day - YearStart(Year(day)) - MonthOffset(Year(day), Month(day)) + 1
  }

  /** MakeDay: months beyond December carry into the year, dates beyond the month's end into the next month. */
  function MakeDay(y: nat, m: nat, d: nat): int {
    YearStart(y + m / 12) + MonthOffset(y + m / 12, m % 12) + d - 1
  }

  function Day(t: nat): nat {
    t / DAY
  }

  /** setUTCMonth, keeping date and time of day. */
  function SetUTCMonth(t: nat, m: nat): int {
    MakeDay(Year(Day(t)), m, Date(Day(t))) * DAY + t % DAY
  }

  /** setUTCDate, keeping the time of day. */
  function SetUTCDate(t: nat, d: nat): int {
    MakeDay(Year(Day(t)), Month(Day(t)), d) * DAY + t % DAY
  }

  /** The number of days in the month that `t` falls in. */
  function DaysInMonthOf(t: nat): (n: nat)
    ensures 28 <= n <= 31
  {
    MonthLength(Year(Day(t)), Month(Day(t)))
  }

  lemma DaysAdd(t: nat, day: int, n: nat)
    requires day == Day(t) + n
    ensures day * DAY + t % DAY == t + n * DAY
  {
  }

  lemma NextMonthsDay(day: nat)
    ensures MakeDay(Year(day), Month(day) + 1, Date(day)) == day + MonthLength(Year(day), Month(day))
  {
    var m := Month(day);
    if m == 11 {
      MonthsFillTheYear(Year(day));
      assert (m + 1) / 12 == 1 && (m + 1) % 12 == 0;
    } else {
      assert (m + 1) / 12 == 0 && (m + 1) % 12 == m + 1;
    }
  }

  lemma LaterDay(day: nat, n: nat)
    ensures MakeDay(Year(day), Month(day), Date(day) + n) == day + n
  {
    var m := Month(day);
    assert m / 12 == 0 && m % 12 == m;
  }

  /**
   Going to the next month adds the length of the month one is in, even when the next month is
   too short for the date and it overflows: 31 January goes to 2 or 3 March.
   */
  lemma NextMonth(t: nat)
    ensures SetUTCMonth(t, Month(Day(t)) + 1) == t + DaysInMonthOf(t) * DAY
  {
    NextMonthsDay(Day(t));
    DaysAdd(t, MakeDay(Year(Day(t)), Month(Day(t)) + 1, Date(Day(t))), DaysInMonthOf(t));
  }

  /** Setting the date past the end of the month adds whole days. */
  lemma LaterDate(t: nat, n: nat)
    ensures SetUTCDate(t, Date(Day(t)) + n) == t + n * DAY
  {
    LaterDay(Day(t), n);
    DaysAdd(t, MakeDay(Year(Day(t)), Month(Day(t)), Date(Day(t)) + n), n);
  }
}
