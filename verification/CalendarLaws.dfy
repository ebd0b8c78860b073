/** The calendar in closed form, and what the arithmetic of the Date object makes of it. */
module CalendarLaws {
  // A date's day number follows from the leap rule and the 153 days of every five months from March on.

  import opened Calendar

  // ---------- Years ----------

  /** Multiples of 4, 100 and 400 below `y`, counting as the leap rule does. */
  function Leaps(y: nat): int {
    (y + 3) / 4 - (y + 99) / 100 + (y + 399) / 400
  }

  lemma OnByFour(y: nat)
    ensures (y + 4) / 4 == y / 4 + 1 && (y + 3) / 4 == y / 4 + (if y % 4 == 0 then 0 else 1)
  {
  }

  lemma OnByHundred(y: nat)
    ensures (y + 100) / 100 == y / 100 + 1 && (y + 99) / 100 == y / 100 + (if y % 100 == 0 then 0 else 1)
  {
  }

  lemma OnByFourHundred(y: nat)
    ensures (y + 400) / 400 == y / 400 + 1 && (y + 399) / 400 == y / 400 + (if y % 400 == 0 then 0 else 1)
  {
  }

  lemma FourTimes(q: nat)
    ensures 4 * q % 4 == 0
  {
  }

  lemma HundredTimes(q: nat)
    ensures 100 * q % 100 == 0
  {
  }

  lemma HundredsAreFours(y: nat)
    requires y % 100 == 0
    ensures y % 4 == 0
  {
    FourTimes(25 * (y / 100));
  }

  lemma FourHundredsAreHundreds(y: nat)
    requires y % 400 == 0
    ensures y % 100 == 0
  {
    HundredTimes(4 * (y / 400));
  }

  lemma LeapsNext(y: nat)
    ensures Leaps(y + 1) == Leaps(y) + if IsLeap(y) then 1 else 0
    ensures Leaps(y + 1) == y / 4 - y / 100 + y / 400 + 1
  {
    OnByFour(y);
    OnByHundred(y);
    OnByFourHundred(y);
    if y % 400 == 0 { FourHundredsAreHundreds(y); }
    if y % 100 == 0 { HundredsAreFours(y); }
    LeapsUnfold(y + 1, y);
    LeapsUnfold(y, y);
  }

  lemma LeapsUnfold(z: nat, y: nat)
    requires z == y || z == y + 1
    ensures Leaps(z) ==
      if z == y then (y + 3) / 4 - (y + 99) / 100 + (y + 399) / 400
      else (y + 4) / 4 - (y + 100) / 100 + (y + 400) / 400
  {
  }

  /** Days before 1 January: 365 a year, and one for every year before that 4 divides, less 100, and 400. */
  lemma {:induction false} YearStartClosed(y: nat)
    ensures YearStart(y) == 365 * y + Leaps(y)
  {
    if y != 0 {
      YearStartClosed(y - 1);
      LeapsNext(y - 1);
    }
  }

  // ---------- Months ----------

  /** Day number of 1 March. */
  function March(y: int): int {
    60 + 365 * y + y / 4 - y / 100 + y / 400
  }

  /** Day number of the first of a month, the months counted from January. */
  function FirstOf(y: int, m: nat): int
    requires m < 12
  {
    if m < 2 then March(y - 1) + (153 * (m + 10) + 2) / 5 else March(y) + (153 * (m - 2) + 2) / 5
  }

  lemma FromMarch(y: nat, k: nat)
    requires k < 10
    ensures MonthOffset(y, k + 2) == MonthOffset(y, 2) + (153 * k + 2) / 5
  {
    if k != 0 {
      FromMarch(y, k - 1);
      assert MonthOffset(y, k + 2) == MonthOffset(y, k + 1) + MonthLength(y, k + 1);
    }
  }

  lemma MarchClosed(y: nat)
    ensures YearStart(y) + MonthOffset(y, 2) == March(y)
  {
    FromMarchToTheEnd(y);
    YearStartClosed(y + 1);
    LeapsNext(y);
  }

  lemma FromMarchToTheEnd(y: nat)
    ensures YearStart(y + 1) == YearStart(y) + MonthOffset(y, 2) + 306
  {
    FromMarch(y, 9);
    MonthsFillTheYear(y);
    assert MonthOffset(y, 12) == MonthOffset(y, 11) + 31;
  }

  lemma WinterClosed(y: nat, m: nat)
    requires m < 2
    ensures YearStart(y) + MonthOffset(y, m) == March(y - 1) + (153 * (m + 10) + 2) / 5
  {
    assert MonthOffset(y, m) == 31 * m;
    assert (153 * (m + 10) + 2) / 5 == 306 + 31 * m;
    if y != 0 {
      MarchClosed(y - 1);
      FromMarchToTheEnd(y - 1);
    }
  }

  /** The day number of the first of every month of every year. */
  lemma FirstOfClosed(y: nat, m: nat)
    requires m < 12
    ensures YearStart(y) + MonthOffset(y, m) == FirstOf(y, m)
  {
    if m < 2 {
      WinterClosed(y, m);
    } else {
      MarchClosed(y);
      FromMarch(y, m - 2);
    }
  }

  /** The month after, and the first of it. */
  function Next(y: nat, m: nat): (nat, nat) {
    if m == 11 then (y + 1, 0) else (y, m + 1)
  }

  function FirstAfter(y: nat, m: nat): int
    requires m < 12
  {
    FirstOf(Next(y, m).0, Next(y, m).1)
  }

  lemma MonthFills(y: nat, m: nat)
    requires m < 12
    ensures FirstAfter(y, m) == FirstOf(y, m) + MonthLength(y, m)
  {
    FirstOfClosed(y, m);
    FirstOfClosed(Next(y, m).0, Next(y, m).1);
    MonthsFillTheYear(y);
  }

  // ---------- Dates ----------

  /** Date `d` of month `m` of year `y` exists, and is this day. */
  predicate IsDate(day: nat, y: nat, m: nat, d: nat) {
    m < 12 && 1 <= d && day == FirstOf(y, m) + d - 1 && day < FirstAfter(y, m)
  }

  /** The date that is read off a day is its date in closed form. */
  lemma DateOfDay(day: nat)
    ensures IsDate(day, Year(day), Month(day), Date(day))
  {
    FirstOfClosed(Year(day), Month(day));
    MonthFills(Year(day), Month(day));
  }

  lemma {:induction false} YearsAscend(y: nat, z: nat)
    requires y <= z
    ensures YearStart(y) <= YearStart(z)
    decreases z
  {
    if y < z { YearsAscend(y, z - 1); }
  }

  lemma {:induction false} MonthsAscend(y: nat, m: nat, k: nat)
    requires m <= k <= 12
    ensures MonthOffset(y, m) <= MonthOffset(y, k)
    decreases k
  {
    if m < k { MonthsAscend(y, m, k - 1); }
  }

  lemma InItsYear(y: nat, m: nat)
    requires m < 12
    ensures YearStart(y) <= FirstOf(y, m) && FirstAfter(y, m) <= YearStart(y + 1)
  {
    FirstOfClosed(y, m);
    MonthFills(y, m);
    MonthsAscend(y, m + 1, 12);
    MonthsFillTheYear(y);
  }

  lemma OneYear(day: nat, y: nat, z: nat)
    requires YearStart(y) <= day < YearStart(y + 1) && YearStart(z) <= day < YearStart(z + 1)
    ensures y == z
  {
    if y < z { YearsAscend(y + 1, z); }
    if z < y { YearsAscend(z + 1, y); }
  }

  lemma OneMonth(y: nat, m: nat, k: nat, rest: nat)
    requires m < 12 && k < 12
    requires MonthOffset(y, m) <= rest < MonthOffset(y, m + 1) && MonthOffset(y, k) <= rest < MonthOffset(y, k + 1)
    ensures m == k
  {
    if m < k { MonthsAscend(y, m + 1, k); }
    if k < m { MonthsAscend(y, k + 1, m); }
  }

  lemma ReadOff(day: nat, y: nat, m: nat, d: nat)
    requires IsDate(day, y, m, d)
    ensures YearStart(y) <= day < YearStart(y + 1)
    ensures MonthOffset(y, m) <= day - YearStart(y) < MonthOffset(y, m + 1)
    ensures d == day - YearStart(y) - MonthOffset(y, m) + 1
  {
    InItsYear(y, m);
    FirstOfClosed(y, m);
    MonthFills(y, m);
  }

  /** No day has two dates. */
  lemma OneDate(day: nat, y: nat, m: nat, d: nat)
    requires IsDate(day, y, m, d)
    ensures Year(day) == y && Month(day) == m && Date(day) == d
  {
    DateOfDay(day);
    ReadOff(day, y, m, d);
    ReadOff(day, Year(day), Month(day), Date(day));
    OneYear(day, y, Year(day));
    OneMonth(y, m, Month(day), day - YearStart(y));
  }

  /** 1 January 1970 is the day the times of the Date object count from. */
  lemma Epoch()
    ensures FirstOf(1970, 0) == 719528 && IsDate(719528, 1970, 0, 1)
  {
  }

  // ---------- The next month ----------

  /** The same date of the next month; where that month is too short, as many days into the one after as it lacks. */
  predicate SameDateNextMonth(day: nat, later: nat) {
    var ((y, m), d) := (Next(Year(day), Month(day)), Date(day));
    var length := FirstAfter(y, m) - FirstOf(y, m);
    if d <= length then IsDate(later, y, m, d)
    else IsDate(later, Next(y, m).0, Next(y, m).1, d - length)
  }

  lemma MonthOn(day: nat)
    ensures SameDateNextMonth(day, day + MonthLength(Year(day), Month(day)))
  {
    var (y, m) := Next(Year(day), Month(day));
    DateOfDay(day);
    MonthFills(Year(day), Month(day));
    MonthLengths(y, m);
    MonthLengths(Next(y, m).0, Next(y, m).1);
  }

  lemma MonthLengths(y: nat, m: nat)
    requires m < 12
    ensures 28 <= FirstAfter(y, m) - FirstOf(y, m) <= 31
  {
    MonthFills(y, m);
  }

  /** Setting the month to the next one keeps the date and the time of day. */
  lemma SetToNextMonth(t: nat)
    ensures var later := SetUTCMonth(t, Month(Day(t)) + 1);
      later >= 0 && SameDateNextMonth(Day(t), Day(later)) && later % DAY == t % DAY
  {
    var n := DaysInMonthOf(t);
    NextMonth(t);
    assert (t + n * DAY) / DAY == t / DAY + n && (t + n * DAY) % DAY == t % DAY;
    MonthOn(Day(t));
  }
}
