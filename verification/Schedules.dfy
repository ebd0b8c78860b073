/** Scheduled backups: when a schedule fires. */
module Schedules {
  import opened Wrappers
  import opened Calendar
  import opened CalendarLaws
  import opened Division

  const MINUTE := 60_000
  const GUARD := 90_000

  datatype Schedule = Schedule(server: nat, minuteUtc: int, daysMask: nat, enabled: bool, lastRunAt: Option<nat>)

  /** getUTCHours() * 60 + getUTCMinutes() */
  function MinuteOfDay(t: nat): nat {
    var (hours, minutes) := (t / 3_600_000 % 24, t / MINUTE % 60);
    hours * 60 + minutes
  }

  lemma MinuteIsQuotient(t: nat)
    ensures MinuteOfDay(t) == (t % DAY) / MINUTE < 1440
  {
    var (d, h, m) := (t / DAY, t % DAY / 3_600_000, t % DAY / MINUTE);
    DivUnique(t, 3_600_000, d * 24 + h);
    DivUnique(t, MINUTE, d * 1440 + m);
    DivUnique(m, 60, h);
    DivUnique(d * 24 + h, 24, d);
    DivUnique(d * 1440 + m, 60, d * 24 + h);
  }

  /** getUTCDay(): 1 January of year 0 was a Saturday. */
  function Weekday(t: nat): nat {
    (Day(t) + 6) % 7
  }

  function Pow2(n: nat): (r: nat)
    ensures r > 0
  {
    if n == 0 then 1 else 2 * Pow2(n - 1)
  }

  /** daysMask & (1 << weekday) */
  predicate OnDay(mask: nat, weekday: nat) {
    mask / Pow2(weekday) % 2 == 1
  }

  /** A mask of one bit stands for one day of the week, and 127 for all of them. */
  lemma MaskDays(d: nat, e: nat)
    requires d < 7 && e < 7
    ensures (OnDay(Pow2(d), e) <==> d == e) && OnDay(127, d)
  {
    assert Pow2(1) == 2 && Pow2(2) == 4 && Pow2(3) == 8;
    assert Pow2(4) == 16 && Pow2(5) == 32 && Pow2(6) == 64;
    var p, q := Pow2(d), Pow2(e);
    assert p in {1, 2, 4, 8, 16, 32, 64} && q in {1, 2, 4, 8, 16, 32, 64};
  }

  /** The mask of a choice of days, the first of them being day 0. */
  function Mask(days: seq<bool>): nat {
    if days == [] then 0 else (if days[0] then 1 else 0) + 2 * Mask(days[1..])
  }

  lemma Halves(b: nat, m: nat, p: nat)
    requires b < 2 && p > 0
    ensures (b + 2 * m) / (2 * p) == m / p
  {
    var q, r := m / p, m % p;
    assert m == q * p + r;
    assert b + 2 * m == q * (2 * p) + (b + 2 * r);
    DivUnique(b + 2 * m, 2 * p, q);
  }

  /** A mask stands for exactly the days whose powers of two it is the sum of. */
  lemma {:induction false} MaskIsSum(days: seq<bool>, d: nat)
    requires d < |days|
    ensures OnDay(Mask(days), d) <==> days[d]
  {
    if d == 0 {
      assert (if days[0] then 1 else 0) + 2 * Mask(days[1..]) == Mask(days);
    } else {
      MaskIsSum(days[1..], d - 1);
      Halves(if days[0] then 1 else 0, Mask(days[1..]), Pow2(d - 1));
    }
  }

  /** Monday to Friday. */
  lemma WorkingDays(d: nat)
    requires d < 7
    ensures OnDay(62, d) <==> 1 <= d <= 5
  {
    var days := [false, true, true, true, true, true, false];
    MaskIsSum(days, d);
    assert days[1..] == [true, true, true, true, true, false];
    assert Mask([false]) == 0 && Mask([true, false]) == 1 && Mask([true, true, false]) == 3;
    assert Mask([true, true, true, false]) == 7 && Mask([true, true, true, true, false]) == 15;
    assert Mask([true, true, true, true, true, false]) == 31;
  }

  /** The weekday is counted on from the epoch, 1 January 1970, which was a Thursday; Sunday is day 0. */
  lemma WeekdayFromEpoch(t: nat)
    ensures Weekday(t) == (Day(t) - FirstOf(1970, 0) + 4) % 7
  {
    Epoch();
  }

  /** The schedule asks for a run in the minute of `t`. */
  predicate Scheduled(s: Schedule, t: nat) {
    s.enabled && s.minuteUtc == MinuteOfDay(t) && OnDay(s.daysMask, Weekday(t))
  }

  predicate Fires(s: Schedule, now: nat, suspended: bool) {
    Scheduled(s, now) && !suspended && (s.lastRunAt.Some? ==> now - s.lastRunAt.value >= GUARD)
  }

  function Passed(s: Schedule, now: nat, suspended: bool): Schedule {
    if Fires(s, now, suspended) then s.(lastRunAt := Some(now)) else s
  }

  function FiringUpto(schedules: seq<Schedule>, now: nat, suspended: nat -> bool, k: nat): seq<nat>
    requires k <= |schedules|
  {
    if k == 0 then [] else
      FiringUpto(schedules, now, suspended, k - 1)
      + (if Fires(schedules[k - 1], now, suspended(schedules[k - 1].server)) then [k - 1] else [])
  }

  /** How many of the backups that were started worked. */
  function Working(ids: seq<nat>, works: nat -> bool): nat {
    if ids == [] then 0 else
      Working(ids[..|ids| - 1], works) + (if works(ids[|ids| - 1]) then 1 else 0)
  }

  lemma OneMoreWorks(ids: seq<nat>, id: nat, works: nat -> bool)
    ensures Working(ids + [id], works) == Working(ids, works) + (if works(id) then 1 else 0)
    ensures ids + [] == ids
  {
    assert (ids + [id])[..|ids|] == ids;
  }

  class Runner {
    var schedules: seq<Schedule>
    /** The schedules a backup was started for, in order. */
    var started: seq<nat>

    constructor (schedules: seq<Schedule>)
      ensures this.schedules == schedules && started == []
    {
      this.schedules, started := schedules, [];
    }

    /** One worker pass; a backup that fails counts as a run all the same. */
    method RunScheduledBackups(now: nat, suspended: nat -> bool, works: nat -> bool) returns (run: nat)
      modifies this
      ensures |schedules| == |old(schedules)|
      ensures forall i :: 0 <= i < |schedules| ==>
        schedules[i] == Passed(old(schedules)[i], now, suspended(old(schedules)[i].server))
      ensures started == old(started) + FiringUpto(old(schedules), now, suspended, |schedules|)
      ensures run == Working(FiringUpto(old(schedules), now, suspended, |schedules|), works)
    {
      run := 0;
      var minuteUtc := MinuteOfDay(now);
      for i := 0 to |schedules|
        invariant |schedules| == |old(schedules)|
        invariant forall k :: 0 <= k < i ==>
          schedules[k] == Passed(old(schedules)[k], now, suspended(old(schedules)[k].server))
        invariant forall k :: i <= k < |schedules| ==> schedules[k] == old(schedules)[k]
        invariant started == old(started) + FiringUpto(old(schedules), now, suspended, i)
        invariant run == Working(FiringUpto(old(schedules), now, suspended, i), works)
      {
        var s := schedules[i];
        OneMoreWorks(FiringUpto(old(schedules), now, suspended, i), i, works);
        if !s.enabled || s.minuteUtc != minuteUtc {
          continue;
        }
        if !OnDay(s.daysMask, Weekday(now)) {
          continue;
        }
        if suspended(s.server) {
          continue;
        }
        if s.lastRunAt.Some? && now - s.lastRunAt.value < GUARD {
          continue;
        }
        started := started + [i];
        if works(i) {
          run := run + 1;
        }
        schedules := schedules[i := s.(lastRunAt := Some(now))];
      }
    }
  }

  // ---------- Runs ----------

  /** A worker pass, and whether the server was suspended at the time. */
  datatype Pass = Pass(at: nat, suspended: bool)

  ghost predicate InOrder(passes: seq<Pass>) {
    forall i, j :: 0 <= i < j < |passes| ==> passes[i].at <= passes[j].at
  }

  /** The schedule after the first `k` passes. */
  function After(s: Schedule, passes: seq<Pass>, k: nat): (r: Schedule)
    requires k <= |passes|
    ensures r == s.(lastRunAt := r.lastRunAt)
  {
    if k == 0 then s else Passed(After(s, passes, k - 1), passes[k - 1].at, passes[k - 1].suspended)
  }

  predicate FiresAt(s: Schedule, passes: seq<Pass>, i: nat)
    requires i < |passes|
  {
    Fires(After(s, passes, i), passes[i].at, passes[i].suspended)
  }

  /** Where `lastRunAt` comes from. */
  lemma {:induction false} LastRun(s: Schedule, passes: seq<Pass>, k: nat)
    requires InOrder(passes) && k <= |passes|
    ensures var last := After(s, passes, k).lastRunAt;
      last == s.lastRunAt || exists i :: 0 <= i < k && FiresAt(s, passes, i) && last == Some(passes[i].at)
  {
    if k != 0 {
      LastRun(s, passes, k - 1);
      assert FiresAt(s, passes, k - 1) || After(s, passes, k) == After(s, passes, k - 1);
    }
  }

  /** The minute of a day is shorter than the guard, and the next day's is farther away than it. */
  lemma SameMinute(t: nat, u: nat)
    requires t <= u && MinuteOfDay(t) == MinuteOfDay(u)
    ensures Day(t) == Day(u) <==> u - t < GUARD
  {
    MinuteIsQuotient(t);
    MinuteIsQuotient(u);
  }

  /**
   A schedule fires only within the sixty seconds of its minute of a day whose bit is set, for a
   server that is not suspended.
   */
  lemma OnlyInItsMinute(s: Schedule, passes: seq<Pass>, i: nat)
    requires i < |passes| && FiresAt(s, passes, i)
    ensures var (t, day) := (passes[i].at, Day(passes[i].at));
      && day * DAY + s.minuteUtc * MINUTE <= t < day * DAY + (s.minuteUtc + 1) * MINUTE
      && OnDay(s.daysMask, (day + 6) % 7) && s.enabled && !passes[i].suspended
  {
    MinuteIsQuotient(passes[i].at);
  }

  lemma {:induction false} RunIsRemembered(s: Schedule, passes: seq<Pass>, i: nat, k: nat)
    requires InOrder(passes) && i < k <= |passes| && FiresAt(s, passes, i)
    ensures After(s, passes, k).lastRunAt.Some? && passes[i].at <= After(s, passes, k).lastRunAt.value
  {
    if i < k - 1 {
      RunIsRemembered(s, passes, i, k - 1);
    }
  }

  /** It never fires twice on a day. */
  lemma NeverTwiceADay(s: Schedule, passes: seq<Pass>, i: nat, j: nat)
    requires InOrder(passes) && i < j < |passes| && FiresAt(s, passes, i) && FiresAt(s, passes, j)
    ensures Day(passes[i].at) != Day(passes[j].at)
  {
    RunIsRemembered(s, passes, i, j);
    SameMinute(passes[i].at, passes[j].at);
  }

  /** A pass at which nothing but the guard can keep the schedule from firing. */
  predicate Asks(s: Schedule, p: Pass) {
    Scheduled(s, p.at) && !p.suspended && (s.lastRunAt.Some? ==> p.at - s.lastRunAt.value >= GUARD)
  }

  lemma AskedIsFired(s: Schedule, passes: seq<Pass>, i: nat) returns (j: nat)
    requires InOrder(passes) && i < |passes| && Asks(s, passes[i])
    ensures j <= i && FiresAt(s, passes, j) && Day(passes[j].at) == Day(passes[i].at)
  {
    j := i;
    if !FiresAt(s, passes, i) {
      LastRun(s, passes, i);
      j :| 0 <= j < i && FiresAt(s, passes, j) && After(s, passes, i).lastRunAt == Some(passes[j].at);
      SameMinute(passes[j].at, passes[i].at);
    }
  }

  lemma FiredIsAsked(s: Schedule, passes: seq<Pass>, i: nat)
    requires InOrder(passes) && i < |passes| && FiresAt(s, passes, i)
    ensures Asks(s, passes[i])
    decreases i
  {
    LastRun(s, passes, i);
    if After(s, passes, i).lastRunAt != s.lastRunAt {
      var j :| 0 <= j < i && FiresAt(s, passes, j) && After(s, passes, i).lastRunAt == Some(passes[j].at);
      FiredIsAsked(s, passes, j);
    }
  }

  /**
   Once a day: on any day the schedule fires if and only if one of the day's passes falls in its
   minute, on one of its weekdays, with the server not suspended and the run before these passes,
   if there was one, at least the guard away; and then it fires exactly once.
   */
  lemma OnceADay(s: Schedule, passes: seq<Pass>, day: nat)
    requires InOrder(passes)
    ensures (exists j :: 0 <= j < |passes| && Day(passes[j].at) == day && FiresAt(s, passes, j))
       <==> (exists i :: 0 <= i < |passes| && Day(passes[i].at) == day && Asks(s, passes[i]))
    ensures forall i, j :: 0 <= i < j < |passes| && FiresAt(s, passes, i) && FiresAt(s, passes, j) ==>
              Day(passes[i].at) != day || Day(passes[j].at) != day
  {
    if i :| 0 <= i < |passes| && Day(passes[i].at) == day && Asks(s, passes[i]) {
      var j := AskedIsFired(s, passes, i);
    }
    if j :| 0 <= j < |passes| && Day(passes[j].at) == day && FiresAt(s, passes, j) {
      FiredIsAsked(s, passes, j);
    }
    forall i, j | 0 <= i < j < |passes| && FiresAt(s, passes, i) && FiresAt(s, passes, j)
      ensures Day(passes[i].at) != Day(passes[j].at)
    {
      NeverTwiceADay(s, passes, i, j);
    }
  }

  /** A schedule moved to a minute just after a run misses that day, whatever passes there are in its minute. */
  lemma MovedTooSoon(s: Schedule, passes: seq<Pass>, day: nat)
    requires InOrder(passes) && s.lastRunAt.Some?
    requires forall i :: 0 <= i < |passes| && Day(passes[i].at) == day && Scheduled(s, passes[i].at) ==>
               passes[i].at - s.lastRunAt.value < GUARD
    ensures forall j :: 0 <= j < |passes| && Day(passes[j].at) == day ==> !FiresAt(s, passes, j)
  {
    OnceADay(s, passes, day);
  }
}
