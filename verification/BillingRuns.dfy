/** Whole runs: servers arrive, are billed, pay or do not, and leave. */
module BillingRuns {
  // The worker passes in between; the clock never goes back.

  import opened Wrappers
  import opened Calendar
  import opened Billing
  import opened BillingSafety

  /**
   `last` is the time of the latest pass.  `tried` are the servers a pass has tried to suspend so far,
   and `noticed` those it really has suspended.
   */
  datatype World = World(t: Tables, clock: nat, last: nat, tried: set<nat>, noticed: set<nat>)

  /** `broken` are the invoices for which the stop call of the pass breaks. */
  datatype Event =
    | Arrive(at: nat)
    | First(at: nat, sid: nat)
    | Pass(at: nat, broken: set<nat>)
    | Pay(at: nat, i: nat, ref: string)
    | Cancel(at: nat, sid: nat)

  /** A server's first invoice is issued before any pass has billed it. */
  predicate Enabled(w: World, e: Event) {
    && w.clock <= e.at
    && match e
       case Arrive(_) => true
       case First(_, sid) => w.t.Live(sid) && !w.t.HasInvoice(sid)
       case Pass(_, _) => true
       case Pay(_, i, _) => i < |w.t.invoices|
       case Cancel(_, sid) => w.t.Live(sid)
  }

  /** The servers with an invoice that lapses at `now`. */
  ghost function Tried(t: Tables, terms: Terms, now: nat): set<nat> {
    set sid: nat | sid < |t.servers| && Suspending(Renewed(t, terms, now), sid, now, {})
  }

  predicate Down(t: Tables, sid: nat) {
    t.Live(sid) && t.servers[sid].value.suspended
  }

  /** The servers that are suspended once job 2 is done. */
  ghost function Noticed(t: Tables, terms: Terms, now: nat, broken: set<nat>): set<nat> {
    set sid: nat | sid < |t.servers| && Down(Lapsed(Renewed(t, terms, now), now, broken), sid)
  }

  ghost function AfterPass(w: World, at: nat, broken: set<nat>, terms: Terms): World {
    World(PassOver(w.t, terms, at, broken), at, at,
          w.tried + Tried(w.t, terms, at), w.noticed + Noticed(w.t, terms, at, broken))
  }

  ghost function Step(w: World, e: Event, terms: Terms): World
    requires Enabled(w, e)
  {
    match e
    case Arrive(at) => w.(t := w.t.(servers := w.t.servers + [Some(Srv(at, false))]), clock := at)
    case First(at, sid) => w.(t := w.t.(invoices := w.t.invoices + [Issued(sid, at, terms)]), clock := at)
    case Pass(at, broken) => AfterPass(w, at, broken, terms)
    case Pay(at, i, ref) => w.(t := PaidWith(w.t, i, ref), clock := at)
    case Cancel(at, sid) => w.(t := Removed(w.t, sid), clock := at)
  }

  /**
   What a theorem asks of a run: whether passes come at most `gap` apart, whether no paid invoice is
   paid again under a new reference, and whether stop calls may break.  A payment notice may always
   be repeated.
   */
  datatype Regime = Regime(gap: Option<nat>, once: bool, breaks: bool) {
    predicate Admits(w: World, e: Event) {
      match e
      case Pass(at, broken) => (gap.Some? ==> at <= w.last + gap.value) && (broken != {} ==> breaks)
      case Pay(_, i, ref) => once ==> Used(w.t, ref) || (i < |w.t.invoices| && w.t.invoices[i].Unpaid())
      case _ => true
    }

    predicate Within(r: Regime) {
      (r.gap.Some? ==> gap == r.gap) && (r.once ==> once) && (breaks ==> r.breaks)
    }
  }

  const AnyRun := Regime(None, false, true)

  function AnyTime(breaks: bool): Regime {
    Regime(None, false, breaks)
  }

  function InTime(gap: nat, breaks: bool): Regime {
    Regime(Some(gap), false, breaks)
  }

  function InOrder(gap: nat, breaks: bool): Regime {
    Regime(Some(gap), true, breaks)
  }

  ghost predicate Opening(w: World) {
    w.t == Tables([], []) && w.last == w.clock && w.tried == w.noticed == {}
  }

  ghost predicate Reaches(regime: Regime, w: World, es: seq<Event>, terms: Terms, v: World)
    decreases |es|
  {
    if es == [] then v == w
    else
      && Enabled(w, es[0]) && regime.Admits(w, es[0])
      && Reaches(regime, Step(w, es[0], terms), es[1..], terms, v)
  }

  ghost predicate Reachable(regime: Regime, v: World, terms: Terms) {
    exists w, es :: Opening(w) && Reaches(regime, w, es, terms, v)
  }

  lemma {:induction false} ReachesThen(regime: Regime, w: World, es: seq<Event>, terms: Terms, u: World, e: Event)
    requires Reaches(regime, w, es, terms, u) && Enabled(u, e) && regime.Admits(u, e)
    ensures Reaches(regime, w, es + [e], terms, Step(u, e, terms))
    decreases |es|
  {
    if es == [] {
      assert Reaches(regime, Step(u, e, terms), [], terms, Step(u, e, terms));
    } else {
      ReachesThen(regime, Step(w, es[0], terms), es[1..], terms, u, e);
      assert (es + [e])[1..] == es[1..] + [e];
    }
  }

  lemma ReachableThen(regime: Regime, u: World, terms: Terms, e: Event)
    requires Reachable(regime, u, terms) && Enabled(u, e) && regime.Admits(u, e)
    ensures Reachable(regime, Step(u, e, terms), terms)
  {
    var w, es :| Opening(w) && Reaches(regime, w, es, terms, u);
    ReachesThen(regime, w, es, terms, u, e);
  }

  lemma {:induction false} StricterReaches(
    strict: Regime, loose: Regime, w: World, es: seq<Event>, terms: Terms, v: World)
    requires strict.Within(loose) && Reaches(strict, w, es, terms, v)
    ensures Reaches(loose, w, es, terms, v)
    decreases |es|
  {
    if es != [] {
      StricterReaches(strict, loose, Step(w, es[0], terms), es[1..], terms, v);
    }
  }

  /** What a stricter regime reaches a looser one reaches too. */
  lemma StricterReachable(strict: Regime, loose: Regime, v: World, terms: Terms)
    requires strict.Within(loose) && Reachable(strict, v, terms)
    ensures Reachable(loose, v, terms)
  {
    var w, es :| Opening(w) && Reaches(strict, w, es, terms, v);
    StricterReaches(strict, loose, w, es, terms, v);
  }

  // ---------- Months ----------

  lemma RenewalsAreMonthLong(t: Tables, terms: Terms, now: nat)
    requires MonthLong(t)
    ensures MonthLong(Renewed(t, terms, now))
  {
  }

  lemma PassKeepsMonthLong(t: Tables, terms: Terms, now: nat, broken: set<nat>)
    requires MonthLong(t)
    ensures MonthLong(PassOver(t, terms, now, broken))
  {
    RenewalsAreMonthLong(t, terms, now);
    SameSpansEverywhere(Renewed(t, terms, now), PassOver(t, terms, now, broken));
  }

  lemma SameSpansEverywhere(t: Tables, u: Tables)
    requires MonthLong(t) && |u.invoices| == |t.invoices|
    requires forall i :: 0 <= i < |t.invoices| ==>
      u.invoices[i].start == t.invoices[i].start && u.invoices[i].end == t.invoices[i].end
    ensures MonthLong(u)
  {
  }

  lemma FirstKeepsMonthLong(t: Tables, terms: Terms, sid: nat, at: nat)
    requires MonthLong(t)
    ensures MonthLong(t.(invoices := t.invoices + [Issued(sid, at, terms)]))
  {
    assert Issued(sid, at, terms).end == EndOf(at);
  }

  lemma PayKeepsMonthLong(t: Tables, i: nat, ref: string)
    requires MonthLong(t) && i < |t.invoices|
    ensures MonthLong(PaidWith(t, i, ref))
  {
    SameSpansEverywhere(t, PaidWith(t, i, ref));
  }

  lemma CancelKeepsMonthLong(t: Tables, sid: nat)
    requires MonthLong(t) && t.Live(sid)
    ensures MonthLong(Removed(t, sid))
  {
    SameSpansEverywhere(t, Removed(t, sid));
  }

  lemma StepKeepsMonthLong(w: World, e: Event, terms: Terms)
    requires MonthLong(w.t) && Enabled(w, e)
    ensures MonthLong(Step(w, e, terms).t)
  {
    match e
    case Arrive(_) =>
    case First(at, sid) => FirstKeepsMonthLong(w.t, terms, sid, at);
    case Pass(at, broken) => PassKeepsMonthLong(w.t, terms, at, broken);
    case Pay(_, i, ref) => PayKeepsMonthLong(w.t, i, ref);
    case Cancel(_, sid) => CancelKeepsMonthLong(w.t, sid);
  }

  lemma {:induction false} RunKeepsMonthLong(regime: Regime, w: World, es: seq<Event>, terms: Terms, v: World)
    requires MonthLong(w.t) && Reaches(regime, w, es, terms, v)
    ensures MonthLong(v.t)
    decreases |es|
  {
    if es != [] {
      StepKeepsMonthLong(w, es[0], terms);
      RunKeepsMonthLong(regime, Step(w, es[0], terms), es[1..], terms, v);
    }
  }

  /** On every run every period is as long as the month it starts in: it ends on the same date of the next. */
  lemma PeriodsAreMonths(v: World, i: nat, terms: Terms)
    requires Reachable(AnyRun, v, terms) && i < |v.t.invoices|
    ensures v.t.invoices[i].end == v.t.invoices[i].start + DaysInMonthOf(v.t.invoices[i].start) * DAY
    ensures ToNextMonth(v.t.invoices[i].start, v.t.invoices[i].end)
  {
    var w, es :| Opening(w) && Reaches(AnyRun, w, es, terms, v);
    RunKeepsMonthLong(AnyRun, w, es, terms, v);
    assert v.t.invoices[i].end == EndOf(v.t.invoices[i].start);
    EndsNextMonth(v.t.invoices[i].start);
  }

  // ---------- Tiling ----------

  ghost predicate InOneRow(w: World) {
    && w.t.Linked()
    && forall sid: nat :: w.t.Live(sid) ==> Tiles(w.t, sid) && Begun(w.t, sid, w.clock)
  }

  lemma ArrivalIsSame(w: World, at: nat, terms: Terms, sid: nat)
    requires w.clock <= at && w.t.Live(sid)
    ensures Same(w.t, Step(w, Arrive(at), terms).t, sid)
  {
  }

  lemma FirstIsSame(w: World, at: nat, sid: nat, terms: Terms, other: nat)
    requires Enabled(w, First(at, sid)) && other != sid && w.t.Live(other)
    ensures Same(w.t, Step(w, First(at, sid), terms).t, other)
  {
    assert Step(w, First(at, sid), terms).t.invoices[|w.t.invoices|].server == Some(sid);
  }

  lemma CancelIsSame(w: World, at: nat, sid: nat, terms: Terms, other: nat)
    requires Enabled(w, Cancel(at, sid)) && other != sid && w.t.Live(other)
    ensures Same(w.t, Step(w, Cancel(at, sid), terms).t, other)
  {
  }

  lemma FirstAdds(w: World, at: nat, sid: nat, terms: Terms)
    requires Enabled(w, First(at, sid))
    ensures Adds(w.t, Step(w, First(at, sid), terms).t, sid, |w.t.invoices|, at, terms)
    ensures LatestEnd(w.t, sid).None?
  {
  }

  lemma StepKeepsLinks(w: World, e: Event, terms: Terms)
    requires w.t.Linked() && Enabled(w, e)
    ensures Step(w, e, terms).t.Linked()
  {
    var u := Step(w, e, terms).t;
    match e
    case Pass(at, broken) => PassKeepsLinks(w.t, terms, at, broken);
    case _ =>
      forall k | 0 <= k < |u.invoices| && u.invoices[k].server.Some? ensures u.Live(u.invoices[k].server.value) {
        assert k < |w.t.invoices| ==> u.invoices[k].server == w.t.invoices[k].server;
      }
  }

  lemma StepKeepsTiles(w: World, e: Event, terms: Terms, sid: nat)
    requires InOneRow(w) && Enabled(w, e) && w.t.Live(sid) && Step(w, e, terms).t.Live(sid)
    ensures var u := Step(w, e, terms).t; Tiles(u, sid) && Begun(u, sid, e.at)
  {
    var u := Step(w, e, terms).t;
    match e
    case Arrive(at) =>
      ArrivalIsSame(w, at, terms, sid);
      SameKeepsTiles(w.t, u, sid);
    case First(at, s) =>
      if s == sid {
        FirstAdds(w, at, sid, terms);
        AddingTiles(w.t, u, sid, |w.t.invoices|, at, terms);
      } else {
        FirstIsSame(w, at, s, terms, sid);
        SameKeepsTiles(w.t, u, sid);
      }
    case Pass(at, broken) => PassKeepsTiles(w.t, terms, sid, at, broken);
    case Pay(at, i, ref) =>
      PaymentKeepsSpans(w.t, sid, i, ref);
      SpansKeepTiles(w.t, u, sid);
      SpansKeepBegun(w.t, u, sid, at);
    case Cancel(at, s) =>
      CancelIsSame(w, at, s, terms, sid);
      SameKeepsTiles(w.t, u, sid);
  }

  lemma StepKeepsInOneRow(w: World, e: Event, terms: Terms)
    requires InOneRow(w) && Enabled(w, e)
    ensures InOneRow(Step(w, e, terms))
  {
    var v := Step(w, e, terms);
    StepKeepsLinks(w, e, terms);
    forall sid: nat | v.t.Live(sid) ensures Tiles(v.t, sid) && Begun(v.t, sid, v.clock) {
      if w.t.Live(sid) {
        StepKeepsTiles(w, e, terms, sid);
      }
    }
  }

  lemma {:induction false} RunKeepsInOneRow(regime: Regime, w: World, es: seq<Event>, terms: Terms, v: World)
    requires InOneRow(w) && Reaches(regime, w, es, terms, v)
    ensures InOneRow(v)
    decreases |es|
  {
    if es != [] {
      StepKeepsInOneRow(w, es[0], terms);
      RunKeepsInOneRow(regime, Step(w, es[0], terms), es[1..], terms, v);
    }
  }

  lemma {:induction false} SomePeriod(t: Tables, sid: nat, j: nat, first: nat, moment: nat) returns (i: nat)
    requires t.Live(sid) && Tiles(t, sid) && first <= j < |t.invoices|
    requires t.invoices[j].Of(sid) && t.invoices[first].Of(sid)
    requires t.invoices[first].start <= moment < t.invoices[j].end
    ensures i < |t.invoices| && Billed(t, sid, i, moment)
    decreases j
  {
    if t.invoices[j].start <= moment {
      i := j;
    } else {
      assert Follows(t, sid, j);
      var k :| 0 <= k < j && t.invoices[k].Of(sid) && t.invoices[k].end == t.invoices[j].start;
      assert first <= k;
      i := SomePeriod(t, sid, k, first, moment);
    }
  }

  /**
   The periods tile time on every run, with whatever settings, passes, broken calls and payments: from the start
   of a server's first period, which is no earlier than the server, to the end of its latest, every
   moment is billed by exactly one invoice.
   */
  lemma PeriodsTileTime(v: World, sid: nat, terms: Terms, first: nat, j: nat, moment: nat) returns (i: nat)
    requires Reachable(AnyRun, v, terms) && v.t.Live(sid) && first <= j < |v.t.invoices|
    requires v.t.invoices[first].Of(sid) && v.t.invoices[j].Of(sid)
    requires v.t.invoices[first].start <= moment < v.t.invoices[j].end
    ensures v.t.servers[sid].value.createdAt <= v.t.invoices[first].start
    ensures i < |v.t.invoices| && Billed(v.t, sid, i, moment)
    ensures forall k :: 0 <= k < |v.t.invoices| && Billed(v.t, sid, k, moment) ==> k == i
  {
    var w, es :| Opening(w) && Reaches(AnyRun, w, es, terms, v);
    RunKeepsInOneRow(AnyRun, w, es, terms, v);
    i := SomePeriod(v.t, sid, j, first, moment);
  }

  /**
   Nothing runs free: however late the pass, an active server has an invoice for the moment of the
   pass afterwards; given a grace shorter than a month, counting the retention if stop calls may break.
   */
  lemma NothingRunsFree(v: World, at: nat, broken: set<nat>, sid: nat, terms: Terms, breaks: bool)
    requires Brisk(terms, breaks) && Reachable(AnyTime(breaks), v, terms)
    requires v.clock <= at && (broken != {} ==> breaks)
    requires var u := PassOver(v.t, terms, at, broken); u.Live(sid) && !u.servers[sid].value.suspended
    ensures BilledNow(PassOver(v.t, terms, at, broken), sid, at)
  {
    var w, es :| Opening(w) && Reaches(AnyTime(breaks), w, es, terms, v);
    RunKeepsInOneRow(AnyTime(breaks), w, es, terms, v);
    assert v.t.Live(sid);
    PassBills(v.t, terms, sid, at, broken);
  }
}
