/** How far the billing guarantees reach: for each, the exact limits on the settings and on the time between passes. */
module BillingLimits {
  import opened Wrappers
  import opened Calendar
  import opened Billing
  import opened BillingSafety
  import opened BillingRuns
  import opened BillingTheorems
  import opened BillingNotice

  /** 1 January and 1 February of year 1. */
  const JANUARY := 366 * DAY
  const FEBRUARY := 397 * DAY

  lemma JanuaryIsLong()
    ensures EndOf(JANUARY) == FEBRUARY
  {
    assert YearStart(1) == 366 && YearStart(2) == 731;
    assert Year(366) == 1 && Month(366) == 0;
  }

  lemma FebruaryIsShort()
    ensures EndOf(FEBRUARY) == FEBRUARY + 28 * DAY
  {
    assert YearStart(1) == 366 && YearStart(2) == 731;
    assert Year(397) == 1;
    assert MonthOffset(1, 1) == 31 && MonthOffset(1, 2) == 59;
    assert Month(397) == 1;
  }

  /** A server that arrives, and is first billed, at `start`. */
  function Begins(terms: Terms, start: nat): World {
    World(Tables([Some(Srv(start, false))], [Issued(0, start, terms)]), start, start, {}, {})
  }

  lemma Beginning(regime: Regime, terms: Terms, start: nat)
    ensures Reachable(regime, Begins(terms, start), terms)
  {
    var w := World(Tables([], []), start, start, {}, {});
    assert Reaches(regime, w, [], terms, w);
    ReachableThen(regime, w, terms, Arrive(start));
    var u := World(Tables([Some(Srv(start, false))], []), start, start, {}, {});
    assert Step(w, Arrive(start), terms) == u;
    ReachableThen(regime, u, terms, First(start, 0));
    assert Step(u, First(start, 0), terms).t.invoices == Begins(terms, start).t.invoices;
  }

  // ---------- Invoices that nobody pays and no pass suspends for ----------

  ghost predicate AllOwed(invoices: seq<Invoice>, due: nat) {
    forall i :: 0 <= i < |invoices| ==> invoices[i].Of(0) && invoices[i].Unpaid() && due <= invoices[i].due
  }

  ghost predicate AllOpen(invoices: seq<Invoice>) {
    forall i :: 0 <= i < |invoices| ==> invoices[i].status.Open?
  }

  /**
   `k` after 1 February that server is active, and its invoices are all unpaid, none due before the
   first one; they are open, and no pass has tried anything, as long as the grace runs.
   */
  ghost predicate Neglected(w: World, terms: Terms, k: nat) {
    && w.t.servers == [Some(Srv(FEBRUARY, false))] && w.clock == w.last == FEBRUARY + k && w.noticed == {}
    && FirstOf(w.t.invoices, terms) && (k < 28 * DAY ==> |w.t.invoices| == 1)
    && AllOwed(w.t.invoices, FEBRUARY + terms.Grace())
    && (k <= terms.Grace() ==> w.tried == {} && AllOpen(w.t.invoices))
  }

  ghost predicate FirstOf(invoices: seq<Invoice>, terms: Terms) {
    && |invoices| >= 1 && invoices[0].start == FEBRUARY && invoices[0].end == FEBRUARY + 28 * DAY
    && invoices[0].due == FEBRUARY + terms.Grace()
  }

  lemma NotDueYet(w: World, terms: Terms, k: nat, now: nat)
    requires Neglected(w, terms, k) && k < 28 * DAY && now < FEBRUARY + 28 * DAY
    ensures DueServers(w.t, now) == []
  {
    assert w.t.invoices[0].Of(0) && !IsDue(w.t, 0, now);
  }

  lemma OnlyOneIsDue(w: World, terms: Terms, k: nat, now: nat, i: nat)
    requires Neglected(w, terms, k) && now >= FEBRUARY && i < |DueServers(w.t, now)|
    ensures DueServers(w.t, now)[i] == 0 && StartOf(w.t, 0, now) >= FEBRUARY
  {
    assert IsDue(w.t, DueServers(w.t, now)[i], now) && w.t.invoices[0].Of(0);
  }

  /** Renewal adds open invoices that are due later. */
  lemma RenewNeglected(w: World, terms: Terms, k: nat, now: nat)
    requires Neglected(w, terms, k) && now >= FEBRUARY
    ensures var u := Renewed(w.t, terms, now);
      && u.servers == w.t.servers && FirstOf(u.invoices, terms) && AllOwed(u.invoices, FEBRUARY + terms.Grace())
      && (AllOpen(w.t.invoices) ==> AllOpen(u.invoices))
      && (now < FEBRUARY + 28 * DAY && k < 28 * DAY ==> |u.invoices| == 1)
  {
    var due := DueServers(w.t, now);
    RenewedAppends(w.t, terms, now);
    if now < FEBRUARY + 28 * DAY && k < 28 * DAY {
      NotDueYet(w, terms, k, now);
    }
    forall i | 0 <= i < |due| ensures due[i] == 0 && StartOf(w.t, 0, now) >= FEBRUARY {
      OnlyOneIsDue(w, terms, k, now, i);
    }
    NewestOwed(w.t, Renewed(w.t, terms, now), due, terms, now);
  }

  lemma NewestOwed(t: Tables, u: Tables, due: seq<nat>, terms: Terms, now: nat)
    requires Appends(t, u, due) && AllOwed(t.invoices, FEBRUARY + terms.Grace())
    requires forall i :: 0 <= i < |due| ==>
      && due[i] == 0 && t.Live(0) && StartOf(t, 0, now) >= FEBRUARY
      && IsBill(u.invoices[|t.invoices| + i], 0, StartOf(t, 0, now), terms)
    ensures AllOwed(u.invoices, FEBRUARY + terms.Grace()) && (AllOpen(t.invoices) ==> AllOpen(u.invoices))
  {
    forall j | |t.invoices| <= j < |u.invoices|
      ensures u.invoices[j].Of(0) && u.invoices[j].status.Open? && FEBRUARY + terms.Grace() <= u.invoices[j].due
    {
      assert due[j - |t.invoices|] == 0 && IsBill(u.invoices[j], 0, StartOf(t, 0, now), terms);
    }
  }

  /** Suspension that is not due yet, or breaks every time, leaves the server active. */
  lemma LapseNeglected(t: Tables, terms: Terms, now: nat, broken: set<nat>)
    requires FirstOf(t.invoices, terms) && AllOwed(t.invoices, FEBRUARY + terms.Grace())
    requires now <= FEBRUARY + terms.Grace() || forall i: nat :: i < |t.invoices| ==> i in broken
    ensures var u := Lapsed(t, now, broken);
      && u.servers == t.servers && FirstOf(u.invoices, terms) && AllOwed(u.invoices, FEBRUARY + terms.Grace())
      && |u.invoices| == |t.invoices|
      && (now <= FEBRUARY + terms.Grace() && AllOpen(t.invoices) ==> AllOpen(u.invoices))
    ensures now <= FEBRUARY + terms.Grace() ==> forall sid: nat :: !Suspending(t, sid, now, {})
  {
    assert forall sid: nat :: !Suspending(t, sid, now, broken);
    assert Lapsed(t, now, broken).servers == t.servers;
  }

  lemma NothingAbandoned(t: Tables, terms: Terms, now: nat)
    requires AllOwed(t.invoices, FEBRUARY + terms.Grace()) && now <= FEBRUARY + terms.Grace() + terms.Retention()
    ensures Reclaimed(t, terms, now) == t
  {
    assert forall sid: nat :: !Reclaiming(t, sid, terms, now);
    assert Reclaimed(t, terms, now).invoices == t.invoices && Reclaimed(t, terms, now).servers == t.servers;
  }

  function Below(n: nat): (r: set<nat>)
    ensures forall i: nat :: i in r <==> i < n
  {
    if n == 0 then {} else Below(n - 1) + {n - 1}
  }

  /** The calls that break, if they may: all of them. */
  function Calls(n: nat, breaks: bool): set<nat> {
    if breaks then Below(n) else {}
  }

  /** How long the server can be neglected: for the grace, and for the retention too if stop calls break. */
  function Patience(terms: Terms, breaks: bool): nat {
    terms.Grace() + (if breaks then terms.Retention() else 0)
  }

  lemma QuietPass(w: World, terms: Terms, breaks: bool, k: nat, now: nat)
    requires Neglected(w, terms, k) && k + 1 <= Patience(terms, breaks) && now == FEBRUARY + k + 1
    ensures Neglected(AfterPass(w, now, Calls(|Renewed(w.t, terms, now).invoices|, breaks), terms), terms, k + 1)
  {
    var renewed := Renewed(w.t, terms, now);
    var broken := Calls(|renewed.invoices|, breaks);
    var lapsed := Lapsed(renewed, now, broken);
    RenewNeglected(w, terms, k, now);
    LapseNeglected(renewed, terms, now, broken);
    NothingAbandoned(lapsed, terms, now);
    assert PassOver(w.t, terms, now, broken) == lapsed;
    assert Noticed(w.t, terms, now, broken) == {};
    assert now <= FEBRUARY + terms.Grace() ==> Tried(w.t, terms, now) == {};
  }

  lemma NeglectBegins(terms: Terms)
    ensures Neglected(Begins(terms, FEBRUARY), terms, 0)
  {
    FebruaryIsShort();
  }

  /** So long nothing happens to the server, however often a pass looks. */
  lemma {:induction false} Waiting(terms: Terms, gap: nat, breaks: bool, k: nat) returns (w: World)
    requires k <= Patience(terms, breaks) && gap >= 1
    ensures Neglected(w, terms, k) && Reachable(InOrder(gap, breaks), w, terms)
  {
    if k == 0 {
      w := Begins(terms, FEBRUARY);
      NeglectBegins(terms);
      Beginning(InOrder(gap, breaks), terms, FEBRUARY);
    } else {
      var v := Waiting(terms, gap, breaks, k - 1);
      w := OneMoment(v, terms, gap, breaks, k - 1);
    }
  }

  lemma OneMoment(v: World, terms: Terms, gap: nat, breaks: bool, k: nat) returns (w: World)
    requires Neglected(v, terms, k) && k + 1 <= Patience(terms, breaks) && gap >= 1
    requires Reachable(InOrder(gap, breaks), v, terms)
    ensures Neglected(w, terms, k + 1) && Reachable(InOrder(gap, breaks), w, terms)
  {
    var now := FEBRUARY + k + 1;
    var e := Pass(now, Calls(|Renewed(v.t, terms, now).invoices|, breaks));
    QuietPass(v, terms, breaks, k, now);
    ReachableThen(InOrder(gap, breaks), v, terms, e);
    w := Step(v, e, terms);
  }

  // ---------- Two unpaid invoices ----------

  lemma LapseKeepsOwed(t: Tables, sid: nat, now: nat, broken: set<nat>, i: nat)
    requires i < |t.invoices|
    ensures Owed(Lapsed(t, now, broken), sid, i) <==> Owed(t, sid, i)
  {
  }

  /** What is owed stays owed while nothing is beyond the retention window. */
  lemma BothStay(t: Tables, terms: Terms, now: nat, i: nat, k: nat)
    requires t.Live(0) && i < k < |t.invoices| && Owed(t, 0, i) && Owed(t, 0, k)
    requires forall j :: 0 <= j < |t.invoices| && t.invoices[j].Of(0) ==> now <= t.invoices[j].due + terms.Retention()
    ensures var u := Reclaimed(Lapsed(t, now, {}), terms, now); u.Live(0) && !AtMostOneUnpaid(u, 0)
  {
    var lapsed := Lapsed(t, now, {});
    var u := Reclaimed(lapsed, terms, now);
    LapseKeepsOwed(t, 0, now, {}, i);
    LapseKeepsOwed(t, 0, now, {}, k);
    assert !Reclaiming(lapsed, 0, terms, now);
    ReclaimSpares(lapsed, terms, 0, now);
    assert Owed(u, 0, i) && Owed(u, 0, k);
  }

  /** A month that ends on an unpaid invoice within the retention window is renewed on top of it. */
  lemma RenewedOnTop(t: Tables, terms: Terms, now: nat)
    requires t.Live(0) && !t.servers[0].value.suspended && |t.invoices| == 1
    requires Owed(t, 0, 0) && t.invoices[0].start >= t.servers[0].value.createdAt && t.invoices[0].start < now
    requires t.invoices[0].end == now <= t.invoices[0].due + terms.Retention()
    ensures PassOver(t, terms, now, {}).Live(0) && !AtMostOneUnpaid(PassOver(t, terms, now, {}), 0)
  {
    assert IsDue(t, 0, now);
    var renewed := Renewed(t, terms, now);
    var k := RenewedAdds(t, terms, now, 0);
    assert renewed.invoices[0] == t.invoices[0] && LatestEnd(t, 0) == Some(now);
    BothStay(renewed, terms, now, 0, k);
  }

  /** With other settings that happens in February. */
  lemma RenewedWhileUnpaid(terms: Terms, gap: nat, breaks: bool) returns (w: World)
    requires !Tight(terms, gap, breaks)
    ensures Reachable(InOrder(gap, breaks), w, terms) && w.clock <= FEBRUARY + 28 * DAY <= w.last + gap
    ensures var u := PassOver(w.t, terms, FEBRUARY + 28 * DAY, {}); u.Live(0) && !AtMostOneUnpaid(u, 0)
  {
    var k := if Patience(terms, breaks) < 28 * DAY then Patience(terms, breaks) else 28 * DAY - 1;
    w := Waiting(terms, gap, breaks, k);
    FebruaryIsShort();
    RenewedOnTop(w.t, terms, FEBRUARY + 28 * DAY);
  }

  /**
   At most one invoice of a server is unpaid on every run exactly when the settings are tight: no
   stop call breaks and the grace and the time between passes are less than 28 days together, or the
   grace and the retention are.
   */
  lemma OneUnpaidExactly(terms: Terms, gap: nat, breaks: bool)
    ensures Tight(terms, gap, breaks) <==>
      forall v: World, sid: nat ::
        Reachable(InOrder(gap, breaks), v, terms) && v.t.Live(sid) ==> AtMostOneUnpaid(v.t, sid)
  {
    if Tight(terms, gap, breaks) {
      forall v: World, sid: nat | Reachable(InOrder(gap, breaks), v, terms) && v.t.Live(sid)
        ensures AtMostOneUnpaid(v.t, sid)
      {
        OneUnpaid(v, sid, terms, gap, breaks);
      }
    } else {
      var w := RenewedWhileUnpaid(terms, gap, breaks);
      ReachableThen(InOrder(gap, breaks), w, terms, Pass(FEBRUARY + 28 * DAY, {}));
    }
  }

  /**
   With a pass every day that is a grace and a retention of at most 27 days together, or, if no stop
   call breaks, a grace of at most 26 days.
   */
  lemma DailyPasses(terms: Terms, breaks: bool)
    ensures terms.graceDays + terms.retentionDays <= 27 || (!breaks && terms.graceDays <= 26) <==>
      forall v: World, sid: nat ::
        Reachable(InOrder(DAY, breaks), v, terms) && v.t.Live(sid) ==> AtMostOneUnpaid(v.t, sid)
  {
    OneUnpaidExactly(terms, DAY, breaks);
  }

  // ---------- Deletion without notice ----------

  /** A pass that deletes server `sid` is possible at `at`. */
  ghost predicate Deletes(regime: Regime, v: World, at: nat, broken: set<nat>, sid: nat, terms: Terms) {
    && Reachable(regime, v, terms) && Enabled(v, Pass(at, broken)) && regime.Admits(v, Pass(at, broken))
    && v.t.Live(sid) && !PassOver(v.t, terms, at, broken).Live(sid)
  }

  lemma DeletedAtLast(w: World, terms: Terms, k: nat, at: nat)
    requires Neglected(w, terms, k) && at > FEBRUARY + terms.Grace() + terms.Retention()
    ensures !PassOver(w.t, terms, at, {}).Live(0)
  {
    RenewNeglected(w, terms, k, at);
    LateIsDeleted(Renewed(w.t, terms, at), terms, 0, 0, at, {});
  }

  /** Left alone for so long, the active server is deleted by the next pass that finds the window over. */
  lemma DeletedUnseen(terms: Terms, gap: nat, breaks: bool) returns (w: World, at: nat)
    requires gap >= 1 && Patience(terms, breaks) + gap > terms.Grace() + terms.Retention()
    ensures Deletes(InTime(gap, breaks), w, at, {}, 0, terms) && Neglected(w, terms, Patience(terms, breaks))
  {
    w := Waiting(terms, gap, breaks, Patience(terms, breaks));
    at := w.last + gap;
    StricterReachable(InOrder(gap, breaks), InTime(gap, breaks), w, terms);
    DeletedAtLast(w, terms, Patience(terms, breaks), at);
  }

  /**
   On every run a server is deleted only after an earlier pass has suspended it, exactly when passes
   are no further apart than the retention window is long and no stop call breaks.
   */
  lemma NoticeExactly(terms: Terms, gap: nat, breaks: bool)
    ensures gap == 0 || (gap <= terms.Retention() && !breaks) <==>
      forall v: World, at: nat, broken: set<nat>, sid: nat ::
        Deletes(InTime(gap, breaks), v, at, broken, sid, terms) ==> sid in v.noticed
  {
    if gap == 0 || (gap <= terms.Retention() && !breaks) {
      forall v: World, at: nat, broken: set<nat>, sid: nat
        | Deletes(InTime(gap, breaks), v, at, broken, sid, terms)
        ensures sid in v.noticed
      {
        if gap == 0 {
          NoneDeletedAtOnce(v, at, broken, sid, terms, breaks);
        } else {
          DeletedHadNotice(v, at, sid, terms, gap);
        }
      }
    } else {
      var w, at := DeletedUnseen(terms, gap, breaks);
    }
  }

  /** Whether stop calls break or not, it is deleted only after a pass has tried to suspend it. */
  lemma TryExactly(terms: Terms, gap: nat)
    ensures gap <= terms.Retention() <==>
      forall v: World, at: nat, broken: set<nat>, sid: nat ::
        Deletes(InTime(gap, true), v, at, broken, sid, terms) ==> sid in v.tried
  {
    if gap <= terms.Retention() {
      forall v: World, at: nat, broken: set<nat>, sid: nat
        | Deletes(InTime(gap, true), v, at, broken, sid, terms)
        ensures sid in v.tried
      {
        DeletedWasTried(v, at, broken, sid, terms, gap);
      }
    } else {
      var w, at := DeletedUnseen(terms, gap, false);
      StricterDeletes(InTime(gap, false), InTime(gap, true), w, at, {}, 0, terms);
    }
  }

  lemma StricterDeletes(
    strict: Regime, loose: Regime, v: World, at: nat, broken: set<nat>, sid: nat, terms: Terms)
    requires strict.Within(loose) && Deletes(strict, v, at, broken, sid, terms)
    ensures Deletes(loose, v, at, broken, sid, terms)
  {
    StricterReachable(strict, loose, v, terms);
  }

  // ---------- Deletion for an invoice just issued ----------

  /** `k` after 1 February the server is suspended, its one invoice being overdue. */
  ghost predicate Waits(w: World, terms: Terms, k: nat) {
    && w.t.servers == [Some(Srv(FEBRUARY, true))] && w.clock == w.last == FEBRUARY + k
    && |w.t.invoices| == 1 && FirstOf(w.t.invoices, terms)
    && w.t.invoices[0].Of(0) && w.t.invoices[0].status.Overdue?
  }

  /** A pass leaves it alone until the retention window is over. */
  lemma NothingMore(w: World, terms: Terms, k: nat, at: nat)
    requires Waits(w, terms, k) && at <= FEBRUARY + terms.Grace() + terms.Retention()
    ensures PassOver(w.t, terms, at, {}) == w.t
  {
    assert !IsDue(w.t, 0, at);
    assert DueServers(w.t, at) == [];
    assert Renewed(w.t, terms, at) == w.t;
    assert Lapsed(w.t, at, {}) == w.t;
    assert Reclaimed(w.t, terms, at) == w.t;
  }

  /** The first pass after the due date suspends it. */
  lemma Suspends(w: World, terms: Terms, at: nat)
    requires Neglected(w, terms, terms.Grace()) && terms.graceDays < 28 && terms.retentionDays >= 1
    requires at == FEBRUARY + terms.Grace() + 1
    ensures Waits(AfterPass(w, at, {}, terms), terms, terms.Grace() + 1)
  {
    FebruaryIsShort();
    assert !IsDue(w.t, 0, at);
    assert DueServers(w.t, at) == [];
    assert Renewed(w.t, terms, at) == w.t;
    assert Lapsing(w.t.invoices[0], at) && Suspending(w.t, 0, at, {});
    var lapsed := Lapsed(w.t, at, {});
    assert lapsed.servers == [Some(Srv(FEBRUARY, true))] && lapsed.invoices[0].status.Overdue?;
    assert !Reclaiming(lapsed, 0, terms, at);
    ReclaimSpares(lapsed, terms, 0, at);
  }

  lemma {:induction false} WaitingOn(terms: Terms, gap: nat, k: nat) returns (w: World)
    requires terms.graceDays < 28 && terms.Grace() < k <= terms.Grace() + terms.Retention() && gap >= 1
    ensures Waits(w, terms, k) && Reachable(InOrder(gap, false), w, terms)
  {
    var v: World;
    var e := Pass(FEBRUARY + k, {});
    if k == terms.Grace() + 1 {
      v := Waiting(terms, gap, false, terms.Grace());
      Suspends(v, terms, e.at);
    } else {
      v := WaitingOn(terms, gap, k - 1);
      NothingMore(v, terms, k - 1, e.at);
    }
    ReachableThen(InOrder(gap, false), v, terms, e);
    w := Step(v, e, terms);
  }

  /** Active, and its one invoice paid. */
  ghost predicate Clear(w: World, terms: Terms) {
    && w.t.servers == [Some(Srv(FEBRUARY, false))] && w.clock == w.last
    && |w.t.invoices| == 1 && FirstOf(w.t.invoices, terms)
    && w.t.invoices[0].Of(0) && w.t.invoices[0].status.Paid?
  }

  lemma PaymentClearsIt(w: World, terms: Terms, k: nat) returns (ref: string)
    requires Waits(w, terms, k)
    ensures !Used(w.t, ref) && Clear(w.(t := PaidWith(w.t, 0, ref)), terms)
  {
    ref := if w.t.invoices[0].ref == Some("a") then "b" else "a";
    assert !Used(w.t, ref);
    assert PaidWith(w.t, 0, ref).servers == [Some(Srv(FEBRUARY, false))];
  }

  lemma ThenPays(v: World, terms: Terms, gap: nat, k: nat) returns (w: World)
    requires Waits(v, terms, k) && Reachable(InOrder(gap, false), v, terms)
    ensures Clear(w, terms) && w.last == v.last && Reachable(InOrder(gap, false), w, terms)
  {
    var ref := PaymentClearsIt(v, terms, k);
    ReachableThen(InOrder(gap, false), v, terms, Pay(v.clock, 0, ref));
    w := Step(v, Pay(v.clock, 0, ref), terms);
  }

  /** The next invoice is issued and found abandoned in the same pass. */
  lemma ClearIsDeleted(t: Tables, terms: Terms, end: nat, at: nat)
    requires |t.invoices| == 1 && t.Live(0) && !t.servers[0].value.suspended
    requires t.invoices[0].Of(0) && t.invoices[0].end == end && t.servers[0].value.createdAt < end
    requires at > end + terms.Grace() + terms.Retention()
    ensures !PassOver(t, terms, at, {}).Live(0)
  {
    assert IsDue(t, 0, at) && LatestEnd(t, 0) == Some(end);
    var k := RenewedAdds(t, terms, at, 0);
    LateIsDeleted(Renewed(t, terms, at), terms, 0, k, at, {});
  }

  lemma ClearOwesNothing(w: World, terms: Terms, at: nat)
    requires Clear(w, terms)
    ensures w.t.Live(0) && !w.t.servers[0].value.suspended && NothingOwed(w.t, 0) && !HasAbandoned(w.t, 0, terms, at)
  {
  }

  /** With more than 28 days between passes the next pass deletes the server, which owes nothing. */
  lemma DeletedThoughPaid(terms: Terms, gap: nat) returns (w: World, at: nat)
    requires terms.graceDays < 28 && 28 * DAY < gap <= terms.Retention()
    ensures Deletes(InTime(gap, false), w, at, {}, 0, terms)
    ensures !w.t.servers[0].value.suspended && NothingOwed(w.t, 0) && !HasAbandoned(w.t, 0, terms, at)
  {
    var v := WaitingOn(terms, gap, terms.Grace() + terms.Retention());
    w := ThenPays(v, terms, gap, terms.Grace() + terms.Retention());
    at := w.last + gap;
    StricterReachable(InOrder(gap, false), InTime(gap, false), w, terms);
    ClearOwesNothing(w, terms, at);
    ClearIsDeleted(w.t, terms, FEBRUARY + 28 * DAY, at);
  }

  lemma NotOverdueBefore(terms: Terms, gap: nat) returns (w: World, at: nat)
    requires gap > terms.Retention() || (terms.graceDays < 28 && gap > 28 * DAY)
    ensures Deletes(InTime(gap, false), w, at, {}, 0, terms) && !HasAbandoned(w.t, 0, terms, at)
  {
    if gap > terms.Retention() {
      w, at := DeletedUnseen(terms, gap, false);
    } else {
      w, at := DeletedThoughPaid(terms, gap);
    }
  }

  /**
   A server is deleted only for an invoice that was overdue before the pass, exactly when passes are
   no further apart than the retention window is long, and no more than 28 days apart; this whether
   stop calls break or not.  (With a grace of 28 days or more a gap that is longer may do no harm.)
   */
  lemma OverdueBeforeExactly(terms: Terms, gap: nat, breaks: bool)
    requires gap <= 28 * DAY || gap > terms.Retention() || terms.graceDays < 28
    ensures gap <= terms.Retention() && gap <= 28 * DAY <==>
      forall v: World, at: nat, broken: set<nat>, sid: nat ::
        Deletes(InTime(gap, breaks), v, at, broken, sid, terms) ==> HasAbandoned(v.t, sid, terms, at)
  {
    if gap <= terms.Retention() && gap <= 28 * DAY {
      forall v: World, at: nat, broken: set<nat>, sid: nat
        | Deletes(InTime(gap, breaks), v, at, broken, sid, terms)
        ensures HasAbandoned(v.t, sid, terms, at)
      {
        StricterReachable(InTime(gap, breaks), InTime(gap, true), v, terms);
        DeletedWasOverdue(v, at, broken, sid, terms, gap);
      }
    } else {
      var w, at := NotOverdueBefore(terms, gap);
      StricterDeletes(InTime(gap, false), InTime(gap, breaks), w, at, {}, 0, terms);
    }
  }

  // ---------- Running free ----------

  /** The server of `Begins` after its first invoice was paid. */
  function PaidUpWorld(terms: Terms, start: nat): World {
    var paid := Issued(0, start, terms).(status := Paid, ref := Some("a"));
    World(Tables([Some(Srv(start, false))], [paid]), start, start, {}, {})
  }

  lemma FirstIsPaid(regime: Regime, terms: Terms, start: nat)
    ensures Reachable(regime, PaidUpWorld(terms, start), terms)
  {
    Beginning(regime, terms, start);
    var w, e := Begins(terms, start), Pay(start, 0, "a");
    ReachableThen(regime, w, terms, e);
    assert !Used(w.t, "a");
    assert Step(w, e, terms).t.servers == PaidUpWorld(terms, start).t.servers;
    assert Step(w, e, terms).t.invoices == PaidUpWorld(terms, start).t.invoices;
  }

  /** With one paid invoice a pass after its end issues the next, wherever that ends. */
  lemma NextAfterPaid(terms: Terms, start: nat, now: nat) returns (k: nat)
    requires EndOf(start) <= now
    ensures var t := PaidUpWorld(terms, start).t; Adds(t, Renewed(t, terms, now), 0, k, EndOf(start), terms)
    ensures Renewed(PaidUpWorld(terms, start).t, terms, now).invoices[k].end == EndOf(EndOf(start))
  {
    var t := PaidUpWorld(terms, start).t;
    assert IsDue(t, 0, now);
    k := RenewedAdds(t, terms, now, 0);
    assert LatestEnd(t, 0) == Some(EndOf(start));
    RenewalsAreMonthLong(t, terms, now);
  }

  /** Within the window, and not suspended for what lapses, a server stays active, whatever its periods. */
  lemma StaysActive(t: Tables, terms: Terms, sid: nat, now: nat, broken: set<nat>)
    requires t.Live(sid) && !t.servers[sid].value.suspended
    requires forall i :: 0 <= i < |t.invoices| && t.invoices[i].Of(sid) ==>
      && t.invoices[i].end <= now && (Lapsing(t.invoices[i], now) ==> i in broken)
      && (t.invoices[i].Unpaid() ==> now <= t.invoices[i].due + terms.Retention())
    ensures var u := Reclaimed(Lapsed(t, now, broken), terms, now);
      u.Live(sid) && !u.servers[sid].value.suspended && !BilledNow(u, sid, now)
  {
    var lapsed := Lapsed(t, now, broken);
    assert !Suspending(t, sid, now, broken) && !Reclaiming(lapsed, sid, terms, now);
    LapseKeepsSpans(t, sid, now, broken);
    ReclaimSpares(lapsed, terms, sid, now);
  }

  /** After the pass at `at` server `sid` is active without an invoice for that moment. */
  ghost predicate RunsFree(regime: Regime, v: World, at: nat, broken: set<nat>, sid: nat, terms: Terms) {
    && Reachable(regime, v, terms) && Enabled(v, Pass(at, broken)) && regime.Admits(v, Pass(at, broken))
    && var u := PassOver(v.t, terms, at, broken);
       u.Live(sid) && !u.servers[sid].value.suspended && !BilledNow(u, sid, at)
  }

  /** A pass at the end of the second period, with a long grace or a stop call that breaks. */
  lemma SecondPeriodIsOver(terms: Terms, breaks: bool, start: nat, at: nat) returns (broken: set<nat>)
    requires !Brisk(terms, breaks) && at == EndOf(EndOf(start)) == EndOf(start) + 28 * DAY
    ensures broken != {} ==> breaks
    ensures var u := PassOver(PaidUpWorld(terms, start).t, terms, at, broken);
      u.Live(0) && !u.servers[0].value.suspended && !BilledNow(u, 0, at)
  {
    var k := NextAfterPaid(terms, start, at);
    broken := if breaks then {k} else {};
    StaysActive(Renewed(PaidUpWorld(terms, start).t, terms, at), terms, 0, at, broken);
  }

  /** A late pass leaves a server active on periods that are over: the grace is long, or a stop call breaks. */
  lemma LatePassRunsFree(terms: Terms, breaks: bool) returns (at: nat, broken: set<nat>)
    requires !Brisk(terms, breaks)
    ensures RunsFree(AnyTime(breaks), PaidUpWorld(terms, JANUARY), at, broken, 0, terms)
  {
    JanuaryIsLong();
    FebruaryIsShort();
    at := EndOf(EndOf(JANUARY));
    FirstIsPaid(AnyTime(breaks), terms, JANUARY);
    broken := SecondPeriodIsOver(terms, breaks, JANUARY, at);
  }

  /**
   After every pass of every run an active server has an invoice for that moment, exactly with a
   grace of less than 28 days, the retention included if stop calls may break.
   */
  lemma NothingRunsFreeExactly(terms: Terms, breaks: bool)
    ensures Brisk(terms, breaks) <==>
      forall v: World, at: nat, broken: set<nat>, sid: nat :: !RunsFree(AnyTime(breaks), v, at, broken, sid, terms)
  {
    if Brisk(terms, breaks) {
      forall v: World, at: nat, broken: set<nat>, sid: nat ensures !RunsFree(AnyTime(breaks), v, at, broken, sid, terms)
      {
        if RunsFree(AnyTime(breaks), v, at, broken, sid, terms) {
          NothingRunsFree(v, at, broken, sid, terms, breaks);
        }
      }
    } else {
      var at, broken := LatePassRunsFree(terms, breaks);
    }
  }

  // ---------- Payments and first invoices ----------

  /** Paying an invoice that is paid already, under a new reference, lets a server run on unpaid. */
  lemma PaidTwice(t: Tables, i: nat, j: nat, ref: string, sid: nat)
    requires i < |t.invoices| && j < |t.invoices| && t.Live(sid) && !Used(t, ref)
    requires t.invoices[i].Of(sid) && t.invoices[i].status.Paid?
    requires t.invoices[j].Of(sid) && t.invoices[j].status.Overdue?
    ensures var u := PaidWith(t, i, ref);
      u.Live(sid) && !u.servers[sid].value.suspended && u.invoices[j].Of(sid) && u.invoices[j].status.Overdue?
  {
    PaymentClearsIff(t, i, ref, sid);
  }

  /** One invoice paid, the next overdue, the server suspended for it. */
  ghost predicate OwesNext(t: Tables, j: nat) {
    && 0 < j < |t.invoices| && t.Live(0) && t.servers[0].value.suspended && !Used(t, "b")
    && t.invoices[0].Of(0) && t.invoices[0].status.Paid? && t.invoices[j].Of(0) && t.invoices[j].status.Overdue?
  }

  lemma SuspendedForNext(terms: Terms, start: nat) returns (v: World, j: nat)
    requires terms.retentionDays >= 1
    ensures Reachable(AnyTime(false), v, terms) && OwesNext(v.t, j)
  {
    var w, at := PaidUpWorld(terms, start), EndOf(start) + terms.Grace() + 1;
    FirstIsPaid(AnyTime(false), terms, start);
    j := NextAfterPaid(terms, start, at);
    SuspendedAtOnce(w.t, terms, EndOf(start), at, j);
    ReachableThen(AnyTime(false), w, terms, Pass(at, {}));
    v := Step(w, Pass(at, {}), terms);
  }

  /** A world in which that happens. */
  lemma PaidTwiceHappens(terms: Terms, start: nat) returns (v: World, j: nat)
    requires terms.retentionDays >= 1
    ensures Reachable(AnyTime(false), v, terms) && OwesNext(v.t, j) && Enabled(v, Pay(v.clock, 0, "b"))
    ensures var u := Step(v, Pay(v.clock, 0, "b"), terms).t;
      u.Live(0) && !u.servers[0].value.suspended && u.invoices[j].Of(0) && u.invoices[j].status.Overdue?
  {
    v, j := SuspendedForNext(terms, start);
    PaidTwice(v.t, 0, j, "b", 0);
  }

  lemma SuspendedAndKept(t: Tables, terms: Terms, at: nat, j: nat)
    requires t.Live(0) && j < |t.invoices| && t.invoices[j].Of(0) && Lapsing(t.invoices[j], at)
    requires forall i :: 0 <= i < |t.invoices| && t.invoices[i].Of(0) ==>
      t.invoices[i].Unpaid() ==> at <= t.invoices[i].due + terms.Retention()
    ensures var (lapsed, u) := (Lapsed(t, at, {}), Reclaimed(Lapsed(t, at, {}), terms, at));
      u.Live(0) && u.servers[0].value.suspended && Same(lapsed, u, 0)
  {
    var lapsed := Lapsed(t, at, {});
    assert Suspending(t, 0, at, {}) && !Reclaiming(lapsed, 0, terms, at);
    ReclaimSpares(lapsed, terms, 0, at);
  }

  lemma RefsStay(t: Tables, terms: Terms, at: nat, ref: string)
    requires !Used(t, ref)
    ensures !Used(PassOver(t, terms, at, {}), ref)
  {
    var renewed, u := Renewed(t, terms, at), PassOver(t, terms, at, {});
    NewRefsAreNone(t, terms, at);
    forall i | 0 <= i < |u.invoices| ensures u.invoices[i].ref != Some(ref) {
      assert u.invoices[i].ref == renewed.invoices[i].ref;
    }
  }

  lemma SuspendedAtOnce(t: Tables, terms: Terms, end: nat, at: nat, j: nat)
    requires terms.retentionDays >= 1 && at == end + terms.Grace() + 1 && |t.invoices| == 1 && !Used(t, "b")
    requires t.invoices[0].Of(0) && t.invoices[0].status.Paid? && Adds(t, Renewed(t, terms, at), 0, j, end, terms)
    ensures OwesNext(PassOver(t, terms, at, {}), j)
  {
    var renewed := Renewed(t, terms, at);
    var lapsed := Lapsed(renewed, at, {});
    SuspendedAndKept(renewed, terms, at, j);
    RefsStay(t, terms, at, "b");
    LapsedIsOverdue(renewed, 0, j, at, {});
    assert lapsed.invoices[0] == t.invoices[0];
  }

  lemma NewRefsAreNone(t: Tables, terms: Terms, now: nat)
    ensures var u := Renewed(t, terms, now);
      forall i :: |t.invoices| <= i < |u.invoices| ==> u.invoices[i].ref.None?
  {
  }

  /** A pass that slips in between a server's creation and its first invoice bills it twice. */
  lemma FirstInvoiceRace(terms: Terms, created: nat, pass: nat, first: nat)
    requires created <= pass <= first
    ensures var t := Renewed(Tables([Some(Srv(created, false))], []), terms, pass);
      !AtMostOneUnpaid(t.(invoices := t.invoices + [Issued(0, first, terms)]), 0)
  {
    var none := Tables([Some(Srv(created, false))], []);
    var k := RenewedAdds(none, terms, pass, 0);
    var t := Renewed(none, terms, pass);
    var u := t.(invoices := t.invoices + [Issued(0, first, terms)]);
    assert u.invoices[k] == t.invoices[k];
    assert Owed(u, 0, k) && Owed(u, 0, |t.invoices|);
  }
}
