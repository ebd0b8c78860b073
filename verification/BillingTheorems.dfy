/** What a server owes: one invoice at a time, under settings that are tight enough. */
module BillingTheorems {
  // On runs with passes in time and no second payments; "in time" is measured against these settings.

  import opened Wrappers
  import opened Calendar
  import opened Billing
  import opened BillingSafety
  import opened BillingRuns
  import opened BillingNotice

  /**
   Whenever a server is due for renewal with an invoice still unpaid, either there is none or the
   server is deleted for it: the settings with which it never owes two.
   */
  predicate Tight(terms: Terms, gap: nat, breaks: bool) {
    || gap == 0
    || (!breaks && terms.Grace() + gap < 28 * DAY)
    || terms.Grace() + terms.Retention() < 28 * DAY
  }

  ghost predicate OverdueIsSuspended(t: Tables, sid: nat)
    requires t.Live(sid)
  {
    HasOverdue(t, sid) ==> t.servers[sid].value.suspended
  }

  ghost predicate Debts(t: Tables, sid: nat, breaks: bool)
    requires t.Live(sid)
  {
    AtMostOneUnpaid(t, sid) && (!breaks ==> OverdueIsSuspended(t, sid))
  }

  // ---------- A pass ----------

  /** Before the month of an open invoice ends, a pass in time has made it overdue and its server suspended. */
  lemma DueOwesNothing(t: Tables, terms: Terms, sid: nat, gap: nat, last: nat, now: nat)
    requires terms.Grace() + gap < 28 * DAY && t.Live(sid) && Tiles(t, sid) && DueInTerms(t, sid, terms)
    requires NoneLate(t, sid, last) && OverdueIsSuspended(t, sid) && IsDue(t, sid, now) && now <= last + gap
    ensures NothingOwed(t, sid)
  {
    assert !HasOverdue(t, sid);
  }

  /** With little grace and retention together, a server that is renewed while it owes is deleted in the same pass. */
  lemma DebtIsReclaimed(t: Tables, terms: Terms, sid: nat, now: nat, i: nat, broken: set<nat>)
    requires terms.Grace() + terms.Retention() < 28 * DAY
    requires t.Live(sid) && Tiles(t, sid) && DueInTerms(t, sid, terms)
    requires IsDue(t, sid, now) && i < |t.invoices| && Owed(t, sid, i)
    ensures !PassOver(t, terms, now, broken).Live(sid)
  {
    var renewed := Renewed(t, terms, now);
    var k := RenewedAdds(t, terms, now, sid);
    assert renewed.invoices[i] == t.invoices[i] && AboutAMonth(t.invoices[i]);
    LateIsDeleted(renewed, terms, sid, i, now, broken);
  }

  lemma AddingKeepsDebts(t: Tables, u: Tables, sid: nat, k: nat, start: nat, terms: Terms, breaks: bool)
    requires Adds(t, u, sid, k, start, terms) && NothingOwed(t, sid) && Debts(t, sid, breaks)
    ensures Debts(u, sid, breaks)
  {
    AddingOverdue(t, u, sid, k, start, terms);
    forall i | 0 <= i < |u.invoices| && Owed(u, sid, i) ensures i == k {
      assert i < |t.invoices| ==> Owed(t, sid, i);
    }
  }

  lemma SameKeepsDebts(t: Tables, u: Tables, sid: nat, breaks: bool)
    requires Same(t, u, sid) && Debts(t, sid, breaks)
    ensures Debts(u, sid, breaks)
  {
    SameOverdue(t, u, sid);
    forall i | 0 <= i < |u.invoices| && Owed(u, sid, i) ensures i < |t.invoices| && Owed(t, sid, i) {
    }
  }

  lemma LapseKeepsDebts(t: Tables, sid: nat, now: nat, broken: set<nat>, breaks: bool)
    requires t.Live(sid) && Debts(t, sid, breaks) && (broken != {} ==> breaks)
    ensures var u := Lapsed(t, now, broken); u.Live(sid) && Debts(u, sid, breaks)
  {
    var u := Lapsed(t, now, broken);
    LapseOverdue(t, sid, now, broken);
    forall i | 0 <= i < |u.invoices| && Owed(u, sid, i) ensures Owed(t, sid, i) {
    }
  }

  lemma RenewKeepsDebts(t: Tables, terms: Terms, sid: nat, now: nat, breaks: bool)
    requires t.Live(sid) && Debts(t, sid, breaks) && (IsDue(t, sid, now) ==> NothingOwed(t, sid))
    ensures var u := Renewed(t, terms, now); u.Live(sid) && Debts(u, sid, breaks)
  {
    if IsDue(t, sid, now) {
      var k := RenewedAdds(t, terms, now, sid);
      AddingKeepsDebts(t, Renewed(t, terms, now), sid, k, StartOf(t, sid, now), terms, breaks);
    } else {
      RenewedSame(t, terms, now, sid);
      SameKeepsDebts(t, Renewed(t, terms, now), sid, breaks);
    }
  }

  /** A server that a pass keeps, and that owed nothing if it was due, owes at most one invoice. */
  lemma KeptKeepsDebts(t: Tables, terms: Terms, sid: nat, now: nat, broken: set<nat>, breaks: bool)
    requires t.Live(sid) && Debts(t, sid, breaks) && (broken != {} ==> breaks)
    requires IsDue(t, sid, now) ==> NothingOwed(t, sid)
    ensures var u := PassOver(t, terms, now, broken); u.Live(sid) ==> Debts(u, sid, breaks)
  {
    var renewed := Renewed(t, terms, now);
    var lapsed, u := Lapsed(renewed, now, broken), PassOver(t, terms, now, broken);
    RenewKeepsDebts(t, terms, sid, now, breaks);
    LapseKeepsDebts(renewed, sid, now, broken, breaks);
    ReclaimSpares(lapsed, terms, sid, now);
    if u.Live(sid) {
      SameKeepsDebts(lapsed, u, sid, breaks);
    }
  }

  /** What is known of a server before a pass in time. */
  ghost predicate Before(t: Tables, sid: nat, terms: Terms, gap: nat, breaks: bool, last: nat, now: nat)
    requires t.Live(sid)
  {
    && Tiles(t, sid) && DueInTerms(t, sid, terms) && NoneLate(t, sid, last) && Debts(t, sid, breaks)
    && last <= now <= last + gap && (gap == 0 ==> last <= t.servers[sid].value.createdAt)
  }

  lemma PassKeepsDebts(
    t: Tables, terms: Terms, sid: nat, gap: nat, breaks: bool, last: nat, now: nat, broken: set<nat>)
    requires Tight(terms, gap, breaks) && t.Live(sid) && Before(t, sid, terms, gap, breaks, last, now)
    requires broken != {} ==> breaks
    ensures var u := PassOver(t, terms, now, broken); u.Live(sid) ==> Debts(u, sid, breaks)
  {
    if !IsDue(t, sid, now) || NothingOwed(t, sid) {
      KeptKeepsDebts(t, terms, sid, now, broken, breaks);
    } else {
      var i :| 0 <= i < |t.invoices| && Owed(t, sid, i);
      assert AboutAMonth(t.invoices[i]);
      if terms.Grace() + terms.Retention() < 28 * DAY {
        DebtIsReclaimed(t, terms, sid, now, i, broken);
      } else if gap != 0 {
        DueOwesNothing(t, terms, sid, gap, last, now);
      }
    }
  }

  // ---------- A payment ----------

  lemma PaymentKeepsDebts(t: Tables, sid: nat, i: nat, ref: string, breaks: bool)
    requires t.Live(sid) && Debts(t, sid, breaks) && i < |t.invoices| && (Used(t, ref) || t.invoices[i].Unpaid())
    ensures var u := PaidWith(t, i, ref); u.Live(sid) && Debts(u, sid, breaks)
  {
    var u := PaidWith(t, i, ref);
    forall j | 0 <= j < |u.invoices| && Owed(u, sid, j) ensures Owed(t, sid, j) {
    }
    if !Used(t, ref) && HasOverdue(u, sid) {
      var j :| 0 <= j < |u.invoices| && u.invoices[j].Of(sid) && u.invoices[j].status.Overdue?;
      assert j != i && u.invoices[j] == t.invoices[j] && Owed(t, sid, j);
      assert t.invoices[i].Of(sid) ==> Owed(t, sid, i);
    }
  }

  // ---------- Runs ----------

  ghost predicate AllDebts(t: Tables, breaks: bool) {
    forall sid: nat :: t.Live(sid) ==> Debts(t, sid, breaks)
  }

  ghost predicate Good(w: World, terms: Terms, gap: nat, breaks: bool) {
    AllWatched(w, terms) && (gap == 0 ==> AtOnce(w)) && AllDebts(w.t, breaks)
  }

  lemma StepKeepsDebts(w: World, e: Event, terms: Terms, gap: nat, breaks: bool, sid: nat)
    requires Tight(terms, gap, breaks) && Good(w, terms, gap, breaks) && w.t.Live(sid)
    requires Enabled(w, e) && InOrder(gap, breaks).Admits(w, e) && Step(w, e, terms).t.Live(sid)
    ensures Debts(Step(w, e, terms).t, sid, breaks)
  {
    var u := Step(w, e, terms).t;
    match e
    case Arrive(at) =>
      ArrivalIsSame(w, at, terms, sid);
      SameKeepsDebts(w.t, u, sid, breaks);
    case First(at, s) =>
      if s == sid {
        FirstAdds(w, at, sid, terms);
        AddingKeepsDebts(w.t, u, sid, |w.t.invoices|, at, terms, breaks);
      } else {
        FirstIsSame(w, at, s, terms, sid);
        SameKeepsDebts(w.t, u, sid, breaks);
      }
    case Pass(at, broken) => PassKeepsDebts(w.t, terms, sid, gap, breaks, w.last, at, broken);
    case Pay(at, i, ref) => PaymentKeepsDebts(w.t, sid, i, ref, breaks);
    case Cancel(at, s) =>
      CancelIsSame(w, at, s, terms, sid);
      SameKeepsDebts(w.t, u, sid, breaks);
  }

  lemma NewOwesNothing(w: World, at: nat, terms: Terms, breaks: bool)
    requires w.t.Linked() && w.clock <= at
    ensures Debts(Step(w, Arrive(at), terms).t, |w.t.servers|, breaks)
  {
    var u := Step(w, Arrive(at), terms).t;
    forall i | 0 <= i < |u.invoices| ensures !u.invoices[i].Of(|w.t.servers|) {
    }
  }

  lemma StepKeepsAllDebts(w: World, e: Event, terms: Terms, gap: nat, breaks: bool)
    requires Tight(terms, gap, breaks) && Good(w, terms, gap, breaks)
    requires Enabled(w, e) && InOrder(gap, breaks).Admits(w, e)
    ensures AllDebts(Step(w, e, terms).t, breaks)
  {
    var u := Step(w, e, terms).t;
    forall sid: nat | u.Live(sid) ensures Debts(u, sid, breaks) {
      if w.t.Live(sid) {
        StepKeepsDebts(w, e, terms, gap, breaks, sid);
      } else {
        NewOwesNothing(w, e.at, terms, breaks);
      }
    }
  }

  lemma StepKeepsGood(w: World, e: Event, terms: Terms, gap: nat, breaks: bool)
    requires Tight(terms, gap, breaks) && Good(w, terms, gap, breaks)
    requires Enabled(w, e) && InOrder(gap, breaks).Admits(w, e)
    ensures Good(Step(w, e, terms), terms, gap, breaks)
  {
    StepKeepsAllWatched(w, e, terms);
    StepKeepsAllDebts(w, e, terms, gap, breaks);
    if gap == 0 {
      StepKeepsAtOnce(w, e, terms);
    }
  }

  lemma {:induction false} RunKeepsGood(w: World, es: seq<Event>, terms: Terms, gap: nat, breaks: bool, v: World)
    requires Tight(terms, gap, breaks) && Good(w, terms, gap, breaks) && Reaches(InOrder(gap, breaks), w, es, terms, v)
    ensures Good(v, terms, gap, breaks)
    decreases |es|
  {
    if es != [] {
      StepKeepsGood(w, es[0], terms, gap, breaks);
      RunKeepsGood(Step(w, es[0], terms), es[1..], terms, gap, breaks, v);
    }
  }

  lemma ReachableIsGood(v: World, terms: Terms, gap: nat, breaks: bool)
    requires Tight(terms, gap, breaks) && Reachable(InOrder(gap, breaks), v, terms)
    ensures Good(v, terms, gap, breaks)
  {
    var w, es :| Opening(w) && Reaches(InOrder(gap, breaks), w, es, terms, v);
    RunKeepsGood(w, es, terms, gap, breaks, v);
  }

  /**
   A server has at most one unpaid invoice.  It is suspended only while that one is overdue, and
   exactly then if no stop call breaks.
   */
  lemma OneUnpaid(v: World, sid: nat, terms: Terms, gap: nat, breaks: bool)
    requires Tight(terms, gap, breaks) && Reachable(InOrder(gap, breaks), v, terms) && v.t.Live(sid)
    ensures AtMostOneUnpaid(v.t, sid)
    ensures v.t.servers[sid].value.suspended ==> HasOverdue(v.t, sid)
    ensures !breaks && HasOverdue(v.t, sid) ==> v.t.servers[sid].value.suspended
  {
    ReachableIsGood(v, terms, gap, breaks);
  }

  /**
   A payment with a new reference reactivates the server of its invoice; something is still owed
   exactly when another invoice of the server is unpaid.
   */
  lemma PaymentClearsIff(t: Tables, i: nat, ref: string, sid: nat)
    requires i < |t.invoices| && t.invoices[i].Of(sid) && t.Live(sid) && !Used(t, ref)
    ensures var u := PaidWith(t, i, ref);
      && u.Live(sid) && !u.servers[sid].value.suspended
      && (NothingOwed(u, sid) <==> forall j :: 0 <= j < |t.invoices| && j != i ==> !Owed(t, sid, j))
  {
    var u := PaidWith(t, i, ref);
    assert !Owed(u, sid, i);
    forall j | 0 <= j < |t.invoices| && j != i ensures Owed(u, sid, j) <==> Owed(t, sid, j) {
      assert u.invoices[j] == t.invoices[j];
    }
  }

  /** A customer who pays is active again and owes nothing. */
  lemma PaymentClears(v: World, at: nat, i: nat, ref: string, sid: nat, terms: Terms, gap: nat, breaks: bool)
    requires Tight(terms, gap, breaks) && Reachable(InOrder(gap, breaks), v, terms) && Enabled(v, Pay(at, i, ref))
    requires v.t.Live(sid) && v.t.invoices[i].Of(sid) && v.t.invoices[i].Unpaid() && !Used(v.t, ref)
    ensures var u := Step(v, Pay(at, i, ref), terms).t;
      u.Live(sid) && !u.servers[sid].value.suspended && NothingOwed(u, sid)
  {
    ReachableIsGood(v, terms, gap, breaks);
    assert Owed(v.t, sid, i);
    PaymentClearsIff(v.t, i, ref, sid);
  }

  /** While no stop call breaks, a server that a pass reclaims was suspended for long enough before it. */
  lemma ReclaimedWasSuspended(v: World, at: nat, sid: nat, terms: Terms, gap: nat)
    requires Tight(terms, gap, false) && gap <= terms.Retention()
    requires Reachable(InOrder(gap, false), v, terms) && v.clock <= at <= v.last + gap
    requires v.t.Live(sid) && !PassOver(v.t, terms, at, {}).Live(sid)
    ensures v.t.servers[sid].value.suspended && HasAbandoned(v.t, sid, terms, at)
  {
    StricterReachable(InOrder(gap, false), InTime(gap, true), v, terms);
    DeletedWasOverdue(v, at, {}, sid, terms, gap);
    OneUnpaid(v, sid, terms, gap, false);
  }
}
