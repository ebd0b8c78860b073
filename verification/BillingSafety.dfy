/**
 What payments, passes and deletions do to the invoices of one server: how its periods follow each
 other, what it owes, and what the three jobs of a pass make of both, for whatever settings.
 */
module BillingSafety {
  import opened Wrappers
  import opened Calendar
  import opened Billing

  /** Every period is as long as the month it starts in. */
  ghost predicate MonthLong(t: Tables) {
    forall i :: 0 <= i < |t.invoices| ==> t.invoices[i].end == EndOf(t.invoices[i].start)
  }

  /** The periods of a server follow each other without gap or overlap, none starting before the server. */
  ghost predicate Tiles(t: Tables, sid: nat)
    requires t.Live(sid)
  {
    && (forall i :: 0 <= i < |t.invoices| && t.invoices[i].Of(sid) ==>
          AboutAMonth(t.invoices[i]) && t.invoices[i].start >= t.servers[sid].value.createdAt)
    && (forall i, j :: 0 <= i < j < |t.invoices| && t.invoices[i].Of(sid) && t.invoices[j].Of(sid) ==>
          t.invoices[i].end <= t.invoices[j].start)
    && (forall j :: 0 <= j < |t.invoices| && t.invoices[j].Of(sid) ==> Follows(t, sid, j))
  }

  /** Invoice `j` is the first of the server, or starts where an earlier one ends. */
  ghost predicate Follows(t: Tables, sid: nat, j: nat)
    requires j < |t.invoices|
  {
    || (forall i :: 0 <= i < j ==> !t.invoices[i].Of(sid))
    || (exists i :: 0 <= i < j && t.invoices[i].Of(sid) && t.invoices[i].end == t.invoices[j].start)
  }

  predicate Owed(t: Tables, sid: nat, i: nat)
    requires i < |t.invoices|
  {
    t.invoices[i].Of(sid) && t.invoices[i].Unpaid()
  }

  ghost predicate AtMostOneUnpaid(t: Tables, sid: nat) {
    forall i, j :: 0 <= i < |t.invoices| && 0 <= j < |t.invoices| && Owed(t, sid, i) && Owed(t, sid, j) ==> i == j
  }

  ghost predicate NothingOwed(t: Tables, sid: nat) {
    forall i :: 0 <= i < |t.invoices| ==> !Owed(t, sid, i)
  }

  ghost predicate HasOverdue(t: Tables, sid: nat) {
    exists i :: 0 <= i < |t.invoices| && t.invoices[i].Of(sid) && t.invoices[i].status.Overdue?
  }

  ghost predicate HasAbandoned(t: Tables, sid: nat, terms: Terms, now: nat) {
    exists i :: 0 <= i < |t.invoices| && t.invoices[i].Of(sid) && Abandoned(t.invoices[i], terms, now)
  }

  ghost predicate DueInTerms(t: Tables, sid: nat, terms: Terms) {
    forall i :: 0 <= i < |t.invoices| && t.invoices[i].Of(sid) ==>
      t.invoices[i].due == t.invoices[i].start + terms.Grace()
  }

  ghost predicate Begun(t: Tables, sid: nat, clock: nat)
    requires t.Live(sid)
  {
    && t.servers[sid].value.createdAt <= clock
    && forall i :: 0 <= i < |t.invoices| && t.invoices[i].Of(sid) ==> t.invoices[i].start <= clock
  }

  /** The pass at `last` left no open invoice that was late. */
  ghost predicate NoneLate(t: Tables, sid: nat, last: nat) {
    forall i :: 0 <= i < |t.invoices| && t.invoices[i].Of(sid) && t.invoices[i].status.Open? ==>
      last <= t.invoices[i].due
  }

  /** The pass at `last` left no overdue invoice beyond the retention window. */
  ghost predicate NoneAbandoned(t: Tables, sid: nat, terms: Terms, last: nat) {
    forall i :: 0 <= i < |t.invoices| && t.invoices[i].Of(sid) && t.invoices[i].status.Overdue? ==>
      last <= t.invoices[i].due + terms.Retention()
  }

  // ---------- A new invoice ----------

  /** `u` has one more invoice for `sid` than `t`, the one at `k`, and the same row for it. */
  ghost predicate Adds(t: Tables, u: Tables, sid: nat, k: nat, start: nat, terms: Terms) {
    && t.Live(sid) && u.Live(sid) && u.servers[sid] == t.servers[sid]
    && |t.invoices| <= k < |u.invoices| && IsBill(u.invoices[k], sid, start, terms)
    && (forall i :: 0 <= i < |t.invoices| ==> u.invoices[i] == t.invoices[i])
    && (forall i :: |t.invoices| <= i < |u.invoices| && i != k ==> !u.invoices[i].Of(sid))
  }

  /** A new period starts where the latest one ends, or is the first. */
  ghost predicate Continues(t: Tables, sid: nat, start: nat)
    requires t.Live(sid)
  {
    && start >= t.servers[sid].value.createdAt
    && if LatestEnd(t, sid).Some? then start == LatestEnd(t, sid).value else !t.HasInvoice(sid)
  }

  lemma AddingFollows(t: Tables, u: Tables, sid: nat, k: nat, start: nat, terms: Terms, j: nat)
    requires Adds(t, u, sid, k, start, terms) && Tiles(t, sid) && Continues(t, sid, start)
    requires j < |u.invoices| && u.invoices[j].Of(sid)
    ensures Follows(u, sid, j)
  {
    if j < |t.invoices| {
      assert Follows(t, sid, j);
    } else if LatestEnd(t, sid).Some? {
      var i :| 0 <= i < |t.invoices| && t.invoices[i].Of(sid) && t.invoices[i].end == start;
      assert u.invoices[i].Of(sid) && u.invoices[i].end == u.invoices[j].start;
    }
  }

  lemma AddingTiles(t: Tables, u: Tables, sid: nat, k: nat, start: nat, terms: Terms)
    requires Adds(t, u, sid, k, start, terms) && Tiles(t, sid) && Continues(t, sid, start)
    ensures Tiles(u, sid)
  {
    forall j | 0 <= j < |u.invoices| && u.invoices[j].Of(sid) ensures Follows(u, sid, j) {
      AddingFollows(t, u, sid, k, start, terms, j);
    }
  }

  lemma AddingSetsLatest(t: Tables, u: Tables, sid: nat, k: nat, start: nat, terms: Terms)
    requires Adds(t, u, sid, k, start, terms)
    requires forall i :: 0 <= i < |t.invoices| && t.invoices[i].Of(sid) ==> t.invoices[i].end <= start
    ensures LatestEnd(u, sid) == Some(u.invoices[k].end)
  {
  }

  // ---------- Steps that leave a server alone ----------

  ghost predicate Same(t: Tables, u: Tables, sid: nat) {
    && t.Live(sid) && u.Live(sid) && u.servers[sid] == t.servers[sid] && |t.invoices| <= |u.invoices|
    && (forall i :: 0 <= i < |t.invoices| && (t.invoices[i].Of(sid) || u.invoices[i].Of(sid)) ==>
          u.invoices[i] == t.invoices[i])
    && (forall i :: |t.invoices| <= i < |u.invoices| ==> !u.invoices[i].Of(sid))
  }

  lemma SameLatest(t: Tables, u: Tables, sid: nat)
    requires Same(t, u, sid)
    ensures LatestEnd(u, sid) == LatestEnd(t, sid)
  {
    var a, b := LatestEnd(t, sid), LatestEnd(u, sid);
    if a.Some? {
      var i :| 0 <= i < |t.invoices| && t.invoices[i].Of(sid) && t.invoices[i].end == a.value;
      assert u.invoices[i].Of(sid);
    }
    if b.Some? {
      var i :| 0 <= i < |u.invoices| && u.invoices[i].Of(sid) && u.invoices[i].end == b.value;
      assert t.invoices[i].Of(sid);
    }
  }

  lemma SameKeepsTiles(t: Tables, u: Tables, sid: nat)
    requires Same(t, u, sid) && Tiles(t, sid)
    ensures Tiles(u, sid)
  {
    forall j | 0 <= j < |u.invoices| && u.invoices[j].Of(sid) ensures Follows(u, sid, j) {
      assert Follows(t, sid, j);
    }
  }

  // ---------- Renewal ----------

  /** The invoices of `u` are those of `t` and one for each server of `due`, in ascending order. */
  ghost predicate Appends(t: Tables, u: Tables, due: seq<nat>) {
    && u.servers == t.servers && |u.invoices| == |t.invoices| + |due|
    && (forall i :: 0 <= i < |t.invoices| ==> u.invoices[i] == t.invoices[i])
    && (forall i :: 0 <= i < |due| ==> u.invoices[|t.invoices| + i].Of(due[i]))
    && (forall i, j :: 0 <= i < j < |due| ==> due[i] < due[j])
  }

  lemma AppendsOne(t: Tables, u: Tables, due: seq<nat>, i: nat, start: nat, terms: Terms)
    requires Appends(t, u, due) && i < |due| && t.Live(due[i])
    requires IsBill(u.invoices[|t.invoices| + i], due[i], start, terms)
    ensures Adds(t, u, due[i], |t.invoices| + i, start, terms)
  {
    forall j | |t.invoices| <= j < |u.invoices| && j != |t.invoices| + i ensures !u.invoices[j].Of(due[i]) {
      assert u.invoices[|t.invoices| + (j - |t.invoices|)].Of(due[j - |t.invoices|]);
    }
  }

  lemma AppendsNone(t: Tables, u: Tables, due: seq<nat>, sid: nat)
    requires Appends(t, u, due) && t.Live(sid) && sid !in due
    ensures Same(t, u, sid)
  {
    forall j | |t.invoices| <= j < |u.invoices| ensures !u.invoices[j].Of(sid) {
      assert u.invoices[|t.invoices| + (j - |t.invoices|)].Of(due[j - |t.invoices|]);
    }
  }

  lemma BillsAppend(t: Tables, u: Tables, terms: Terms, now: nat, due: seq<nat>, bills: seq<Invoice>)
    requires u.servers == t.servers && u.invoices == t.invoices + bills && |bills| == |due|
    requires forall i :: 0 <= i < |due| ==> t.Live(due[i])
    requires forall i :: 0 <= i < |due| ==> IsBill(bills[i], due[i], StartOf(t, due[i], now), terms)
    requires forall i, j :: 0 <= i < j < |due| ==> due[i] < due[j]
    ensures Appends(t, u, due)
    ensures forall i :: 0 <= i < |due| ==>
      IsBill(u.invoices[|t.invoices| + i], due[i], StartOf(t, due[i], now), terms)
  {
    forall i | 0 <= i < |due| ensures u.invoices[|t.invoices| + i] == bills[i] {
    }
  }

  lemma RenewedAppends(t: Tables, terms: Terms, now: nat)
    ensures Appends(t, Renewed(t, terms, now), DueServers(t, now))
    ensures forall i :: 0 <= i < |DueServers(t, now)| ==>
      && IsDue(t, DueServers(t, now)[i], now)
      && IsBill(Renewed(t, terms, now).invoices[|t.invoices| + i], DueServers(t, now)[i],
                StartOf(t, DueServers(t, now)[i], now), terms)
  {
    var due := DueServers(t, now);
    BillsAppend(t, Renewed(t, terms, now), terms, now, due, Bills(t, terms, now, due, |due|));
  }

  lemma DuePosition(t: Tables, now: nat, sid: nat) returns (i: nat)
    requires IsDue(t, sid, now)
    ensures i < |DueServers(t, now)| && DueServers(t, now)[i] == sid
  {
    assert sid in DueServers(t, now);
    i :| 0 <= i < |DueServers(t, now)| && DueServers(t, now)[i] == sid;
  }

  lemma RenewedAdds(t: Tables, terms: Terms, now: nat, sid: nat) returns (k: nat)
    requires IsDue(t, sid, now)
    ensures Adds(t, Renewed(t, terms, now), sid, k, StartOf(t, sid, now), terms)
  {
    var i := DuePosition(t, now, sid);
    RenewedAppends(t, terms, now);
    AppendsOne(t, Renewed(t, terms, now), DueServers(t, now), i, StartOf(t, sid, now), terms);
    k := |t.invoices| + i;
  }

  lemma RenewedSame(t: Tables, terms: Terms, now: nat, sid: nat)
    requires t.Live(sid) && !IsDue(t, sid, now)
    ensures Same(t, Renewed(t, terms, now), sid)
  {
    RenewedAppends(t, terms, now);
    AppendsNone(t, Renewed(t, terms, now), DueServers(t, now), sid);
  }

  lemma StartIsLatest(t: Tables, sid: nat, now: nat)
    requires t.Live(sid) && Tiles(t, sid) && t.servers[sid].value.createdAt <= now && IsDue(t, sid, now)
    ensures t.servers[sid].value.createdAt <= StartOf(t, sid, now) <= now
    ensures if LatestEnd(t, sid).Some? then StartOf(t, sid, now) == LatestEnd(t, sid).value
            else !t.HasInvoice(sid) && StartOf(t, sid, now) == now
  {
    if LatestEnd(t, sid).Some? {
      var i :| 0 <= i < |t.invoices| && t.invoices[i].Of(sid) && t.invoices[i].end == LatestEnd(t, sid).value;
      assert AboutAMonth(t.invoices[i]);
    }
  }

  lemma RenewKeepsTiles(t: Tables, terms: Terms, sid: nat, now: nat)
    requires t.Live(sid) && Tiles(t, sid) && Begun(t, sid, now)
    ensures var u := Renewed(t, terms, now);
      u.Live(sid) && u.servers[sid] == t.servers[sid] && Tiles(u, sid) && Begun(u, sid, now)
  {
    var u := Renewed(t, terms, now);
    if IsDue(t, sid, now) {
      var k := RenewedAdds(t, terms, now, sid);
      StartIsLatest(t, sid, now);
      AddingTiles(t, u, sid, k, StartOf(t, sid, now), terms);
    } else {
      RenewedSame(t, terms, now, sid);
      SameKeepsTiles(t, u, sid);
    }
  }

  // ---------- Suspension ----------

  /** The invoices of `sid` are for the same periods. */
  ghost predicate SameSpans(t: Tables, u: Tables, sid: nat) {
    && t.Live(sid) && u.Live(sid) && u.servers[sid].value.createdAt == t.servers[sid].value.createdAt
    && |u.invoices| == |t.invoices|
    && (forall i :: 0 <= i < |t.invoices| ==> (u.invoices[i].Of(sid) <==> t.invoices[i].Of(sid)))
    && (forall i :: 0 <= i < |t.invoices| && t.invoices[i].Of(sid) ==>
          && u.invoices[i].start == t.invoices[i].start && u.invoices[i].end == t.invoices[i].end
          && u.invoices[i].due == t.invoices[i].due)
  }

  lemma SpansKeepTiles(t: Tables, u: Tables, sid: nat)
    requires SameSpans(t, u, sid) && Tiles(t, sid)
    ensures Tiles(u, sid)
  {
    forall j | 0 <= j < |u.invoices| && u.invoices[j].Of(sid) ensures Follows(u, sid, j) {
      assert Follows(t, sid, j);
    }
  }

  lemma SpansKeepLatest(t: Tables, u: Tables, sid: nat)
    requires SameSpans(t, u, sid)
    ensures LatestEnd(u, sid) == LatestEnd(t, sid)
  {
    var a, b := LatestEnd(t, sid), LatestEnd(u, sid);
    if a.Some? {
      var i :| 0 <= i < |t.invoices| && t.invoices[i].Of(sid) && t.invoices[i].end == a.value;
      assert u.invoices[i].Of(sid);
    }
    if b.Some? {
      var i :| 0 <= i < |u.invoices| && u.invoices[i].Of(sid) && u.invoices[i].end == b.value;
      assert t.invoices[i].Of(sid);
    }
  }

  lemma SpansKeepBegun(t: Tables, u: Tables, sid: nat, clock: nat)
    requires SameSpans(t, u, sid) && Begun(t, sid, clock)
    ensures Begun(u, sid, clock)
  {
  }

  lemma LapseKeepsSpans(t: Tables, sid: nat, now: nat, broken: set<nat>)
    requires t.Live(sid)
    ensures SameSpans(t, Lapsed(t, now, broken), sid) && NoneLate(Lapsed(t, now, broken), sid, now)
  {
  }

  /** What lapses is overdue afterwards, whether its stop call breaks or not. */
  lemma LapsedIsOverdue(t: Tables, sid: nat, i: nat, now: nat, broken: set<nat>)
    requires i < |t.invoices| && t.invoices[i].Of(sid) && Lapsing(t.invoices[i], now)
    ensures var u := Lapsed(t, now, broken);
      u.invoices[i] == t.invoices[i].(status := Overdue) && HasOverdue(u, sid)
  {
    var u := Lapsed(t, now, broken);
    assert u.invoices[i].Of(sid) && u.invoices[i].status.Overdue?;
  }

  // ---------- Reclaim ----------

  lemma ReclaimSpares(t: Tables, terms: Terms, sid: nat, now: nat)
    requires t.Live(sid)
    ensures var u := Reclaimed(t, terms, now);
      if Reclaiming(t, sid, terms, now) then !u.Live(sid) else Same(t, u, sid) && NoneAbandoned(u, sid, terms, now)
  {
  }

  /** Open beyond the retention window at a pass: the server is deleted at once. */
  lemma LateIsDeleted(t: Tables, terms: Terms, sid: nat, i: nat, now: nat, broken: set<nat>)
    requires t.Live(sid) && i < |t.invoices| && t.invoices[i].Of(sid) && t.invoices[i].Unpaid()
    requires t.invoices[i].due + terms.Retention() < now
    ensures !Reclaimed(Lapsed(t, now, broken), terms, now).Live(sid)
  {
    var lapsed := Lapsed(t, now, broken);
    assert lapsed.invoices[i].Of(sid) && Abandoned(lapsed.invoices[i], terms, now);
    ReclaimSpares(lapsed, terms, sid, now);
  }

  // ---------- A pass ----------

  /**
   Whatever the settings, however long after the pass before it, and whichever stop calls break, a
   pass continues the chain of periods.
   */
  lemma PassKeepsTiles(t: Tables, terms: Terms, sid: nat, now: nat, broken: set<nat>)
    requires t.Live(sid) && Tiles(t, sid) && Begun(t, sid, now)
    ensures var u := PassOver(t, terms, now, broken); u.Live(sid) ==> Tiles(u, sid) && Begun(u, sid, now)
  {
    var renewed := Renewed(t, terms, now);
    var lapsed := Lapsed(renewed, now, broken);
    RenewKeepsTiles(t, terms, sid, now);
    LapseKeepsSpans(renewed, sid, now, broken);
    SpansKeepTiles(renewed, lapsed, sid);
    SpansKeepBegun(renewed, lapsed, sid, now);
    ReclaimSpares(lapsed, terms, sid, now);
    if !Reclaiming(lapsed, sid, terms, now) {
      SameKeepsTiles(lapsed, PassOver(t, terms, now, broken), sid);
    }
  }

  predicate Billed(t: Tables, sid: nat, i: nat, moment: nat)
    requires i < |t.invoices|
  {
    t.invoices[i].Of(sid) && t.invoices[i].start <= moment < t.invoices[i].end
  }

  ghost predicate BilledNow(t: Tables, sid: nat, now: nat) {
    exists i :: 0 <= i < |t.invoices| && Billed(t, sid, i, now)
  }

  /** An open invoice whose period is over. */
  predicate Over(t: Tables, sid: nat, k: nat, terms: Terms, now: nat) {
    && k < |t.invoices| && t.invoices[k].Of(sid) && t.invoices[k].status.Open?
    && t.invoices[k].due == t.invoices[k].start + terms.Grace() && t.invoices[k].start + 28 * DAY <= now
  }

  /** After renewal an active server has an invoice for the moment, or one whose whole period is over already. */
  lemma RenewBills(t: Tables, terms: Terms, sid: nat, now: nat) returns (k: nat)
    requires t.Live(sid) && Tiles(t, sid) && Begun(t, sid, now)
    ensures var u := Renewed(t, terms, now);
      u.Live(sid) && (u.servers[sid].value.suspended || Over(u, sid, k, terms, now) || BilledNow(u, sid, now))
  {
    var u := Renewed(t, terms, now);
    if IsDue(t, sid, now) {
      k := RenewedAdds(t, terms, now, sid);
      StartIsLatest(t, sid, now);
      assert Billed(u, sid, k, now) || Over(u, sid, k, terms, now);
    } else {
      k := 0;
      RenewedSame(t, terms, now, sid);
      if !t.servers[sid].value.suspended {
        var i :| 0 <= i < |t.invoices| && t.invoices[i].Of(sid) && t.invoices[i].end > now;
        assert u.invoices[i] == t.invoices[i] && Billed(u, sid, i, now);
      }
    }
  }

  lemma BilledStays(t: Tables, terms: Terms, sid: nat, now: nat, broken: set<nat>)
    requires t.Live(sid) && BilledNow(t, sid, now)
    ensures var u := Reclaimed(Lapsed(t, now, broken), terms, now); u.Live(sid) ==> BilledNow(u, sid, now)
  {
    var lapsed := Lapsed(t, now, broken);
    var u := Reclaimed(lapsed, terms, now);
    ReclaimSpares(lapsed, terms, sid, now);
    var i :| 0 <= i < |t.invoices| && Billed(t, sid, i, now);
    if u.Live(sid) {
      assert lapsed.invoices[i].Of(sid) && u.invoices[i] == lapsed.invoices[i] && Billed(u, sid, i, now);
    }
  }

  lemma StaysSuspended(t: Tables, terms: Terms, sid: nat, now: nat, broken: set<nat>)
    requires t.Live(sid) && (t.servers[sid].value.suspended || Suspending(t, sid, now, broken))
    ensures var u := Reclaimed(Lapsed(t, now, broken), terms, now); u.Live(sid) ==> u.servers[sid].value.suspended
  {
    ReclaimSpares(Lapsed(t, now, broken), terms, sid, now);
  }

  /** The grace is so short that a period is not over before its invoice suspends the server, or deletes it. */
  predicate Brisk(terms: Terms, breaks: bool) {
    terms.Grace() + (if breaks then terms.Retention() else 0) < 28 * DAY
  }

  lemma PassBills(t: Tables, terms: Terms, sid: nat, now: nat, broken: set<nat>)
    requires Brisk(terms, broken != {}) && t.Live(sid) && Tiles(t, sid) && Begun(t, sid, now)
    ensures var u := PassOver(t, terms, now, broken);
      u.Live(sid) && !u.servers[sid].value.suspended ==> BilledNow(u, sid, now)
  {
    var u := Renewed(t, terms, now);
    var k := RenewBills(t, terms, sid, now);
    if u.servers[sid].value.suspended {
      StaysSuspended(u, terms, sid, now, broken);
    } else if BilledNow(u, sid, now) {
      BilledStays(u, terms, sid, now, broken);
    } else if broken == {} {
      assert Lapsing(u.invoices[k], now) && Suspending(u, sid, now, broken);
      StaysSuspended(u, terms, sid, now, broken);
    } else {
      LateIsDeleted(u, terms, sid, k, now, broken);
    }
  }

  // ---------- Payment ----------

  /** No payment, of whatever invoice, moves a period. */
  lemma PaymentKeepsSpans(t: Tables, sid: nat, i: nat, ref: string)
    requires t.Live(sid) && i < |t.invoices|
    ensures SameSpans(t, PaidWith(t, i, ref), sid)
  {
  }
}
