/** Notice before deletion: what a pass knows of a server when it deletes it. */
module BillingNotice {
  // For every setting, with passes however far apart, whichever stop calls break, and payments of
  // whatever invoice.

  import opened Wrappers
  import opened Calendar
  import opened Billing
  import opened BillingSafety
  import opened BillingRuns

  /** The newest period reaches beyond `now`, or its invoice was not yet due then. */
  predicate Near(end: nat, terms: Terms, now: nat) {
    now < end || now + 28 * DAY <= end + terms.Grace()
  }

  ghost predicate EndsNear(t: Tables, sid: nat, terms: Terms, now: nat) {
    LatestEnd(t, sid).Some? && Near(LatestEnd(t, sid).value, terms, now)
  }

  ghost predicate NearIfUntried(t: Tables, sid: nat, terms: Terms, tried: set<nat>, last: nat) {
    sid !in tried && LatestEnd(t, sid).Some? ==> Near(LatestEnd(t, sid).value, terms, last)
  }

  /** The next period cannot start so far back that its invoice is abandoned when it is issued. */
  predicate Recent(end: nat, terms: Terms, last: nat) {
    last < end || last + 28 * DAY <= end + terms.Grace() + terms.Retention()
  }

  ghost predicate EndsRecently(t: Tables, sid: nat, terms: Terms, last: nat) {
    LatestEnd(t, sid).Some? ==> Recent(LatestEnd(t, sid).value, terms, last)
  }

  ghost predicate OverdueIsTried(t: Tables, sid: nat, tried: set<nat>) {
    HasOverdue(t, sid) ==> sid in tried
  }

  ghost predicate SuspendedIsOverdue(t: Tables, sid: nat)
    requires t.Live(sid)
  {
    t.servers[sid].value.suspended ==> HasOverdue(t, sid)
  }

  ghost predicate Watched(t: Tables, sid: nat, terms: Terms, tried: set<nat>, last: nat)
    requires t.Live(sid)
  {
    && Tiles(t, sid) && DueInTerms(t, sid, terms) && SuspendedIsOverdue(t, sid) && OverdueIsTried(t, sid, tried)
    && NoneLate(t, sid, last) && NoneAbandoned(t, sid, terms, last)
    && NearIfUntried(t, sid, terms, tried, last) && EndsRecently(t, sid, terms, last)
  }

  // ---------- A pass ----------

  /** What renewal leaves for suspension to look at. */
  ghost predicate Looked(t: Tables, sid: nat, terms: Terms, tried: set<nat>, now: nat)
    requires t.Live(sid)
  {
    && Tiles(t, sid) && DueInTerms(t, sid, terms) && SuspendedIsOverdue(t, sid) && OverdueIsTried(t, sid, tried)
    && (HasOverdue(t, sid) || Suspending(t, sid, now, {}) || EndsNear(t, sid, terms, now))
  }

  lemma SameOverdue(t: Tables, u: Tables, sid: nat)
    requires Same(t, u, sid)
    ensures HasOverdue(u, sid) <==> HasOverdue(t, sid)
  {
    if HasOverdue(t, sid) {
      var i :| 0 <= i < |t.invoices| && t.invoices[i].Of(sid) && t.invoices[i].status.Overdue?;
      assert u.invoices[i] == t.invoices[i];
    }
    if HasOverdue(u, sid) {
      var i :| 0 <= i < |u.invoices| && u.invoices[i].Of(sid) && u.invoices[i].status.Overdue?;
      assert u.invoices[i] == t.invoices[i];
    }
  }

  lemma SameDues(t: Tables, u: Tables, sid: nat, terms: Terms)
    requires Same(t, u, sid) && DueInTerms(t, sid, terms)
    ensures DueInTerms(u, sid, terms)
  {
  }

  lemma AddingOverdue(t: Tables, u: Tables, sid: nat, k: nat, start: nat, terms: Terms)
    requires Adds(t, u, sid, k, start, terms)
    ensures HasOverdue(u, sid) <==> HasOverdue(t, sid)
  {
    if HasOverdue(t, sid) {
      var i :| 0 <= i < |t.invoices| && t.invoices[i].Of(sid) && t.invoices[i].status.Overdue?;
      assert u.invoices[i] == t.invoices[i];
    }
    if HasOverdue(u, sid) {
      var i :| 0 <= i < |u.invoices| && u.invoices[i].Of(sid) && u.invoices[i].status.Overdue?;
      assert i != k && u.invoices[i] == t.invoices[i];
    }
  }

  lemma AddingDues(t: Tables, u: Tables, sid: nat, k: nat, start: nat, terms: Terms)
    requires Adds(t, u, sid, k, start, terms) && DueInTerms(t, sid, terms)
    ensures DueInTerms(u, sid, terms)
  {
  }

  lemma AddingIsLooked(
    t: Tables, u: Tables, sid: nat, k: nat, start: nat, terms: Terms, tried: set<nat>, now: nat)
    requires Adds(t, u, sid, k, start, terms) && Tiles(u, sid) && start <= now && DueInTerms(t, sid, terms)
    requires SuspendedIsOverdue(t, sid) && OverdueIsTried(t, sid, tried)
    requires forall i :: 0 <= i < |t.invoices| && t.invoices[i].Of(sid) ==> t.invoices[i].end <= start
    ensures Looked(u, sid, terms, tried, now)
  {
    AddingSetsLatest(t, u, sid, k, start, terms);
    AddingOverdue(t, u, sid, k, start, terms);
    AddingDues(t, u, sid, k, start, terms);
    assert Lapsing(u.invoices[k], now) || Near(u.invoices[k].end, terms, now);
  }

  lemma RenewIsLooked(t: Tables, sid: nat, terms: Terms, tried: set<nat>, last: nat, now: nat)
    requires t.Live(sid) && Watched(t, sid, terms, tried, last) && Begun(t, sid, now)
    ensures var u := Renewed(t, terms, now); u.Live(sid) && Looked(u, sid, terms, tried, now)
  {
    var u := Renewed(t, terms, now);
    RenewKeepsTiles(t, terms, sid, now);
    if IsDue(t, sid, now) {
      var k := RenewedAdds(t, terms, now, sid);
      StartIsLatest(t, sid, now);
      AddingIsLooked(t, u, sid, k, StartOf(t, sid, now), terms, tried, now);
    } else {
      RenewedSame(t, terms, now, sid);
      SameLatest(t, u, sid);
      SameOverdue(t, u, sid);
      SameDues(t, u, sid, terms);
    }
  }

  lemma LapseOverdue(t: Tables, sid: nat, now: nat, broken: set<nat>)
    ensures HasOverdue(Lapsed(t, now, broken), sid) <==> HasOverdue(t, sid) || Suspending(t, sid, now, {})
  {
    var u := Lapsed(t, now, broken);
    if HasOverdue(t, sid) {
      var i :| 0 <= i < |t.invoices| && t.invoices[i].Of(sid) && t.invoices[i].status.Overdue?;
      assert u.invoices[i].Of(sid) && u.invoices[i].status.Overdue?;
    }
    if Suspending(t, sid, now, {}) {
      var i :| 0 <= i < |t.invoices| && t.invoices[i].Of(sid) && Lapsing(t.invoices[i], now);
      LapsedIsOverdue(t, sid, i, now, broken);
    }
    if HasOverdue(u, sid) {
      var i :| 0 <= i < |u.invoices| && u.invoices[i].Of(sid) && u.invoices[i].status.Overdue?;
      assert t.invoices[i].Of(sid) && (t.invoices[i].status.Overdue? || Lapsing(t.invoices[i], now));
    }
  }

  lemma LapseSuspends(t: Tables, sid: nat, now: nat, broken: set<nat>)
    requires t.Live(sid)
    ensures var u := Lapsed(t, now, broken);
      u.Live(sid) && (u.servers[sid].value.suspended ==> t.servers[sid].value.suspended || Suspending(t, sid, now, {}))
  {
  }

  /** What suspension leaves for reclaim to look at. */
  ghost predicate Marked(t: Tables, sid: nat, terms: Terms, tried: set<nat>, now: nat)
    requires t.Live(sid)
  {
    && Tiles(t, sid) && DueInTerms(t, sid, terms) && SuspendedIsOverdue(t, sid) && OverdueIsTried(t, sid, tried)
    && NoneLate(t, sid, now) && (HasOverdue(t, sid) || EndsNear(t, sid, terms, now))
  }

  lemma SpansKeepDues(t: Tables, u: Tables, sid: nat, terms: Terms)
    requires SameSpans(t, u, sid) && DueInTerms(t, sid, terms)
    ensures DueInTerms(u, sid, terms)
  {
  }

  lemma LapseIsMarked(
    t: Tables, sid: nat, terms: Terms, tried: set<nat>, more: set<nat>, now: nat, broken: set<nat>)
    requires t.Live(sid) && Looked(t, sid, terms, tried, now) && (Suspending(t, sid, now, {}) ==> sid in more)
    ensures var u := Lapsed(t, now, broken); u.Live(sid) && Marked(u, sid, terms, tried + more, now)
  {
    var u := Lapsed(t, now, broken);
    LapseKeepsSpans(t, sid, now, broken);
    SpansKeepTiles(t, u, sid);
    SpansKeepLatest(t, u, sid);
    SpansKeepDues(t, u, sid, terms);
    LapseOverdue(t, sid, now, broken);
    LapseSuspends(t, sid, now, broken);
  }

  /** An overdue invoice that is kept is within the window, and no period ends before its own. */
  lemma KeptEndsRecently(t: Tables, sid: nat, terms: Terms, now: nat)
    requires t.Live(sid) && Tiles(t, sid) && DueInTerms(t, sid, terms) && NoneAbandoned(t, sid, terms, now)
    requires HasOverdue(t, sid)
    ensures EndsRecently(t, sid, terms, now)
  {
    var i :| 0 <= i < |t.invoices| && t.invoices[i].Of(sid) && t.invoices[i].status.Overdue?;
    assert AboutAMonth(t.invoices[i]) && t.invoices[i].end <= LatestEnd(t, sid).value;
  }

  /** What is left of a server that job 3 keeps. */
  lemma KeptIsWatched(t: Tables, u: Tables, sid: nat, terms: Terms, tried: set<nat>, now: nat)
    requires Same(t, u, sid) && Marked(t, sid, terms, tried, now) && NoneAbandoned(u, sid, terms, now)
    ensures Watched(u, sid, terms, tried, now)
  {
    SameKeepsTiles(t, u, sid);
    SameLatest(t, u, sid);
    SameOverdue(t, u, sid);
    SameDues(t, u, sid, terms);
    if HasOverdue(u, sid) {
      KeptEndsRecently(u, sid, terms, now);
    }
  }

  lemma PassKeepsWatched(
    t: Tables, sid: nat, terms: Terms, tried: set<nat>, last: nat, now: nat, broken: set<nat>)
    requires t.Live(sid) && Watched(t, sid, terms, tried, last) && Begun(t, sid, now)
    ensures var u := PassOver(t, terms, now, broken);
      u.Live(sid) ==> Watched(u, sid, terms, tried + Tried(t, terms, now), now)
  {
    var renewed, more := Renewed(t, terms, now), Tried(t, terms, now);
    var lapsed, u := Lapsed(renewed, now, broken), PassOver(t, terms, now, broken);
    RenewIsLooked(t, sid, terms, tried, last, now);
    LapseIsMarked(renewed, sid, terms, tried, more, now, broken);
    ReclaimSpares(lapsed, terms, sid, now);
    if u.Live(sid) {
      KeptIsWatched(lapsed, u, sid, terms, tried + more, now);
    }
  }

  // ---------- The other events ----------

  lemma SameKeepsWatched(t: Tables, u: Tables, sid: nat, terms: Terms, tried: set<nat>, last: nat)
    requires Same(t, u, sid) && Watched(t, sid, terms, tried, last)
    ensures Watched(u, sid, terms, tried, last)
  {
    SameKeepsTiles(t, u, sid);
    SameLatest(t, u, sid);
    SameOverdue(t, u, sid);
    SameDues(t, u, sid, terms);
  }

  /** The rows of `sid` in `u` are those of `t`, up to invoices that are paid. */
  ghost predicate Settled(t: Tables, u: Tables, sid: nat) {
    && SameSpans(t, u, sid)
    && (forall j :: 0 <= j < |t.invoices| && t.invoices[j].Of(sid) ==>
          u.invoices[j].status.Paid? || u.invoices[j].status == t.invoices[j].status)
    && (u.servers[sid].value.suspended ==>
          && t.servers[sid].value.suspended
          && forall j :: 0 <= j < |t.invoices| && t.invoices[j].Of(sid) ==>
               u.invoices[j].status == t.invoices[j].status)
  }

  lemma PaymentIsSettled(t: Tables, i: nat, ref: string, sid: nat)
    requires t.Live(sid) && i < |t.invoices|
    ensures Settled(t, PaidWith(t, i, ref), sid)
  {
    PaymentKeepsSpans(t, sid, i, ref);
  }

  lemma SettledOverdue(t: Tables, u: Tables, sid: nat)
    requires Settled(t, u, sid)
    ensures HasOverdue(u, sid) ==> HasOverdue(t, sid)
    ensures u.servers[sid].value.suspended && HasOverdue(t, sid) ==> HasOverdue(u, sid)
  {
    if u.servers[sid].value.suspended && HasOverdue(t, sid) {
      var j :| 0 <= j < |t.invoices| && t.invoices[j].Of(sid) && t.invoices[j].status.Overdue?;
      assert u.invoices[j].Of(sid) && u.invoices[j].status.Overdue?;
    }
  }

  lemma SettledIsTimely(t: Tables, u: Tables, sid: nat, terms: Terms, last: nat)
    requires Settled(t, u, sid) && NoneLate(t, sid, last) && NoneAbandoned(t, sid, terms, last)
    ensures NoneLate(u, sid, last) && NoneAbandoned(u, sid, terms, last)
  {
  }

  lemma SettledKeepsWatched(t: Tables, u: Tables, sid: nat, terms: Terms, tried: set<nat>, last: nat)
    requires Settled(t, u, sid) && Watched(t, sid, terms, tried, last)
    ensures Watched(u, sid, terms, tried, last)
  {
    SpansKeepTiles(t, u, sid);
    SpansKeepLatest(t, u, sid);
    SpansKeepDues(t, u, sid, terms);
    SettledOverdue(t, u, sid);
    SettledIsTimely(t, u, sid, terms, last);
  }

  lemma FirstIsWatched(w: World, at: nat, sid: nat, terms: Terms)
    requires Enabled(w, First(at, sid)) && Watched(w.t, sid, terms, w.tried, w.last) && w.last <= w.clock
    requires w.t.servers[sid].value.createdAt <= w.clock
    ensures Watched(Step(w, First(at, sid), terms).t, sid, terms, w.tried, w.last)
  {
    var u, k := Step(w, First(at, sid), terms).t, |w.t.invoices|;
    FirstAdds(w, at, sid, terms);
    AddingTiles(w.t, u, sid, k, at, terms);
    AddingSetsLatest(w.t, u, sid, k, at, terms);
    AddingOverdue(w.t, u, sid, k, at, terms);
    AddingDues(w.t, u, sid, k, at, terms);
  }

  ghost predicate AllWatched(w: World, terms: Terms) {
    && InOneRow(w) && w.last <= w.clock
    && forall sid: nat :: w.t.Live(sid) ==> Watched(w.t, sid, terms, w.tried, w.last)
  }

  lemma StepKeepsWatched(w: World, e: Event, terms: Terms, sid: nat)
    requires AllWatched(w, terms) && Enabled(w, e) && w.t.Live(sid) && Step(w, e, terms).t.Live(sid)
    ensures var v := Step(w, e, terms); Watched(v.t, sid, terms, v.tried, v.last)
  {
    var u := Step(w, e, terms).t;
    match e
    case Arrive(at) =>
      ArrivalIsSame(w, at, terms, sid);
      SameKeepsWatched(w.t, u, sid, terms, w.tried, w.last);
    case First(at, s) =>
      if s == sid {
        FirstIsWatched(w, at, sid, terms);
      } else {
        FirstIsSame(w, at, s, terms, sid);
        SameKeepsWatched(w.t, u, sid, terms, w.tried, w.last);
      }
    case Pass(at, broken) => PassKeepsWatched(w.t, sid, terms, w.tried, w.last, at, broken);
    case Pay(at, i, ref) =>
      PaymentIsSettled(w.t, i, ref, sid);
      SettledKeepsWatched(w.t, u, sid, terms, w.tried, w.last);
    case Cancel(at, s) =>
      CancelIsSame(w, at, s, terms, sid);
      SameKeepsWatched(w.t, u, sid, terms, w.tried, w.last);
  }

  lemma StepKeepsAllWatched(w: World, e: Event, terms: Terms)
    requires AllWatched(w, terms) && Enabled(w, e)
    ensures AllWatched(Step(w, e, terms), terms)
  {
    var v := Step(w, e, terms);
    StepKeepsInOneRow(w, e, terms);
    forall sid: nat | v.t.Live(sid) ensures Watched(v.t, sid, terms, v.tried, v.last) {
      if w.t.Live(sid) {
        StepKeepsWatched(w, e, terms, sid);
      }
    }
  }

  lemma {:induction false} RunKeepsAllWatched(regime: Regime, w: World, es: seq<Event>, terms: Terms, v: World)
    requires AllWatched(w, terms) && Reaches(regime, w, es, terms, v)
    ensures AllWatched(v, terms)
    decreases |es|
  {
    if es != [] {
      StepKeepsAllWatched(w, es[0], terms);
      RunKeepsAllWatched(regime, Step(w, es[0], terms), es[1..], terms, v);
    }
  }

  lemma ReachableIsWatched(regime: Regime, v: World, terms: Terms)
    requires Reachable(regime, v, terms)
    ensures AllWatched(v, terms)
  {
    var w, es :| Opening(w) && Reaches(regime, w, es, terms, v);
    RunKeepsAllWatched(regime, w, es, terms, v);
  }

  // ---------- Trying and suspending ----------

  lemma PassNotices(t: Tables, terms: Terms, now: nat)
    requires t.Linked()
    ensures Tried(t, terms, now) <= Noticed(t, terms, now, {})
  {
    var renewed := Renewed(t, terms, now);
    RenewKeepsLinks(t, terms, now);
    forall sid: nat | sid in Tried(t, terms, now) ensures Down(Lapsed(renewed, now, {}), sid) {
      var i :| 0 <= i < |renewed.invoices| && renewed.invoices[i].Of(sid) && Lapsing(renewed.invoices[i], now);
      assert renewed.Live(sid);
    }
  }

  /** While no stop call breaks, whoever is tried is suspended. */
  lemma {:induction false} TriedIsNoticed(regime: Regime, w: World, es: seq<Event>, terms: Terms, v: World)
    requires !regime.breaks && w.t.Linked() && w.tried <= w.noticed && Reaches(regime, w, es, terms, v)
    ensures v.tried <= v.noticed
    decreases |es|
  {
    if es != [] {
      StepKeepsLinks(w, es[0], terms);
      if es[0].Pass? {
        PassNotices(w.t, terms, es[0].at);
      }
      TriedIsNoticed(regime, Step(w, es[0], terms), es[1..], terms, v);
    }
  }

  // ---------- Passes that are no time apart ----------

  /** All passes are at the start of the run, before any server. */
  ghost predicate AtOnce(w: World) {
    && w.last <= w.clock
    && forall sid: nat :: w.t.Live(sid) ==> w.last <= w.t.servers[sid].value.createdAt
  }

  lemma PassKeepsArrivals(t: Tables, terms: Terms, now: nat, broken: set<nat>, sid: nat)
    requires PassOver(t, terms, now, broken).Live(sid)
    ensures t.Live(sid)
    ensures PassOver(t, terms, now, broken).servers[sid].value.createdAt == t.servers[sid].value.createdAt
  {
  }

  lemma StepKeepsAtOnce(w: World, e: Event, terms: Terms)
    requires AtOnce(w) && Enabled(w, e) && (e.Pass? ==> e.at <= w.last)
    ensures AtOnce(Step(w, e, terms))
  {
    var v := Step(w, e, terms);
    forall sid: nat | v.t.Live(sid) ensures v.last <= v.t.servers[sid].value.createdAt {
      if e.Pass? {
        PassKeepsArrivals(w.t, terms, e.at, e.broken, sid);
      }
    }
  }

  lemma {:induction false} RunKeepsAtOnce(regime: Regime, w: World, es: seq<Event>, terms: Terms, v: World)
    requires regime.gap == Some(0) && AtOnce(w) && Reaches(regime, w, es, terms, v)
    ensures AtOnce(v)
    decreases |es|
  {
    if es != [] {
      StepKeepsAtOnce(w, es[0], terms);
      RunKeepsAtOnce(regime, Step(w, es[0], terms), es[1..], terms, v);
    }
  }

  lemma ReachableIsAtOnce(regime: Regime, v: World, terms: Terms)
    requires regime.gap == Some(0) && Reachable(regime, v, terms)
    ensures AtOnce(v)
  {
    var w, es :| Opening(w) && Reaches(regime, w, es, terms, v);
    RunKeepsAtOnce(regime, w, es, terms, v);
  }

  // ---------- Deletion ----------

  /** A pass deletes a server for an invoice it found overdue, or for one it has just issued. */
  lemma AbandonedAfter(
    t: Tables, sid: nat, terms: Terms, tried: set<nat>, last: nat, now: nat, broken: set<nat>) returns (i: nat)
    requires t.Live(sid) && Watched(t, sid, terms, tried, last) && Begun(t, sid, now)
    requires last <= now <= last + terms.Retention() && !PassOver(t, terms, now, broken).Live(sid)
    ensures
      || (i < |t.invoices| && t.invoices[i].Of(sid) && Abandoned(t.invoices[i], terms, now))
      || (LatestEnd(t, sid).Some? && LatestEnd(t, sid).value + terms.Grace() + terms.Retention() < now)
  {
    var renewed := Renewed(t, terms, now);
    var lapsed := Lapsed(renewed, now, broken);
    RenewKeepsTiles(t, terms, sid, now);
    ReclaimSpares(lapsed, terms, sid, now);
    i :| 0 <= i < |lapsed.invoices| && lapsed.invoices[i].Of(sid) && Abandoned(lapsed.invoices[i], terms, now);
    assert renewed.invoices[i].Of(sid) && renewed.invoices[i].due + terms.Retention() < now;
    if IsDue(t, sid, now) {
      var k := RenewedAdds(t, terms, now, sid);
      StartIsLatest(t, sid, now);
      assert i == k || renewed.invoices[i] == t.invoices[i];
    } else {
      RenewedSame(t, terms, now, sid);
      assert renewed.invoices[i] == t.invoices[i];
    }
  }

  /** A pass that comes in time deletes only a server that an earlier pass has tried to suspend. */
  lemma DeletedWasTried(v: World, at: nat, broken: set<nat>, sid: nat, terms: Terms, gap: nat)
    requires gap <= terms.Retention()
    requires Reachable(InTime(gap, true), v, terms) && v.clock <= at <= v.last + gap
    requires v.t.Live(sid) && !PassOver(v.t, terms, at, broken).Live(sid)
    ensures sid in v.tried
  {
    ReachableIsWatched(InTime(gap, true), v, terms);
    var i := AbandonedAfter(v.t, sid, terms, v.tried, v.last, at, broken);
  }

  /** As long as no stop call breaks, that pass has suspended it. */
  lemma DeletedHadNotice(v: World, at: nat, sid: nat, terms: Terms, gap: nat)
    requires gap <= terms.Retention()
    requires Reachable(InTime(gap, false), v, terms) && v.clock <= at <= v.last + gap
    requires v.t.Live(sid) && !PassOver(v.t, terms, at, {}).Live(sid)
    ensures sid in v.noticed
  {
    StricterReachable(InTime(gap, false), InTime(gap, true), v, terms);
    DeletedWasTried(v, at, {}, sid, terms, gap);
    var w, es :| Opening(w) && Reaches(InTime(gap, false), w, es, terms, v);
    TriedIsNoticed(InTime(gap, false), w, es, terms, v);
  }

  /** With passes no more than four weeks apart, too, it is deleted for an invoice that was overdue before the pass. */
  lemma DeletedWasOverdue(v: World, at: nat, broken: set<nat>, sid: nat, terms: Terms, gap: nat)
    requires gap <= terms.Retention() && gap <= 28 * DAY
    requires Reachable(InTime(gap, true), v, terms) && v.clock <= at <= v.last + gap
    requires v.t.Live(sid) && !PassOver(v.t, terms, at, broken).Live(sid)
    ensures HasAbandoned(v.t, sid, terms, at)
  {
    ReachableIsWatched(InTime(gap, true), v, terms);
    var i := AbandonedAfter(v.t, sid, terms, v.tried, v.last, at, broken);
  }

  /** Without time between passes none is ever deleted. */
  lemma NoneDeletedAtOnce(v: World, at: nat, broken: set<nat>, sid: nat, terms: Terms, breaks: bool)
    requires Reachable(InTime(0, breaks), v, terms) && v.clock <= at <= v.last && v.t.Live(sid)
    ensures PassOver(v.t, terms, at, broken).Live(sid)
  {
    ReachableIsWatched(InTime(0, breaks), v, terms);
    ReachableIsAtOnce(InTime(0, breaks), v, terms);
    if !PassOver(v.t, terms, at, broken).Live(sid) {
      var i := AbandonedAfter(v.t, sid, terms, v.tried, v.last, at, broken);
    }
  }
}
