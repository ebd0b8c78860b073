/** The billing lifecycle: invoices, payments and the worker's pass. */
module Billing {
  // Server and invoice ids are row numbers; a deleted server leaves a gap, and its invoices lose their
  // reference to it.

  import opened Wrappers
  import opened Calendar
  import opened CalendarLaws

  datatype Status = Open | Paid | Overdue

  datatype Srv = Srv(createdAt: nat, suspended: bool)

  datatype Invoice = Invoice(
    server: Option<nat>, status: Status, start: nat, end: nat, due: nat, ref: Option<string>)
  {
    predicate Of(sid: nat) {
      server == Some(sid)
    }

    predicate Unpaid() {
      !status.Paid?
    }
  }

  /** BILLING_GRACE_DAYS and BILLING_RETENTION_DAYS. */
  datatype Terms = Terms(graceDays: nat, retentionDays: nat) {
    function Grace(): nat {
      graceDays * DAY
    }

    function Retention(): nat {
      retentionDays * DAY
    }
  }

  datatype Tables = Tables(servers: seq<Option<Srv>>, invoices: seq<Invoice>) {
    predicate Live(sid: nat) {
      sid < |servers| && servers[sid].Some?
    }

    predicate HasInvoice(sid: nat) {
      exists i :: 0 <= i < |invoices| && invoices[i].Of(sid)
    }

    /** Invoice.server references Server. */
    ghost predicate Linked() {
      forall i :: 0 <= i < |invoices| && invoices[i].server.Some? ==> Live(invoices[i].server.value)
    }
  }

  // ---------- One invoice ----------

  function EndOf(start: nat): (end: nat)
    ensures end == start + DaysInMonthOf(start) * DAY
    ensures start + 28 * DAY <= end <= start + 31 * DAY
  {
    NextMonth(start);
    SetUTCMonth(start, Month(Day(start)) + 1)
  }

  /** A period ends at the same time of the same date of the next month, as far as there is one. */
  ghost predicate ToNextMonth(start: nat, end: nat) {
    SameDateNextMonth(Day(start), Day(end)) && end % DAY == start % DAY
  }

  lemma EndsNextMonth(start: nat)
    ensures ToNextMonth(start, EndOf(start))
  {
    SetToNextMonth(start);
  }

  function DueOf(start: nat, terms: Terms): (due: nat)
    ensures due == start + terms.Grace()
  {
    LaterDate(start, terms.graceDays);
    SetUTCDate(start, Date(Day(start)) + terms.graceDays)
  }

  predicate AboutAMonth(inv: Invoice) {
    inv.start + 28 * DAY <= inv.end <= inv.start + 31 * DAY
  }

  predicate IsBill(inv: Invoice, sid: nat, start: nat, terms: Terms) {
    inv.Of(sid) && inv.status.Open? && inv.start == start && inv.due == start + terms.Grace() && AboutAMonth(inv)
  }

  function Issued(sid: nat, start: nat, terms: Terms): (inv: Invoice)
    ensures IsBill(inv, sid, start, terms)
  {
    Invoice(Some(sid), Open, start, EndOf(start), DueOf(start, terms), None)
  }

  /** The end of the latest of the first `k` invoices that are for `sid`. */
  function LatestUpto(invoices: seq<Invoice>, sid: nat, k: nat): (r: Option<nat>)
    requires k <= |invoices|
    ensures r.None? ==> forall i :: 0 <= i < k ==> !invoices[i].Of(sid)
    ensures r.Some? ==> exists i :: 0 <= i < k && invoices[i].Of(sid) && invoices[i].end == r.value
    ensures forall i :: 0 <= i < k && invoices[i].Of(sid) ==> r.Some? && invoices[i].end <= r.value
  {
    if k == 0 then None
    else
      var rest := LatestUpto(invoices, sid, k - 1);
      if invoices[k - 1].Of(sid) && (rest.Some? ==> rest.value < invoices[k - 1].end)
      then Some(invoices[k - 1].end) else rest
  }

  function LatestEnd(t: Tables, sid: nat): Option<nat> {
    LatestUpto(t.invoices, sid, |t.invoices|)
  }

  // ---------- The stages of a pass ----------

  /** The rows below `k` that a query returns, in id order. */
  function Where(k: nat, p: nat -> bool): (r: seq<nat>)
    ensures forall x: nat :: x in r <==> x < k && p(x)
    ensures forall i :: 0 <= i < |r| ==> r[i] < k && p(r[i])
    ensures forall i, j :: 0 <= i < j < |r| ==> r[i] < r[j]
  {
    if k == 0 then [] else Where(k - 1, p) + (if p(k - 1) then [k - 1] else [])
  }

  /** An active server without an invoice that reaches beyond `now`. */
  predicate IsDue(t: Tables, sid: nat, now: nat) {
    && t.Live(sid) && !t.servers[sid].value.suspended
    && forall i :: 0 <= i < |t.invoices| && t.invoices[i].Of(sid) ==> t.invoices[i].end <= now
  }

  /** A new period starts where the last one ended, if there is one. */
  function StartOf(t: Tables, sid: nat, now: nat): nat
    requires t.Live(sid)
  {
    var last := LatestEnd(t, sid);
    if last.Some? && last.value > t.servers[sid].value.createdAt then last.value else now
  }

  function DueServers(t: Tables, now: nat): (r: seq<nat>)
    ensures forall i :: 0 <= i < |r| ==> IsDue(t, r[i], now)
  {
    Where(|t.servers|, (sid: nat) => IsDue(t, sid, now))
  }

  /** The invoices for the first `k` servers that are due. */
  function Bills(t: Tables, terms: Terms, now: nat, due: seq<nat>, k: nat): (r: seq<Invoice>)
    requires k <= |due| && forall i :: 0 <= i < |due| ==> t.Live(due[i])
    ensures |r| == k && forall i :: 0 <= i < k ==> IsBill(r[i], due[i], StartOf(t, due[i], now), terms)
  {
    seq(k, i requires 0 <= i < k => Issued(due[i], StartOf(t, due[i], now), terms))
  }

  lemma BillsGrow(t: Tables, terms: Terms, now: nat, due: seq<nat>, k: nat)
    requires k < |due| && forall i :: 0 <= i < |due| ==> t.Live(due[i])
    ensures t.invoices + Bills(t, terms, now, due, k + 1) ==
      t.invoices + Bills(t, terms, now, due, k) + [Issued(due[k], StartOf(t, due[k], now), terms)]
  {
  }

  function Renewed(t: Tables, terms: Terms, now: nat): Tables {
    var due := DueServers(t, now);
    t.(invoices := t.invoices + Bills(t, terms, now, due, |due|))
  }

  predicate Lapsing(inv: Invoice, now: nat) {
    inv.status.Open? && inv.due < now && inv.server.Some?
  }

  function LapsingIds(t: Tables, now: nat): seq<nat> {
    Where(|t.invoices|, (i: nat) => i < |t.invoices| && Lapsing(t.invoices[i], now))
  }

  /** An invoice of the server lapses, and the stop call for it does not break. */
  predicate Suspending(t: Tables, sid: nat, now: nat, broken: set<nat>) {
    exists i :: 0 <= i < |t.invoices| && t.invoices[i].Of(sid) && Lapsing(t.invoices[i], now) && i !in broken
  }

  function Suspend(row: Option<Srv>): Option<Srv> {
    if row.Some? then Some(row.value.(suspended := true)) else None
  }

  /**
   Open invoices past their due date become overdue, and their servers are suspended unless the
   stop call breaks; `broken` are the invoices for which it does.
   */
  function Lapsed(t: Tables, now: nat, broken: set<nat>): Tables {
    Tables(
      seq(|t.servers|, sid requires 0 <= sid < |t.servers| =>
        if Suspending(t, sid, now, broken) then Suspend(t.servers[sid]) else t.servers[sid]),
      seq(|t.invoices|, i requires 0 <= i < |t.invoices| =>
        if Lapsing(t.invoices[i], now) then t.invoices[i].(status := Overdue) else t.invoices[i]))
  }

  predicate Abandoned(inv: Invoice, terms: Terms, now: nat) {
    inv.status.Overdue? && inv.due < now - terms.Retention() && inv.server.Some?
  }

  function AbandonedIds(t: Tables, terms: Terms, now: nat): seq<nat> {
    Where(|t.invoices|, (i: nat) => i < |t.invoices| && Abandoned(t.invoices[i], terms, now))
  }

  predicate Reclaiming(t: Tables, sid: nat, terms: Terms, now: nat) {
    exists i :: 0 <= i < |t.invoices| && t.invoices[i].Of(sid) && Abandoned(t.invoices[i], terms, now)
  }

  function Unlink(inv: Invoice, gone: bool): Invoice {
    if gone then inv.(server := None) else inv
  }

  /** Servers with an invoice overdue beyond the retention window are deleted. */
  function Reclaimed(t: Tables, terms: Terms, now: nat): Tables {
    Tables(
      seq(|t.servers|, sid requires 0 <= sid < |t.servers| =>
        if Reclaiming(t, sid, terms, now) then None else t.servers[sid]),
      seq(|t.invoices|, i requires 0 <= i < |t.invoices| =>
        Unlink(t.invoices[i], t.invoices[i].server.Some? && Reclaiming(t, t.invoices[i].server.value, terms, now))))
  }

  function PassOver(t: Tables, terms: Terms, now: nat, broken: set<nat>): Tables {
    Reclaimed(Lapsed(Renewed(t, terms, now), now, broken), terms, now)
  }

  // ---------- Payment and deletion ----------

  predicate Used(t: Tables, ref: string) {
    exists i :: 0 <= i < |t.invoices| && t.invoices[i].ref == Some(ref)
  }

  function Reactivated(t: Tables, sid: nat): Tables
    requires t.Live(sid)
  {
    t.(servers := t.servers[sid := Some(t.servers[sid].value.(suspended := false))])
  }

  /** A payment reference that was seen before changes nothing. */
  function PaidWith(t: Tables, i: nat, ref: string): Tables
    requires i < |t.invoices|
  {
    if Used(t, ref) then t
    else
      var u := t.(invoices := t.invoices[i := t.invoices[i].(status := Paid, ref := Some(ref))]);
      var server := t.invoices[i].server;
      if server.Some? && t.Live(server.value) then Reactivated(u, server.value) else u
  }

  function Removed(t: Tables, sid: nat): Tables
    requires sid < |t.servers|
  {
    Tables(t.servers[sid := None],
      seq(|t.invoices|, i requires 0 <= i < |t.invoices| => Unlink(t.invoices[i], t.invoices[i].Of(sid))))
  }

  // ---------- The operations ----------

  /** How the stop call to the agent ends: in time, with an error of the agent, or with any other error. */
  datatype Answer = Stopped | AgentFailed | Broke

  datatype Suspension = NoServer | WasSuspended | Thrown | Suspended

  /** The first `n` invoices for which the stop call breaks. */
  function Breaking(answers: nat -> Answer, n: nat): (broken: set<nat>)
    ensures forall i: nat :: i in broken <==> i < n && answers(i).Broke?
  {
    set i: nat | i < n && answers(i).Broke?
  }

  /** The ids whose call did not end with an error that stops the suspension. */
  function Effective(ids: seq<nat>, answers: nat -> Answer): (r: seq<nat>)
    ensures forall i :: i in r <==> i in ids && !answers(i).Broke?
  {
    if ids == [] then [] else
      (if answers(ids[0]).Broke? then [] else [ids[0]]) + Effective(ids[1..], answers)
  }

  class Office {
    const terms: Terms
    var servers: seq<Option<Srv>>
    var invoices: seq<Invoice>

    constructor (terms: Terms)
      ensures View() == Tables([], []) && this.terms == terms
    {
      this.terms := terms;
      servers, invoices := [], [];
    }

    function View(): Tables
      reads this
    {
      Tables(servers, invoices)
    }

    method CreateInvoiceForServer(sid: nat, start: nat) returns (ok: bool)
      modifies this`invoices
      ensures ok == View().Live(sid)
      ensures invoices == if ok then old(invoices) + [Issued(sid, start, terms)] else old(invoices)
      ensures ok ==> ToNextMonth(start, invoices[|invoices| - 1].end)
    {
      ok := View().Live(sid);
      if ok {
        var end := SetUTCMonth(start, Month(Day(start)) + 1);
        var due := SetUTCDate(start, Date(Day(start)) + terms.graceDays);
        NextMonth(start);
        LaterDate(start, terms.graceDays);
        EndsNextMonth(start);
        invoices := invoices + [Invoice(Some(sid), Open, start, end, due, None)];
      }
    }

    method FindByRef(ref: string) returns (found: Option<nat>)
      ensures found.Some? <==> Used(View(), ref)
      ensures found.Some? ==> found.value < |invoices| && invoices[found.value].ref == Some(ref)
    {
      for i := 0 to |invoices|
        invariant forall k :: 0 <= k < i ==> invoices[k].ref != Some(ref)
      {
        if invoices[i].ref == Some(ref) {
          return Some(i);
        }
      }
      found := None;
    }

    /** The server is active afterwards, and nothing else about it or about any other server has changed. */
    method ReactivateServer(sid: nat)
      requires View().Live(sid)
      modifies this`servers
      ensures View().Live(sid) && !servers[sid].value.suspended
      ensures servers[sid].value.createdAt == old(servers)[sid].value.createdAt
      ensures |servers| == |old(servers)|
      ensures forall i :: 0 <= i < |servers| && i != sid ==> servers[i] == old(servers)[i]
    {
      servers := servers[sid := Some(servers[sid].value.(suspended := false))];
    }

    /**
     The invoice that carries the reference afterwards; none when there is no such invoice.  Every
     other server, and every other invoice, is as before.
     */
    method MarkInvoicePaid(i: nat, ref: string) returns (paid: Option<nat>)
      modifies this
      ensures paid.None? <==> !old(Used(View(), ref)) && i >= old(|invoices|)
      ensures paid.Some? ==> paid.value < |invoices| && invoices[paid.value].ref == Some(ref)
      ensures paid.None? ==> View() == old(View())
      ensures paid.Some? ==>
        View() == if i < old(|invoices|) then PaidWith(old(View()), i, ref) else old(View())
    {
      ghost var t := View();
      var existing := FindByRef(ref);
      if existing.Some? {
        return existing;
      }
      if i >= |invoices| {
        return None;
      }
      invoices := invoices[i := invoices[i].(status := Paid, ref := Some(ref))];
      var server := invoices[i].server;
      if server.Some? && View().Live(server.value) {
        if servers[server.value].value.suspended {
          ReactivateServer(server.value);
          assert servers == Reactivated(t, server.value).servers;
        } else {
          assert servers[server.value := servers[server.value]] == servers;
        }
      }
      paid := Some(i);
    }

    /**
     An agent that fails does not keep a server from being suspended; any other error does.  A server
     that is suspended already is left alone, without a call.
     */
    method SuspendServer(sid: nat, answer: Answer) returns (r: Suspension)
      modifies this`servers
      ensures r.NoServer? <==> !old(View().Live(sid))
      ensures r.WasSuspended? <==> old(View().Live(sid) && servers[sid].value.suspended)
      ensures r.Thrown? <==> old(View().Live(sid) && !servers[sid].value.suspended) && answer.Broke?
      ensures !r.Suspended? ==> servers == old(servers)
      ensures r.Suspended? ==>
        && |servers| == |old(servers)| && servers[sid].Some? && servers[sid].value.suspended
        && servers[sid].value.createdAt == old(servers)[sid].value.createdAt
        && forall i :: 0 <= i < |servers| && i != sid ==> servers[i] == old(servers)[i]
    {
      if !View().Live(sid) {
        return NoServer;
      }
      if servers[sid].value.suspended {
        return WasSuspended;
      }
      if answer.Broke? {
        return Thrown;
      }
      servers := servers[sid := Some(servers[sid].value.(suspended := true))];
      r := Suspended;
    }

    /** The row goes, and with it the references of its invoices. */
    method DeleteServer(sid: nat) returns (found: bool)
      modifies this
      ensures found == old(View().Live(sid))
      ensures View() == if found then Removed(old(View()), sid) else old(View())
    {
      found := View().Live(sid);
      if found {
        servers := servers[sid := None];
        for i := 0 to |invoices|
          invariant |invoices| == |old(invoices)|
          invariant forall k :: 0 <= k < i ==> invoices[k] == Unlink(old(invoices)[k], old(invoices)[k].Of(sid))
          invariant forall k :: i <= k < |invoices| ==> invoices[k] == old(invoices)[k]
          invariant servers == old(servers)[sid := None]
        {
          if invoices[i].Of(sid) {
            invoices := invoices[i := invoices[i].(server := None)];
          }
        }
      }
    }

    /** One turn of the loop of job 1. */
    method BillNext(t: Tables, now: nat, due: seq<nat>, k: nat)
      requires servers == t.servers && due == DueServers(t, now) && k < |due|
      requires invoices == t.invoices + Bills(t, terms, now, due, k)
      modifies this`invoices
      ensures invoices == t.invoices + Bills(t, terms, now, due, k + 1)
    {
      assert IsDue(t, due[k], now);
      var created := CreateInvoiceForServer(due[k], StartOf(t, due[k], now));
      BillsGrow(t, terms, now, due, k);
    }

    /** Job 1. */
    method Renew(now: nat) returns (count: nat)
      modifies this`invoices
      ensures View() == Renewed(old(View()), terms, now) && count == |DueServers(old(View()), now)|
    {
      var t := View();
      var due := DueServers(t, now);
      count := 0;
      for k := 0 to |due|
        invariant count == k && servers == t.servers
        invariant invoices == t.invoices + Bills(t, terms, now, due, k)
      {
        BillNext(t, now, due, k);
        count := count + 1;
      }
    }

    /** One turn of the loop of job 2. */
    method LapseOne(i: nat, answer: Answer)
      requires i < |invoices| && invoices[i].server.Some?
      modifies this
      ensures invoices == old(invoices)[i := old(invoices)[i].(status := Overdue)]
      ensures |servers| == |old(servers)|
      ensures forall sid :: 0 <= sid < |servers| ==>
        servers[sid] ==
        if old(invoices)[i].Of(sid) && !answer.Broke? then Suspend(old(servers)[sid]) else old(servers)[sid]
    {
      invoices := invoices[i := invoices[i].(status := Overdue)];
      var r := SuspendServer(invoices[i].server.value, answer);
    }

    /**
     Job 2.  `answers(i)` is how the stop call for invoice `i` ends.  An invoice whose call breaks is
     overdue all the same, and its server stays active: no later pass of this job looks at it.
     */
    method SuspendOverdue(now: nat, answers: nat -> Answer) returns (count: nat)
      modifies this
      ensures View() == Lapsed(old(View()), now, Breaking(answers, |old(invoices)|))
      ensures count == |LapsingIds(old(View()), now)|
    {
      var t := View();
      var ids := LapsingIds(t, now);
      count := 0;
      for k := 0 to |ids|
        invariant count == k && Partly(t, ids, answers, k, View())
      {
        ghost var before := View();
        LapseOne(ids[k], answers(ids[k]));
        PartlyNext(t, ids, answers, k, before, View());
        count := count + 1;
      }
      assert ids[..|ids|] == ids;
      AllLapsed(t, invoices, now, Breaking(answers, |t.invoices|));
      AllSuspended(t, servers, now, answers);
    }

    /** One turn of the loop of job 3: the server may be gone already, by another of its invoices. */
    method ReclaimOne(sid: nat)
      requires View().Linked()
      modifies this
      ensures View().Linked() && |servers| == |old(servers)| && |invoices| == |old(invoices)|
      ensures forall i :: 0 <= i < |servers| ==> servers[i] == if i == sid then None else old(servers)[i]
      ensures forall i :: 0 <= i < |invoices| ==> invoices[i] == Unlink(old(invoices)[i], old(invoices)[i].Of(sid))
    {
      ghost var t := View();
      var found := DeleteServer(sid);
      if !found {
        assert forall i :: 0 <= i < |t.invoices| ==> !t.invoices[i].Of(sid);
      }
    }

    /** Job 3. */
    method ReclaimAbandoned(now: nat) returns (count: nat)
      requires View().Linked()
      modifies this
      ensures View() == Reclaimed(old(View()), terms, now) && count == |AbandonedIds(old(View()), terms, now)|
    {
      var t := View();
      var ids := AbandonedIds(t, terms, now);
      count := 0;
      for k := 0 to |ids|
        invariant count == k && |invoices| == |t.invoices| && |servers| == |t.servers| && View().Linked()
        invariant forall i :: 0 <= i < |invoices| ==>
          invoices[i] ==
          Unlink(t.invoices[i], t.invoices[i].server.Some? && Hit(t, ids[..k], t.invoices[i].server.value))
        invariant forall sid :: 0 <= sid < |servers| ==>
          servers[sid] == if Hit(t, ids[..k], sid) then None else t.servers[sid]
      {
        HitGrows(t, ids, k);
        ReclaimOne(t.invoices[ids[k]].server.value);
        count := count + 1;
      }
      assert ids[..|ids|] == ids;
      AllReclaimed(t, View(), terms, now);
    }

    /** The worker pass: three jobs in strict order. */
    method RunBillingCycle(now: nat, answers: nat -> Answer)
      returns (invoiced: nat, suspended: nat, reclaimed: nat)
      requires View().Linked()
      modifies this
      ensures View().Linked()
      ensures var n := |Renewed(old(View()), terms, now).invoices|;
        && View() == PassOver(old(View()), terms, now, Breaking(answers, n))
        && reclaimed == |AbandonedIds(Lapsed(Renewed(old(View()), terms, now), now, Breaking(answers, n)), terms, now)|
      ensures invoiced == |DueServers(old(View()), now)|
      ensures suspended == |LapsingIds(Renewed(old(View()), terms, now), now)|
    {
      ghost var t := View();
      PassKeepsLinks(t, terms, now, Breaking(answers, |Renewed(t, terms, now).invoices|));
      invoiced := Renew(now);
      suspended := SuspendOverdue(now, answers);
      reclaimed := ReclaimAbandoned(now);
    }
  }

  /** One of the listed invoices is for `sid`. */
  ghost predicate Hit(t: Tables, ids: seq<nat>, sid: nat) {
    exists i :: i in ids && i < |t.invoices| && t.invoices[i].Of(sid)
  }

  lemma HitGrows(t: Tables, ids: seq<nat>, k: nat)
    requires k < |ids| && ids[k] < |t.invoices|
    ensures ids[..k + 1] == ids[..k] + [ids[k]]
    ensures forall sid: nat :: Hit(t, ids[..k + 1], sid) <==> Hit(t, ids[..k], sid) || t.invoices[ids[k]].Of(sid)
  {
    assert ids[..k + 1] == ids[..k] + [ids[k]];
    forall sid: nat | t.invoices[ids[k]].Of(sid) ensures Hit(t, ids[..k + 1], sid) {
      assert ids[k] in ids[..k + 1];
    }
    forall sid: nat | Hit(t, ids[..k], sid) ensures Hit(t, ids[..k + 1], sid) {
      var i :| i in ids[..k] && i < |t.invoices| && t.invoices[i].Of(sid);
      assert i in ids[..k + 1];
    }
  }

  /** Job 2 has been through the first `k` of the listed invoices. */
  ghost predicate Partly(t: Tables, ids: seq<nat>, answers: nat -> Answer, k: nat, u: Tables)
    requires k <= |ids|
  {
    && |u.invoices| == |t.invoices| && |u.servers| == |t.servers|
    && (forall i :: 0 <= i < |u.invoices| ==>
          u.invoices[i] == if i in ids[..k] then t.invoices[i].(status := Overdue) else t.invoices[i])
    && (forall sid :: 0 <= sid < |u.servers| ==>
          u.servers[sid] ==
          if Hit(t, Effective(ids[..k], answers), sid) then Suspend(t.servers[sid]) else t.servers[sid])
  }

  lemma PartlyNext(t: Tables, ids: seq<nat>, answers: nat -> Answer, k: nat, u: Tables, v: Tables)
    requires k < |ids| && Partly(t, ids, answers, k, u) && ids[k] < |t.invoices|
    requires forall j :: 0 <= j < k ==> ids[j] != ids[k]
    requires v.invoices == u.invoices[ids[k] := u.invoices[ids[k]].(status := Overdue)] && |v.servers| == |u.servers|
    requires forall sid :: 0 <= sid < |u.servers| ==>
      v.servers[sid] ==
      if u.invoices[ids[k]].Of(sid) && !answers(ids[k]).Broke? then Suspend(u.servers[sid]) else u.servers[sid]
    ensures Partly(t, ids, answers, k + 1, v)
  {
    HitGrows(t, ids, k);
    EffectiveGrows(t, ids, answers, k);
  }

  lemma EffectiveGrows(t: Tables, ids: seq<nat>, answers: nat -> Answer, k: nat)
    requires k < |ids| && ids[k] < |t.invoices|
    ensures forall sid: nat :: Hit(t, Effective(ids[..k + 1], answers), sid) <==>
      Hit(t, Effective(ids[..k], answers), sid) || (t.invoices[ids[k]].Of(sid) && !answers(ids[k]).Broke?)
  {
    assert ids[..k + 1] == ids[..k] + [ids[k]];
    var (a, b) := (Effective(ids[..k], answers), Effective(ids[..k + 1], answers));
    assert forall i :: i in b <==> i in a || (i == ids[k] && !answers(i).Broke?);
  }

  lemma AllLapsed(t: Tables, invoices: seq<Invoice>, now: nat, broken: set<nat>)
    requires |invoices| == |t.invoices|
    requires forall i :: 0 <= i < |invoices| ==>
      invoices[i] == if i in LapsingIds(t, now) then t.invoices[i].(status := Overdue) else t.invoices[i]
    ensures invoices == Lapsed(t, now, broken).invoices
  {
  }

  lemma AllSuspended(t: Tables, servers: seq<Option<Srv>>, now: nat, answers: nat -> Answer)
    requires |servers| == |t.servers|
    requires forall sid :: 0 <= sid < |servers| ==>
      servers[sid] ==
      if Hit(t, Effective(LapsingIds(t, now), answers), sid) then Suspend(t.servers[sid]) else t.servers[sid]
    ensures servers == Lapsed(t, now, Breaking(answers, |t.invoices|)).servers
  {
    forall sid: nat
      ensures Hit(t, Effective(LapsingIds(t, now), answers), sid) <==>
        Suspending(t, sid, now, Breaking(answers, |t.invoices|))
    {
      if Suspending(t, sid, now, Breaking(answers, |t.invoices|)) {
        var i :| 0 <= i < |t.invoices| && t.invoices[i].Of(sid) && Lapsing(t.invoices[i], now)
          && i !in Breaking(answers, |t.invoices|);
        assert i in LapsingIds(t, now);
      }
    }
  }

  lemma AllReclaimed(t: Tables, u: Tables, terms: Terms, now: nat)
    requires |u.invoices| == |t.invoices| && |u.servers| == |t.servers|
    requires var ids := AbandonedIds(t, terms, now);
      && (forall i :: 0 <= i < |u.invoices| ==>
            u.invoices[i]
            == Unlink(t.invoices[i], t.invoices[i].server.Some? && Hit(t, ids, t.invoices[i].server.value)))
      && (forall sid :: 0 <= sid < |u.servers| ==>
            u.servers[sid] == if Hit(t, ids, sid) then None else t.servers[sid])
    ensures u == Reclaimed(t, terms, now)
  {
    forall sid: nat ensures Hit(t, AbandonedIds(t, terms, now), sid) <==> Reclaiming(t, sid, terms, now) {
      if Reclaiming(t, sid, terms, now) {
        var i :| 0 <= i < |t.invoices| && t.invoices[i].Of(sid) && Abandoned(t.invoices[i], terms, now);
        assert i in AbandonedIds(t, terms, now);
      }
    }
  }

  lemma RenewKeepsLinks(t: Tables, terms: Terms, now: nat)
    requires t.Linked()
    ensures Renewed(t, terms, now).Linked()
  {
    assert forall i :: 0 <= i < |DueServers(t, now)| ==> IsDue(t, DueServers(t, now)[i], now);
  }

  lemma LapseKeepsLinks(t: Tables, now: nat, broken: set<nat>)
    requires t.Linked()
    ensures Lapsed(t, now, broken).Linked()
  {
    var u := Lapsed(t, now, broken);
    forall i | 0 <= i < |u.invoices| && u.invoices[i].server.Some? ensures u.Live(u.invoices[i].server.value) {
      assert t.invoices[i].server == u.invoices[i].server;
    }
  }

  lemma ReclaimKeepsLinks(t: Tables, terms: Terms, now: nat)
    requires t.Linked()
    ensures Reclaimed(t, terms, now).Linked()
  {
    var u := Reclaimed(t, terms, now);
    forall i | 0 <= i < |u.invoices| && u.invoices[i].server.Some? ensures u.Live(u.invoices[i].server.value) {
      assert t.invoices[i].server == u.invoices[i].server;
    }
  }

  lemma PassKeepsLinks(t: Tables, terms: Terms, now: nat, broken: set<nat>)
    requires t.Linked()
    ensures Lapsed(Renewed(t, terms, now), now, broken).Linked() && PassOver(t, terms, now, broken).Linked()
  {
    RenewKeepsLinks(t, terms, now);
    LapseKeepsLinks(Renewed(t, terms, now), now, broken);
    ReclaimKeepsLinks(Lapsed(Renewed(t, terms, now), now, broken), terms, now);
  }
}
