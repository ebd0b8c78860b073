/** What holds in every state that any interleaving can reach. */
module FleetTheorems {
  import opened Wrappers
  import opened Resources
  import opened Scheduler
  import opened Ledger
  import opened Fleet
  import opened FleetSafety

  /** A fleet at rest: no process is running and the tables agree with each other. */
  ghost predicate Opening(s: State) {
    && s.procs == [] && |s.busy| == |s.db.servers| && |s.makers| == |s.db.servers|
    && (forall i :: 0 <= i < |s.busy| ==> s.busy[i].None? && s.makers[i].None?)
    && Plausible(s.db.nodes) && ServersOk(s.db) && Bounded(s.db.nodes)
    && (forall n :: 0 <= n < |s.db.nodes| ==> s.db.nodes[n].reserved == Placed(s.db.servers, n))
    && PrimaryIffOwned(s.db.ports) && OnePerNode(s.db.ports)
    && (forall p :: 0 <= p < |s.db.ports| && s.db.ports[p].owner.Some? ==>
          var sid := s.db.ports[p].owner.value;
          s.db.Live(sid) && s.db.ports[p].node == s.db.servers[sid].value.node)
    && (forall sid: nat :: s.db.Live(sid) ==>
          Owns(s.db.ports, sid, s.db.servers[sid].value.node) && (s.db.servers[sid].value.node, sid) in s.worlds)
  }

  ghost predicate Reaches(s: State, es: seq<Event>, t: State)
    decreases |es|
  {
    if es == [] then t == s
    else ProcsOk(s) && BusyOk(s) && Enabled(s, es[0]) && Reaches(Step(s, es[0]), es[1..], t)
  }

  ghost predicate Reachable(t: State) {
    exists s, es :: Opening(s) && Reaches(s, es, t)
  }

  lemma OpeningHasInv(s: State)
    requires Opening(s)
    ensures Inv(s)
  {
    assert InFlights(s.procs) == [];
  }

  lemma {:induction false} RunKeepsInv(s: State, es: seq<Event>, t: State)
    requires Inv(s) && Reaches(s, es, t)
    ensures Inv(t)
    decreases |es|
  {
    if es != [] {
      StepKeepsInv(s, es[0]);
      RunKeepsInv(Step(s, es[0]), es[1..], t);
    }
  }

  lemma ReachableHasInv(t: State)
    requires Reachable(t)
    ensures Inv(t)
  {
    var s, es :| Opening(s) && Reaches(s, es, t);
    OpeningHasInv(s);
    RunKeepsInv(s, es, t);
  }

  // ---------- Conservation and capacity ----------

  /**
   In every reachable state each node's counters are the sum of the server rows on it
   and the reservations of the migrations under way to it, and they fit the node.
   */
  lemma Conservation(t: State, n: nat)
    requires Reachable(t) && n < |t.db.nodes|
    ensures t.db.nodes[n].reserved == Placed(t.db.servers, n).Plus(Total(InFlights(t.procs), n))
    ensures t.db.nodes[n].reserved.Leq(t.db.nodes[n].Capacity())
  {
    ReachableHasInv(t);
  }

  /** The charge that a step gives back, if it gives one back. */
  function Returned(t: State, e: Event): Option<Charge>
    requires ProcsOk(t) && BusyOk(t) && Enabled(t, e)
  {
    match e
    case Buy(RollBackPurchase(p)) => Some(Charge(t.procs[p].node, t.procs[p].plan.amount))
    case Del(FinishDelete(p)) => Some(Charge(t.procs[p].node, t.procs[p].amount))
    case Go(Switched(p)) => Some(Charge(t.procs[p].from, t.procs[p].amount))
    case Back(TargetReleased(p)) => Some(Charge(t.db.jobs[t.procs[p].job].to, t.procs[p].amount))
    case _ => None
  }

  /** What is returned is held: by the server's row, or by the migration as its target. */
  lemma ReturnedIsHeld(t: State, e: Event)
    requires ProcsOk(t) && BusyOk(t) && Enabled(t, e) && Returned(t, e).Some?
    ensures var c := Returned(t, e).value;
      || (e.Back? && e.r.p < |t.procs| && InFlights(t.procs)[e.r.p] == c)
      || (exists sid: nat :: t.db.Live(sid) && c == ChargeOf(t.db.servers[sid]))
  {
    var p := if e.Buy? then e.b.p else if e.Del? then e.d.p else if e.Go? then e.m.p else e.r.p;
    assert ProcOk(t.db, t.procs[p]);
    assert t.db.Live(t.procs[p].sid);
  }

  /** No release is ever clamped at zero: the node always has at least what is given back. */
  lemma ClampNeverFires(t: State, e: Event)
    requires Reachable(t) && ProcsOk(t) && BusyOk(t) && Enabled(t, e) && Returned(t, e).Some?
    ensures var c := Returned(t, e).value;
      c.node < |t.db.nodes| && c.amount.Leq(t.db.nodes[c.node].reserved)
  {
    ReachableHasInv(t);
    ReturnedIsHeld(t, e);
    HeldIsCovered(t, e);
  }

  lemma HeldIsCovered(t: State, e: Event)
    requires Books(t.db, InFlights(t.procs)) && ProcsOk(t) && BusyOk(t) && Enabled(t, e) && Returned(t, e).Some?
    requires var c := Returned(t, e).value;
      || (e.Back? && e.r.p < |t.procs| && InFlights(t.procs)[e.r.p] == c)
      || exists sid: nat :: t.db.Live(sid) && c == ChargeOf(t.db.servers[sid])
    ensures var c := Returned(t, e).value;
      c.node < |t.db.nodes| && c.amount.Leq(t.db.nodes[c.node].reserved)
  {
    var c, fs := Returned(t, e).value, InFlights(t.procs);
    if e.Back? && e.r.p < |t.procs| && fs[e.r.p] == c {
      InFlightIsCovered(t.db, fs, e.r.p);
    } else {
      var sid: nat :| t.db.Live(sid) && c == ChargeOf(t.db.servers[sid]);
      ServerIsCovered(t.db, fs, sid);
    }
  }

  // ---------- Ports ----------

  /**
   Every live server owns exactly one port on its own node; any other port it owns is on the
   node it is migrating to, and there is at most one there.  A port is primary iff it is owned.
   */
  lemma PortOwnership(t: State, sid: nat)
    requires Reachable(t) && t.db.Live(sid)
    ensures var own := t.db.servers[sid].value.node;
      && (exists p :: 0 <= p < |t.db.ports| && t.db.ports[p].owner == Some(sid) && t.db.ports[p].node == own
            && forall q :: 0 <= q < |t.db.ports| && t.db.ports[q].owner == Some(sid) && q != p ==>
                 sid < |t.busy| && t.busy[sid].Some? && t.busy[sid].value < |t.procs|
                 && t.procs[t.busy[sid].value].Migrating? && t.procs[t.busy[sid].value].sid == sid
                 && t.procs[t.busy[sid].value].to == t.db.ports[q].node != own)
      && (forall p, q :: 0 <= p < q < |t.db.ports| && t.db.ports[p].owner == Some(sid) == t.db.ports[q].owner ==>
            t.db.ports[p].node != t.db.ports[q].node)
      && PrimaryIffOwned(t.db.ports)
  {
    ReachableHasInv(t);
    var own := t.db.servers[sid].value.node;
    var p :| 0 <= p < |t.db.ports| && t.db.ports[p].owner == Some(sid) && t.db.ports[p].node == own;
    forall q | 0 <= q < |t.db.ports| && t.db.ports[q].owner == Some(sid) && q != p
      ensures t.busy[sid].Some? && t.procs[t.busy[sid].value].Migrating?
      ensures t.procs[t.busy[sid].value].sid == sid && t.procs[t.busy[sid].value].to == t.db.ports[q].node != own
    {
      assert Heading(t, sid, t.db.ports[q].node);
    }
  }

  /** Every port keeps its owner or becomes free, unless it was free. */
  ghost predicate HandsOverFree(before: seq<Port>, after: seq<Port>) {
    && |before| == |after|
    && forall p :: 0 <= p < |before| && before[p].owner.Some? ==>
         after[p].owner == before[p].owner || after[p].owner.None?
  }

  lemma BuyHandsOverFree(s: State, e: Purchase)
    requires ProcsOk(s) && BusyOk(s) && CanBuy(s, e)
    ensures HandsOverFree(s.db.ports, BuyStep(s, e).db.ports)
  {
  }

  lemma DelHandsOverFree(s: State, e: Deletion)
    requires ProcsOk(s) && BusyOk(s) && CanDel(s, e)
    ensures HandsOverFree(s.db.ports, DelStep(s, e).db.ports)
  {
  }

  lemma GoHandsOverFree(s: State, e: Move)
    requires ProcsOk(s) && BusyOk(s) && CanGo(s, e)
    ensures HandsOverFree(s.db.ports, GoStep(s, e).db.ports)
  {
  }

  lemma RetreatHandsOverFree(s: State, e: Retreat)
    requires ProcsOk(s) && BusyOk(s) && CanRetreat(s, e)
    ensures HandsOverFree(s.db.ports, RetreatStep(s, e).db.ports)
  {
  }

  lemma OutHandsOverFree(s: State, e: Outside)
    requires ProcsOk(s) && BusyOk(s) && CanOut(s, e)
    ensures HandsOverFree(s.db.ports, OutStep(s, e).db.ports)
  {
  }

  /** A port never passes from one server to another without being free in between. */
  lemma PortsAreHandedOverFree(t: State, e: Event)
    requires Reachable(t) && ProcsOk(t) && BusyOk(t) && Enabled(t, e)
    ensures HandsOverFree(t.db.ports, Step(t, e).db.ports)
  {
    match e
    case Buy(b) => BuyHandsOverFree(t, b);
    case Del(d) => DelHandsOverFree(t, d);
    case Go(m) => GoHandsOverFree(t, m);
    case Back(r) => RetreatHandsOverFree(t, r);
    case Out(x) => OutHandsOverFree(t, x);
  }

  // ---------- Migration ----------

  /**
   At every step of every migration, failed or not, the node named by the server row has the
   server's amount on its counters and a complete copy of its world.
   */
  lemma ServerStaysWhole(t: State, sid: nat)
    requires Reachable(t) && t.db.Live(sid)
    requires sid < |t.busy| && (t.busy[sid].Some? ==>
               t.busy[sid].value < |t.procs| && t.procs[t.busy[sid].value].Migrating?)
    ensures var row := t.db.servers[sid].value;
      && row.node < |t.db.nodes| && row.amount.Leq(t.db.nodes[row.node].reserved)
      && (row.node, sid) in t.worlds
  {
    ReachableHasInv(t);
    ServerIsCovered(t.db, InFlights(t.procs), sid);
  }

  /** What the catch block relies on: the job row names another node exactly when a reservation was taken there. */
  lemma JobNamesTheReservation(t: State, p: nat)
    requires Reachable(t) && p < |t.procs| && t.procs[p].Migrating?
    requires Before(t.procs[p].phase) || t.procs[p].phase.Catching?
    ensures var c := t.procs[p];
      && c.job < |t.db.jobs|
      && (t.db.jobs[c.job].to != t.db.jobs[c.job].from <==> c.InFlight() == Charge(t.db.jobs[c.job].to, c.amount))
      && (t.db.jobs[c.job].to == t.db.jobs[c.job].from <==> c.InFlight() == FREE)
  {
    ReachableHasInv(t);
    assert ProcOk(t.db, t.procs[p]);
    assert t.db.Live(t.procs[p].sid);
  }

  lemma CompletedIsHome(t: State, p: nat)
    requires Inv(t) && CanGo(t, MoveCompleted(p))
    ensures var c, u := t.procs[p], GoStep(t, MoveCompleted(p));
      && u.db.Live(c.sid) && u.db.servers[c.sid].value.node == c.to
      && Owns(u.db.ports, c.sid, c.to) && (c.to, c.sid) in u.worlds && !Owns(u.db.ports, c.sid, c.from)
  {
    assert ProcOk(t.db, t.procs[p]);
  }

  lemma RolledBackIsHome(t: State, p: nat)
    requires Inv(t) && CanRetreat(t, MoveRolledBack(p))
    ensures var c, u := t.procs[p], RetreatStep(t, MoveRolledBack(p));
      && u.db.Live(c.sid) && u.db.servers[c.sid].value.node == c.from
      && Owns(u.db.ports, c.sid, c.from) && (c.from, c.sid) in u.worlds
      && (c.to != c.from ==> !Owns(u.db.ports, c.sid, c.to))
  {
    assert ProcOk(t.db, t.procs[p]);
  }

  lemma EndsWithStatus(t: State, p: nat, e: Event)
    requires Inv(t) && Enabled(t, e) && (e == Go(MoveCompleted(p)) || e == Back(MoveRolledBack(p)))
    ensures var c, u := t.procs[p], Step(t, e);
      && u.procs[p].InFlight() == FREE && c.job < |u.db.jobs|
      && u.db.jobs[c.job].status == if e.Go? then JobStatus.Completed else JobStatus.RolledBack
  {
    assert ProcOk(t.db, t.procs[p]);
  }

  /** A migration ends all-target when it completes and all-source when it is rolled back, as its job row says. */
  lemma MigrationEnds(t: State, p: nat, e: Event)
    requires Reachable(t) && ProcsOk(t) && BusyOk(t) && Enabled(t, e)
    requires e == Go(MoveCompleted(p)) || e == Back(MoveRolledBack(p))
    ensures var c, u := t.procs[p], Step(t, e);
      var (home, away) := if e.Go? then (c.to, c.from) else (c.from, c.to);
      && u.db.Live(c.sid) && u.db.servers[c.sid].value.node == home
      && Owns(u.db.ports, c.sid, home) && (home, c.sid) in u.worlds
      && (away != home ==> !Owns(u.db.ports, c.sid, away))
      && u.procs[p].InFlight() == FREE && c.job < |u.db.jobs|
      && u.db.jobs[c.job].status == if e.Go? then JobStatus.Completed else JobStatus.RolledBack
  {
    ReachableHasInv(t);
    EndsWithStatus(t, p, e);
    if e.Go? { CompletedIsHome(t, p); } else { RolledBackIsHome(t, p); }
  }

  // ---------- Purchases ----------

  /**
   All or nothing: while a purchase is between attempts, or has failed, no server row of its
   making exists; when it has delivered, its one row is of the plan's size.
   */
  lemma PurchaseIsAllOrNothing(t: State, p: nat)
    requires Reachable(t) && p < |t.procs|
    ensures |t.makers| == |t.db.servers|
    ensures t.procs[p].Placing? || t.procs[p].NotBought? ==>
              forall sid: nat :: t.db.Live(sid) ==> t.makers[sid] != Some(p)
    ensures t.procs[p].Bought? ==>
              forall sid: nat :: t.db.Live(sid) && t.makers[sid] == Some(p) ==>
                sid == t.procs[p].sid && t.db.servers[sid].value.amount == t.procs[p].plan.amount
  {
    ReachableHasInv(t);
    assert ProcOk(t.db, t.procs[p]);
  }

  /** A purchase builds on at most three nodes, all different. */
  lemma BuildsOnDistinctNodes(t: State, p: nat)
    requires Reachable(t) && p < |t.procs| && (t.procs[p].Building? || t.procs[p].Placing?)
    ensures |t.procs[p].tried| <= 3 && Distinct(t.procs[p].tried)
  {
    ReachableHasInv(t);
    assert ProcOk(t.db, t.procs[p]);
  }

  // ---------- Draining ----------

  ghost predicate NoneHeadingTo(s: State, n: nat) {
    forall p :: 0 <= p < |s.procs| ==> s.procs[p].InFlight() == FREE || s.procs[p].InFlight().node != n
  }

  ghost predicate On(s: State, sid: nat, n: nat) {
    s.db.Live(sid) && s.db.servers[sid].value.node == n
  }

  ghost predicate Reenables(e: Event, n: nat) {
    e.Out? && e.x.NodeChanges? && e.x.n == n && e.x.enabled
  }

  /** `n` takes no one in: it stays disabled, nobody starts heading for it, and who is on it was on it. */
  ghost predicate TakesNobody(s: State, t: State, n: nat) {
    && n < |t.db.nodes| && !t.db.nodes[n].enabled && NoneHeadingTo(t, n)
    && forall sid: nat :: On(t, sid, n) ==> On(s, sid, n)
  }

  lemma BuyWhileDisabled(s: State, e: Purchase, n: nat)
    requires Accounted(s) && CanBuy(s, e) && n < |s.db.nodes| && !s.db.nodes[n].enabled && NoneHeadingTo(s, n)
    ensures TakesNobody(s, BuyStep(s, e), n)
  {
  }

  lemma DelWhileDisabled(s: State, e: Deletion, n: nat)
    requires Accounted(s) && CanDel(s, e) && n < |s.db.nodes| && !s.db.nodes[n].enabled && NoneHeadingTo(s, n)
    ensures TakesNobody(s, DelStep(s, e), n)
  {
  }

  lemma RowsMovedWhileDisabled(s: State, e: Move, n: nat)
    requires Accounted(s) && CanGo(s, e) && n < |s.db.nodes| && !s.db.nodes[n].enabled && NoneHeadingTo(s, n)
    requires e.StartMigration? || e.TargetTaken? || e.Switched?
    ensures TakesNobody(s, GoStep(s, e), n)
  {
    match e
    case StartMigration(_) =>
    case TargetTaken(_, _, _) => TargetTakenWhileDisabled(s, e, n);
    case _ => SwitchedWhileDisabled(s, e, n);
  }

  lemma TargetTakenWhileDisabled(s: State, e: Move, n: nat)
    requires Accounted(s) && CanGo(s, e) && n < |s.db.nodes| && !s.db.nodes[n].enabled && NoneHeadingTo(s, n)
    requires e.TargetTaken?
    ensures TakesNobody(s, GoStep(s, e), n)
  {
    assert ProcOk(s.db, s.procs[e.p]);
  }

  lemma SwitchedWhileDisabled(s: State, e: Move, n: nat)
    requires Accounted(s) && CanGo(s, e) && n < |s.db.nodes| && !s.db.nodes[n].enabled && NoneHeadingTo(s, n)
    requires e.Switched?
    ensures TakesNobody(s, GoStep(s, e), n)
  {
    assert ProcOk(s.db, s.procs[e.p]) && s.db.Live(s.procs[e.p].sid);
    assert s.procs[e.p].InFlight() == FREE || s.procs[e.p].to != n;
  }

  lemma QuietWhileDisabled(s: State, t: State, p: nat, n: nat)
    requires p < |s.procs| && |t.procs| == |s.procs| && t.procs == s.procs[p := t.procs[p]]
    requires t.db.nodes == s.db.nodes && t.db.servers == s.db.servers
    requires t.procs[p].InFlight() == s.procs[p].InFlight()
    requires n < |s.db.nodes| && !s.db.nodes[n].enabled && NoneHeadingTo(s, n)
    ensures TakesNobody(s, t, n)
  {
  }

  lemma GoWhileDisabled(s: State, e: Move, n: nat)
    requires Accounted(s) && CanGo(s, e) && n < |s.db.nodes| && !s.db.nodes[n].enabled && NoneHeadingTo(s, n)
    ensures TakesNobody(s, GoStep(s, e), n)
  {
    if e.StartMigration? || e.TargetTaken? || e.Switched? {
      RowsMovedWhileDisabled(s, e, n);
    } else {
      QuietGoFrame(s, e);
      QuietGoOwn(s, e);
      QuietWhileDisabled(s, GoStep(s, e), e.p, n);
    }
  }

  lemma RetreatWhileDisabled(s: State, e: Retreat, n: nat)
    requires Accounted(s) && CanRetreat(s, e) && n < |s.db.nodes| && !s.db.nodes[n].enabled && NoneHeadingTo(s, n)
    ensures TakesNobody(s, RetreatStep(s, e), n)
  {
  }

  lemma OutWhileDisabled(s: State, e: Outside, n: nat)
    requires Accounted(s) && CanOut(s, e) && n < |s.db.nodes| && !s.db.nodes[n].enabled && NoneHeadingTo(s, n)
    requires !(e.NodeChanges? && e.n == n && e.enabled)
    ensures TakesNobody(s, OutStep(s, e), n)
  {
  }

  lemma StepWhileDisabled(s: State, e: Event, n: nat)
    requires Inv(s) && Enabled(s, e) && n < |s.db.nodes| && !Reenables(e, n)
    requires !s.db.nodes[n].enabled && NoneHeadingTo(s, n)
    ensures TakesNobody(s, Step(s, e), n)
  {
    match e
    case Buy(b) => BuyWhileDisabled(s, b, n);
    case Del(d) => DelWhileDisabled(s, d, n);
    case Go(m) => GoWhileDisabled(s, m, n);
    case Back(r) => RetreatWhileDisabled(s, r, n);
    case Out(x) => OutWhileDisabled(s, x, n);
  }

  ghost predicate KeepsDisabled(es: seq<Event>, n: nat) {
    forall i :: 0 <= i < |es| ==> !Reenables(es[i], n)
  }

  lemma {:induction false} RunWhileDisabled(s: State, es: seq<Event>, t: State, n: nat)
    requires Inv(s) && Reaches(s, es, t) && KeepsDisabled(es, n)
    requires n < |s.db.nodes| && !s.db.nodes[n].enabled && NoneHeadingTo(s, n)
    ensures TakesNobody(s, t, n)
    decreases |es|
  {
    if es != [] {
      StepWhileDisabled(s, es[0], n);
      StepKeepsInv(s, es[0]);
      RunWhileDisabled(Step(s, es[0]), es[1..], t, n);
    }
  }

  /**
   Once a node is disabled and no migration is under way to it, then in every continuation that
   does not enable it again its counters are the sum of those of its servers that are still
   there, and they are zero exactly when none is.
   */
  lemma DrainEmpties(s: State, es: seq<Event>, t: State, n: nat)
    requires Reachable(s) && Reaches(s, es, t) && KeepsDisabled(es, n)
    requires n < |s.db.nodes| && !s.db.nodes[n].enabled && NoneHeadingTo(s, n)
    ensures n < |t.db.nodes| && t.db.nodes[n].reserved == Placed(t.db.servers, n)
    ensures forall sid: nat :: On(t, sid, n) ==> On(s, sid, n)
    ensures t.db.nodes[n].reserved == ZERO <==> forall sid: nat :: !On(t, sid, n)
  {
    ReachableHasInv(s);
    RunKeepsInv(s, es, t);
    RunWhileDisabled(s, es, t, n);
    assert NobodyOn(InFlights(t.procs), n);
    ZeroIffEmpty(t.db, InFlights(t.procs), n);
    assert forall sid: nat :: On(t, sid, n) <==> OnNode(t.db, sid, n);
  }
}
