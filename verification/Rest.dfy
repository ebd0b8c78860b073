/**
 Tables at rest, with no operation under way, and what whole operations do to them: the rows that are
 left by a purchase, a deletion and a migration, and whether the tables are at rest again, whatever
 failed on the way.
 */
module Rest {
  import opened Wrappers
  import opened Resources
  import opened Scheduler
  import opened Ledger

  ghost predicate AtRest(db: Db) {
    && Books(db, [])
    && PrimaryIffOwned(db.ports) && OnePerNode(db.ports)
    && (forall p :: 0 <= p < |db.ports| && db.ports[p].owner.Some? ==>
          OnNode(db, db.ports[p].owner.value, db.ports[p].node))
    && (forall sid: nat :: db.Live(sid) ==> Owns(db.ports, sid, db.servers[sid].value.node))
  }

  lemma SilentInFlight(db: Db)
    ensures Books(db, []) <==> Books(db, [FREE])
  {
    forall n: nat ensures Total([], n) == Total([FREE], n) == ZERO {
      TotalAppend([], FREE, n);
      assert [] + [FREE] == [FREE];
      PlusFree(FREE, n);
    }
  }

  /** `sid` has port `p` and no other, or none if there is no `p`; no port of anybody else has changed. */
  ghost predicate HoldsOnly(was: seq<Port>, now: seq<Port>, sid: nat, p: Option<nat>) {
    && |now| == |was| && (p.Some? ==> p.value < |was|)
    && forall q: nat :: q < |was| ==>
         && now[q].node == was[q].node && now[q].number == was[q].number
         && (now[q].owner == Some(sid) <==> p == Some(q))
         && (was[q].owner != Some(sid) && p != Some(q) ==> now[q] == was[q])
  }

  /** Deleted rows at the end of the server table, and other order rows, change nothing. */
  lemma PaddingKeepsRest(db: Db, orders: seq<Order>)
    requires AtRest(db)
    ensures AtRest(db.(servers := db.servers + [None], orders := orders))
  {
    var after := db.(servers := db.servers + [None], orders := orders);
    forall n | 0 <= n < |db.nodes|
      ensures after.nodes[n].reserved == Placed(after.servers, n).Plus(Total([], n))
    {
      AppendPlaced(db.servers, None, n);
      PlusZero(Placed(db.servers, n));
      assert ChargeOf(None).On(n) == ZERO;
    }
    assert forall sid: nat :: after.Live(sid) <==> db.Live(sid);
    forall sid: nat | after.Live(sid) ensures Owns(after.ports, sid, after.servers[sid].value.node) {
      assert db.Live(sid);
    }
  }

  lemma PlaceKeepsRest(db: Db, n: nat, plan: Plan, p: nat, o: nat)
    requires AtRest(db) && plan.amount.Positive() && o < |db.orders|
    requires n < |db.nodes| && db.nodes[n].Fits(plan.amount) && FreePort(db.ports, p, n)
    ensures AtRest(Place(db, n, plan, p, o))
  {
    var after, sid := Place(db, n, plan, p, o), |db.servers|;
    PlaceKeepsBooks(db, [], n, plan, p, o);
    forall t: nat | after.Live(t) ensures Owns(after.ports, t, after.servers[t].value.node) {
      if t < sid {
        assert db.Live(t);
        OwnsFrame(db.ports, after.ports, t, after.servers[t].value.node);
      } else {
        assert after.ports[p].owner == Some(sid);
      }
    }
  }

  lemma StatusKeepsRest(db: Db, sid: nat, status: Status)
    requires AtRest(db) && db.Live(sid)
    ensures AtRest(SetStatus(db, sid, status))
  {
    var after := SetStatus(db, sid, status);
    assert Charges(after.servers) == Charges(db.servers);
    assert forall t: nat :: after.Live(t) <==> db.Live(t);
    assert forall t: nat :: db.Live(t) ==> after.servers[t].value.node == db.servers[t].value.node;
  }

  lemma EraseKeepsRest(db: Db, sid: nat)
    requires AtRest(db) && db.Live(sid)
    ensures var s := db.servers[sid].value; AtRest(Erase(db, sid, s.node, s.amount))
  {
    var s := db.servers[sid].value;
    var after := Erase(db, sid, s.node, s.amount);
    EraseKeepsBooks(db, [], sid);
    forall t: nat | after.Live(t) ensures Owns(after.ports, t, after.servers[t].value.node) {
      assert db.Live(t);
      OwnsFrame(db.ports, after.ports, t, after.servers[t].value.node);
    }
  }

  /** A whole migration, as the tables see it once it has completed. */
  function Moved(db: Db, sid: nat, n: nat, p: nat): Db
    requires db.Live(sid) && db.servers[sid].value.node < |db.nodes| && n < |db.nodes| && p < |db.ports|
  {
    var row := db.servers[sid].value;
    db.(nodes := Release(Reserve(db.nodes, n, row.amount), row.node, row.amount),
        servers := db.servers[sid := Some(row.(node := n, status := Offline))],
        ports := GiveBack(Claim(db.ports, p, sid), sid, Some(row.node)),
        jobs := db.jobs + [Job(sid, row.node, n, Completed)])
  }

  lemma MovedKeepsRest(db: Db, sid: nat, n: nat, p: nat)
    requires AtRest(db) && db.Live(sid) && n < |db.nodes| && n != db.servers[sid].value.node
    requires db.nodes[n].Fits(db.servers[sid].value.amount) && FreePort(db.ports, p, n)
    ensures AtRest(Moved(db, sid, n, p))
  {
    var row, after := db.servers[sid].value, Moved(db, sid, n, p);
    MovedKeepsBooks(db, sid, n, p);
    assert after.ports[p].owner == Some(sid);
    forall t: nat | after.Live(t) ensures Owns(after.ports, t, after.servers[t].value.node) {
      assert db.Live(t);
      if t != sid {
        OwnsFrame(db.ports, after.ports, t, after.servers[t].value.node);
      }
    }
  }

  /** The rows a completed migration leaves: its own server, its ports and one job. */
  lemma MovedRows(db: Db, sid: nat, n: nat, p: nat)
    requires AtRest(db) && db.Live(sid) && n != db.servers[sid].value.node && FreePort(db.ports, p, n)
    requires n < |db.nodes| && db.servers[sid].value.node < |db.nodes|
    ensures var (row, after) := (db.servers[sid].value, Moved(db, sid, n, p));
      && after.servers == db.servers[sid := Some(Server(n, row.amount, row.template, Offline))]
      && HoldsOnly(db.ports, after.ports, sid, Some(p)) && after.orders == db.orders
      && after.jobs == db.jobs + [Job(sid, row.node, n, Completed)]
  {
  }

  /** The rows a deletion leaves. */
  lemma ErasedRows(db: Db, sid: nat)
    requires AtRest(db) && db.Live(sid)
    ensures var row := db.servers[sid].value;
      var after := Erase(db, sid, row.node, row.amount);
      && after.servers == db.servers[sid := None] && HoldsOnly(db.ports, after.ports, sid, None)
      && after.orders == db.orders && after.jobs == db.jobs
  {
  }

  lemma MovedKeepsBooks(db: Db, sid: nat, n: nat, p: nat)
    requires Books(db, []) && db.Live(sid) && n < |db.nodes| && n != db.servers[sid].value.node
    requires db.nodes[n].Fits(db.servers[sid].value.amount) && p < |db.ports|
    ensures Books(Moved(db, sid, n, p), [])
  {
    var row := db.servers[sid].value;
    SilentInFlight(db);
    var job := Job(sid, row.node, row.node, Queued);
    var queued := db.(jobs := db.jobs + [job]);
    assert Books(queued, [FREE]) by { assert forall t: nat :: queued.Live(t) <==> db.Live(t); }
    TakeTargetKeepsBooks(queued, [FREE], 0, |db.jobs|, n, row.amount);
    var taken := TakeTarget(queued, |db.jobs|, n, row.amount);
    assert [FREE][0 := Charge(n, row.amount)] == [Charge(n, row.amount)];
    SwitchKeepsBooks(taken, [Charge(n, row.amount)], 0, sid);
    assert [Charge(n, row.amount)][0 := FREE] == [FREE];
    var switched := SwitchOver(taken, sid, row.node, n, row.amount);
    SilentInFlight(switched);
    var after := Moved(db, sid, n, p);
    assert after.nodes == switched.nodes && after.servers == switched.servers;
    assert forall t: nat :: after.Live(t) <==> switched.Live(t);
  }

  lemma PhantomChanges(nodes: seq<Node>, n: nat, amount: Res)
    requires Plausible(nodes) && n < |nodes| && amount.Positive()
    ensures Release(nodes, n, amount) == nodes <==> nodes[n].reserved == ZERO
  {
    var after := Release(nodes, n, amount);
    FloorAtZero(nodes[n].reserved, amount);
    if nodes[n].reserved == ZERO {
      assert after[n] == nodes[n];
    } else {
      assert after[n].reserved != nodes[n].reserved;
    }
  }

  /** At rest, the server rows determine the counters. */
  lemma RowsDetermineCounters(db: Db, other: Db)
    requires AtRest(db) && AtRest(other) && db.servers == other.servers && |db.nodes| == |other.nodes|
    ensures forall n :: 0 <= n < |db.nodes| ==> db.nodes[n].reserved == other.nodes[n].reserved
  {
    forall n | 0 <= n < |db.nodes| ensures db.nodes[n].reserved == other.nodes[n].reserved {
      assert NobodyOn([], n);
      ZeroIffEmpty(db, [], n);
      ZeroIffEmpty(other, [], n);
    }
  }

  lemma PhantomAtRest(db: Db, n: nat, amount: Res)
    requires AtRest(db) && n < |db.nodes| && amount.Positive()
    ensures AtRest(db.(nodes := Release(db.nodes, n, amount))) <==> db.nodes[n].reserved == ZERO
  {
    var nodes := Release(db.nodes, n, amount);
    PhantomChanges(db.nodes, n, amount);
    FloorAtZero(db.nodes[n].reserved, amount);
    if nodes == db.nodes {
      assert db.(nodes := nodes) == db;
    } else if AtRest(db.(nodes := nodes)) {
      RowsDetermineCounters(db, db.(nodes := nodes));
    }
  }

  /**
   Releasing an amount nobody reserved on `n` leaves the books right exactly when `n` is empty:
   what the catch block does when an explicit target was named but never reserved.
   */
  lemma PhantomRelease(db: Db, n: nat, amount: Res)
    requires AtRest(db) && n < |db.nodes| && amount.Positive()
    ensures AtRest(db.(nodes := Release(db.nodes, n, amount))) <==> forall sid: nat :: !OnNode(db, sid, n)
  {
    assert NobodyOn([], n);
    ZeroIffEmpty(db, [], n);
    PhantomAtRest(db, n, amount);
  }

  // ---------- Purchases from start to end ----------

  /** `k` deleted rows at the end of the server table: what `k` rolled-back builds leave behind. */
  function Pad(db: Db, k: nat): Db {
    db.(servers := db.servers + seq(k, _ => None))
  }

  /** The tables after `k` failed builds for order `o`. */
  function Unbuilt(db: Db, k: nat, o: nat): Db
    requires k > 0 ==> o < |db.orders|
  {
    Pad(db, k).(orders := if k == 0 then db.orders else db.orders[o := Order(Pending, None)])
  }

  /** The tables after `k` failed builds and one that succeeded. */
  function Built(db: Db, k: nat, n: nat, plan: Plan, p: nat, o: nat): Db
    requires n < |db.nodes| && p < |db.ports| && o < |db.orders|
  {
    SetStatus(Place(Pad(db, k), n, plan, p, o), |db.servers| + k, Offline)
  }

  /** The tables after `k` failed builds and no node left to try: the order has failed. */
  function GivenUp(db: Db, k: nat, o: nat): Db
    requires k > 0 ==> o < |db.orders|
  {
    var rest := Unbuilt(db, k, o);
    if o < |rest.orders| then
      rest.(orders := rest.orders[o := rest.orders[o].(status := Failed)])
    else rest
  }

  lemma {:induction false} UnbuiltKeepsRest(db: Db, k: nat, o: nat)
    requires AtRest(db) && (k > 0 ==> o < |db.orders|)
    ensures AtRest(Unbuilt(db, k, o))
  {
    if k == 0 {
      assert Unbuilt(db, k, o) == db;
    } else {
      UnbuiltKeepsRest(db, k - 1, o);
      PaddingKeepsRest(Unbuilt(db, k - 1, o), Unbuilt(db, k, o).orders);
      assert Unbuilt(db, k - 1, o).servers + [None] == Unbuilt(db, k, o).servers;
    }
  }

  /** A placement that is rolled back leaves one more deleted row and a pending order. */
  lemma RollBackLeaves(db: Db, k: nat, n: nat, plan: Plan, p: nat, o: nat)
    requires Tidy(db) && plan.amount.Positive() && o < |db.orders|
    requires n < |db.nodes| && FreePort(db.ports, p, n)
    ensures var placed := Place(Unbuilt(db, k, o), n, plan, p, o);
      Unplace(placed, |db.servers| + k, n, plan.amount, o) == Unbuilt(db, k + 1, o)
  {
    var was := Unbuilt(db, k, o);
    UnplaceUndoesPlace(was, n, plan, p, o);
    assert was.servers + [None] == Unbuilt(db, k + 1, o).servers;
    assert was.orders[o := Order(Pending, None)] == Unbuilt(db, k + 1, o).orders;
  }

  lemma BuiltFromUnbuilt(db: Db, k: nat, n: nat, plan: Plan, p: nat, o: nat)
    requires o < |db.orders| && n < |db.nodes| && p < |db.ports|
    ensures SetStatus(Place(Unbuilt(db, k, o), n, plan, p, o), |db.servers| + k, Offline)
         == Built(db, k, n, plan, p, o)
  {
    assert Unbuilt(db, k, o).orders[o := Order(Provisioned, Some(|db.servers| + k))]
        == db.orders[o := Order(Provisioned, Some(|db.servers| + k))];
  }

  lemma BuiltKeepsRest(db: Db, k: nat, n: nat, plan: Plan, p: nat, o: nat)
    requires AtRest(db) && plan.amount.Positive() && o < |db.orders|
    requires n < |db.nodes| && db.nodes[n].Fits(plan.amount) && FreePort(db.ports, p, n)
    ensures AtRest(Built(db, k, n, plan, p, o))
  {
    UnbuiltKeepsRest(db, k, o);
    PlaceKeepsRest(Unbuilt(db, k, o), n, plan, p, o);
    StatusKeepsRest(Place(Unbuilt(db, k, o), n, plan, p, o), |db.servers| + k, Offline);
    BuiltFromUnbuilt(db, k, n, plan, p, o);
  }

  /** What the order rows are in each case: only the one that is bought changes. */
  lemma OrdersLeft(db: Db, k: nat, n: nat, plan: Plan, p: nat, o: nat)
    requires o < |db.orders| && n < |db.nodes| && p < |db.ports|
    ensures Built(db, k, n, plan, p, o).orders == db.orders[o := Order(Provisioned, Some(|db.servers| + k))]
  {
  }

  /** The new row and its port; before that row only deleted ones are new. */
  ghost predicate BuiltRow(db: Db, after: Db, sid: nat, n: nat, plan: Plan, p: nat) {
    && sid >= |db.servers| && after.jobs == db.jobs && HoldsOnly(db.ports, after.ports, sid, Some(p))
    && after.servers == db.servers + seq(sid - |db.servers|, _ => None)
                      + [Some(Server(n, plan.amount, plan.template, Offline))]
  }

  lemma BuiltRows(db: Db, k: nat, n: nat, plan: Plan, p: nat, o: nat)
    requires AtRest(db) && o < |db.orders| && n < |db.nodes| && FreePort(db.ports, p, n)
    ensures BuiltRow(db, Built(db, k, n, plan, p, o), |db.servers| + k, n, plan, p)
  {
  }

  lemma OrdersGivenUp(db: Db, k: nat, o: nat)
    requires (k > 0 ==> o < |db.orders|) && (o < |db.orders| ==> db.orders[o].server.None?)
    ensures Unbuilt(db, k, o).orders == if k == 0 then db.orders else db.orders[o := Order(Pending, None)]
    ensures GivenUp(db, k, o).orders ==
      if o < |db.orders| then db.orders[o := Order(OrderStatus.Failed, None)] else db.orders
  {
  }

  lemma GivenUpKeepsRest(db: Db, k: nat, o: nat)
    requires AtRest(db) && (k > 0 ==> o < |db.orders|)
    ensures AtRest(GivenUp(db, k, o))
  {
    var rest, last := Unbuilt(db, k, o), GivenUp(db, k, o);
    UnbuiltKeepsRest(db, k, o);
    assert forall t: nat :: last.Live(t) <==> rest.Live(t);
  }

  // ---------- Migrations from start to end ----------

  /** What a migration asks the scheduler for; an explicit target is not part of the request. */
  function MoveRequest(db: Db, sid: nat, target: Option<nat>, stale: int): Request
    requires db.Live(sid) && db.servers[sid].value.node < |db.nodes|
  {
    var row := db.servers[sid].value;
    Request(row.amount, row.template, if target.Some? then None else Some(db.nodes[row.node].location),
            {row.node}, stale)
  }

  /**
   Moving the server to an explicit target that holds servers, and that is not reserved because the
   scheduler would not choose it or because the reservation fails: the migration fails, and releases
   there what it never reserved.
   */
  ghost predicate Overreleases(db: Db, sid: nat, target: Option<nat>, stale: int, commits: bool)
    requires AtRest(db)
  {
    && db.Live(sid) && target.Some? && target.value < |db.nodes|
    && target.value != db.servers[sid].value.node
    && (!commits || !IsBest(db.nodes, target.value, MoveRequest(db, sid, target, stale)))
    && exists t: nat :: OnNode(db, t, target.value)
  }

  /** What a caller can see beforehand: there is no explicit target, or it is the server's node, or nobody is on it. */
  lemma SafeTargets(db: Db, sid: nat, target: Option<nat>)
    requires AtRest(db) && db.Live(sid) && (target.Some? ==> target.value < |db.nodes|)
    ensures (forall stale: int, commits: bool :: !Overreleases(db, sid, target, stale, commits)) <==>
      (target.Some? && target.value != db.servers[sid].value.node ==> forall t: nat :: !OnNode(db, t, target.value))
  {
    if t: nat :| target.Some? && target.value != db.servers[sid].value.node && OnNode(db, t, target.value) {
      assert Overreleases(db, sid, target, 0, false);
    }
  }

  /**
   The tables after a migration that failed: one more job row, and the unwinding of the node the
   job row names.  `reserved` is the node a reservation was taken on, if one was.
   */
  function MoveUndone(db: Db, sid: nat, target: Option<nat>, reserved: Option<nat>): Db
    requires db.Live(sid) && (target.Some? ==> target.value < |db.nodes|)
  {
    var row := db.servers[sid].value;
    var to := if reserved.Some? then reserved.value else if target.Some? then target.value else row.node;
    var logged := db.(jobs := db.jobs + [Job(sid, row.node, to, RolledBack)]);
    if reserved.None? && to != row.node then logged.(nodes := Release(db.nodes, to, row.amount)) else logged
  }

  lemma JobsKeepRest(db: Db, jobs: seq<Job>)
    requires AtRest(db)
    ensures AtRest(db.(jobs := jobs))
  {
    assert forall t: nat :: db.(jobs := jobs).Live(t) <==> db.Live(t);
  }

  /** A failed migration leaves the tables right unless it releases what was never reserved on a node in use. */
  lemma MoveUndoneKeepsRest(db: Db, sid: nat, target: Option<nat>, reserved: Option<nat>)
    requires AtRest(db) && db.Live(sid) && (target.Some? ==> target.value < |db.nodes|)
    ensures AtRest(MoveUndone(db, sid, target, reserved)) <==>
      (reserved.None? && target.Some? && target.value != db.servers[sid].value.node ==>
         forall t: nat :: !OnNode(db, t, target.value))
  {
    var undone := MoveUndone(db, sid, target, reserved);
    var released := undone.(jobs := db.jobs);
    if AtRest(undone) {
      JobsKeepRest(undone, db.jobs);
    }
    if AtRest(released) {
      JobsKeepRest(released, undone.jobs);
    }
    if reserved.None? && target.Some? && target.value != db.servers[sid].value.node {
      PhantomRelease(db, target.value, db.servers[sid].value.amount);
    } else {
      assert released == db;
    }
  }

  /** Taking a reservation, and perhaps a port, and giving them back changes nothing. */
  lemma TargetUndone(db: Db, sid: nat, n: nat, p: nat, amount: Res)
    requires Tidy(db) && n < |db.nodes| && amount.Positive() && FreePort(db.ports, p, n)
    requires !Owns(db.ports, sid, n)
    ensures GiveBack(Claim(db.ports, p, sid), sid, Some(n)) == db.ports
    ensures Release(Reserve(db.nodes, n, amount), n, amount) == db.nodes
  {
    assert forall q :: 0 <= q < |db.ports| && db.ports[q].owner == Some(sid) ==> db.ports[q].node != n;
  }

  lemma NothingClaimed(db: Db, sid: nat, n: nat, amount: Res)
    requires Tidy(db) && n < |db.nodes| && amount.Positive() && !Owns(db.ports, sid, n)
    ensures GiveBack(db.ports, sid, Some(n)) == db.ports
    ensures Release(Reserve(db.nodes, n, amount), n, amount) == db.nodes
  {
    assert forall q :: 0 <= q < |db.ports| && db.ports[q].owner == Some(sid) ==> db.ports[q].node != n;
  }

  /** A server that is not moving: it has room on its books and no port away from home. */
  ghost predicate AtHome(db: Db, sid: nat) {
    && db.Live(sid) && db.servers[sid].value.node < |db.nodes| && db.servers[sid].value.amount.Positive()
    && forall p :: 0 <= p < |db.ports| && db.ports[p].owner == Some(sid) ==>
         db.ports[p].node == db.servers[sid].value.node
  }

  lemma RestIsAtHome(db: Db, sid: nat)
    requires AtRest(db) && db.Live(sid)
    ensures AtHome(db, sid) && Tidy(db)
  {
    forall p | 0 <= p < |db.ports| && db.ports[p].owner.Some?
      ensures db.ports[p].owner.value < |db.servers|
      ensures db.ports[p].owner == Some(sid) ==> db.ports[p].node == db.servers[sid].value.node
    {
      assert OnNode(db, db.ports[p].owner.value, db.ports[p].node);
    }
  }

  lemma NoPortsAway(db: Db, sid: nat, n: nat)
    requires AtHome(db, sid) && n != db.servers[sid].value.node
    ensures !Owns(db.ports, sid, n) && GiveBack(db.ports, sid, Some(n)) == db.ports
  {
  }

  lemma FlagsKeepRest(db: Db, n: nat)
    requires AtRest(db) && n < |db.nodes|
    ensures AtRest(db.(nodes := db.nodes[n := db.nodes[n].(enabled := false)]))
  {
    var after := db.(nodes := db.nodes[n := db.nodes[n].(enabled := false)]);
    assert forall t: nat :: after.Live(t) <==> db.Live(t);
  }
}
