/** The tables that record who holds what, and each database transaction as one function on them. */
module Ledger {
  // A table is a sequence of rows numbered in insertion order; a deleted server leaves `None` behind, so
  // ids are never reused.

  import opened Wrappers
  import opened Resources
  import opened Scheduler

  datatype Status = Provisioning | Offline | Running | Crashed | Halted | Removing

  datatype Server = Server(node: nat, amount: Res, template: string, status: Status)

  datatype Port = Port(node: nat, number: nat, owner: Option<nat>, primary: bool)

  datatype OrderStatus = Pending | Paid | Provisioned | Failed

  datatype Order = Order(status: OrderStatus, server: Option<nat>)

  datatype JobStatus = Queued | BackingUp | Transferring | Restoring | Switching | Completed | RolledBack

  datatype Job = Job(server: nat, from: nat, to: nat, status: JobStatus)

  datatype Db = Db(
    nodes: seq<Node>,
    servers: seq<Option<Server>>,
    ports: seq<Port>,
    orders: seq<Order>,
    jobs: seq<Job>)
  {
    predicate Live(sid: nat) {
      sid < |servers| && servers[sid].Some?
    }
  }

  // ---------- Row updates ----------

  function Reserve(nodes: seq<Node>, n: nat, amount: Res): seq<Node>
    requires n < |nodes|
  {
    nodes[n := nodes[n].(reserved := nodes[n].reserved.Plus(amount))]
  }

  function Release(nodes: seq<Node>, n: nat, amount: Res): seq<Node>
    requires n < |nodes|
  {
    nodes[n := nodes[n].(reserved := nodes[n].reserved.FloorMinus(amount))]
  }

  /** Releasing what was reserved gives the counters back as they were. */
  lemma ReleaseUndoesReserve(nodes: seq<Node>, n: nat, amount: Res)
    requires n < |nodes| && amount.NonNeg() && nodes[n].reserved.NonNeg()
    ensures Release(Reserve(nodes, n, amount), n, amount) == nodes
  {
    assert nodes[n].reserved.Plus(amount).FloorMinus(amount) == nodes[n].reserved;
  }

  predicate FreePort(ports: seq<Port>, p: nat, n: nat) {
    p < |ports| && ports[p].node == n && ports[p].owner.None?
  }

  function Claim(ports: seq<Port>, p: nat, sid: nat): seq<Port>
    requires p < |ports|
  {
    ports[p := ports[p].(owner := Some(sid), primary := true)]
  }

  /** Gives back the ports of one server: all of them, or those on one node. */
  function GiveBack(ports: seq<Port>, sid: nat, on: Option<nat>): (r: seq<Port>)
    ensures |r| == |ports|
  {
    seq(|ports|, i requires 0 <= i < |ports| =>
      if ports[i].owner == Some(sid) && (on.Some? ==> ports[i].node == on.value)
      then ports[i].(owner := None, primary := false) else ports[i])
  }

  // ---------- Transactions ----------

  datatype Plan = Plan(amount: Res, template: string)

  /** Purchase, phase 1: reserve, write the server row, claim a port, point the order at it. */
  function Place(db: Db, n: nat, plan: Plan, p: nat, o: nat): Db
    requires n < |db.nodes| && p < |db.ports| && o < |db.orders|
  {
    var sid := |db.servers|;
    db.(nodes := Reserve(db.nodes, n, plan.amount),
        servers := db.servers + [Some(Server(n, plan.amount, plan.template, Provisioning))],
        ports := Claim(db.ports, p, sid),
        orders := db.orders[o := Order(Provisioned, Some(sid))])
  }

  /** Deletion: give the ports back, drop the row, release the node. */
  function Erase(db: Db, sid: nat, n: nat, amount: Res): Db
    requires sid < |db.servers| && n < |db.nodes|
  {
    db.(ports := GiveBack(db.ports, sid, None),
        servers := db.servers[sid := None],
        nodes := Release(db.nodes, n, amount))
  }

  /** Rollback of a purchase whose container could not be built. */
  function Unplace(db: Db, sid: nat, n: nat, amount: Res, o: nat): Db
    requires sid < |db.servers| && n < |db.nodes| && o < |db.orders|
  {
    var gone := Erase(db, sid, n, amount);
    gone.(orders := db.orders[o := Order(Pending, None)])
  }

  /** Migration: reserve on the target and name it in the job row. */
  function TakeTarget(db: Db, j: nat, n: nat, amount: Res): Db
    requires j < |db.jobs| && n < |db.nodes|
  {
    db.(nodes := Reserve(db.nodes, n, amount), jobs := db.jobs[j := db.jobs[j].(to := n)])
  }

  /** Migration: the record moves from one node to the other. */
  function SwitchOver(db: Db, sid: nat, from: nat, to: nat, amount: Res): Db
    requires db.Live(sid) && from < |db.nodes|
  {
    db.(ports := GiveBack(db.ports, sid, Some(from)),
        servers := db.servers[sid := Some(db.servers[sid].value.(node := to, status := Offline))],
        nodes := Release(db.nodes, from, amount))
  }

  function SetStatus(db: Db, sid: nat, status: Status): Db
    requires db.Live(sid)
  {
    db.(servers := db.servers[sid := Some(db.servers[sid].value.(status := status))])
  }

  function SetJob(db: Db, j: nat, status: JobStatus): Db
    requires j < |db.jobs|
  {
    db.(jobs := db.jobs[j := db.jobs[j].(status := status)])
  }

  // ---------- Conservation ----------

  function ChargeOf(row: Option<Server>): Charge {
    if row.Some? then Charge(row.value.node, row.value.amount) else FREE
  }

  function Charges(servers: seq<Option<Server>>): (cs: seq<Charge>)
    ensures |cs| == |servers|
  {
    seq(|servers|, i requires 0 <= i < |servers| => ChargeOf(servers[i]))
  }

  /** What the rows placed on `n` add up to. */
  function Placed(servers: seq<Option<Server>>, n: nat): Res {
    Total(Charges(servers), n)
  }

  /** Each counter is what the placed servers and the reservations in flight add up to. */
  ghost predicate Conserved(db: Db, inFlight: seq<Charge>) {
    forall n :: 0 <= n < |db.nodes| ==>
      db.nodes[n].reserved == Placed(db.servers, n).Plus(Total(inFlight, n))
  }

  /** No node is sold beyond its capacity in any dimension. */
  ghost predicate Bounded(nodes: seq<Node>) {
    forall n :: 0 <= n < |nodes| ==> nodes[n].reserved.Leq(nodes[n].Capacity())
  }

  ghost predicate ServersOk(db: Db) {
    forall sid: nat :: db.Live(sid) ==>
      db.servers[sid].value.node < |db.nodes| && db.servers[sid].value.amount.Positive()
  }

  ghost predicate InFlightOk(inFlight: seq<Charge>) {
    forall i :: 0 <= i < |inFlight| ==> inFlight[i] == FREE || inFlight[i].amount.Positive()
  }

  /** The books: rows make sense, counters are conserved, nothing is oversold. */
  ghost predicate Books(db: Db, inFlight: seq<Charge>) {
    && Plausible(db.nodes)
    && ServersOk(db)
    && InFlightOk(inFlight)
    && Conserved(db, inFlight)
    && Bounded(db.nodes)
  }

  lemma ReplacePlaced(servers: seq<Option<Server>>, sid: nat, row: Option<Server>, n: nat)
    requires sid < |servers|
    ensures Placed(servers[sid := row], n)
         == Placed(servers, n).Minus(ChargeOf(servers[sid]).On(n)).Plus(ChargeOf(row).On(n))
  {
    TotalReplace(Charges(servers), sid, ChargeOf(row), n);
    assert Charges(servers[sid := row]) == Charges(servers)[sid := ChargeOf(row)];
  }

  lemma AppendPlaced(servers: seq<Option<Server>>, row: Option<Server>, n: nat)
    ensures Placed(servers + [row], n) == Placed(servers, n).Plus(ChargeOf(row).On(n))
  {
    TotalAppend(Charges(servers), ChargeOf(row), n);
    assert Charges(servers + [row]) == Charges(servers) + [ChargeOf(row)];
  }

  lemma PlaceKeepsBooks(db: Db, inFlight: seq<Charge>, n: nat, plan: Plan, p: nat, o: nat)
    requires Books(db, inFlight) && plan.amount.Positive()
    requires n < |db.nodes| && db.nodes[n].Fits(plan.amount) && p < |db.ports| && o < |db.orders|
    ensures Books(Place(db, n, plan, p, o), inFlight)
  {
    var after := Place(db, n, plan, p, o);
    forall m | 0 <= m < |db.nodes|
      ensures after.nodes[m].reserved == Placed(after.servers, m).Plus(Total(inFlight, m))
    {
      AppendPlaced(db.servers, after.servers[|db.servers|], m);
    }
    forall sid: nat | after.Live(sid)
      ensures after.servers[sid].value.node < |db.nodes| && after.servers[sid].value.amount.Positive()
    {
      if sid < |db.servers| { assert db.Live(sid); }
    }
  }

  /** A live server's own charge is covered by its node's counter, so GREATEST(0, ..) never fires. */
  lemma ServerIsCovered(db: Db, inFlight: seq<Charge>, sid: nat)
    requires Books(db, inFlight) && db.Live(sid)
    ensures var s := db.servers[sid].value;
      && s.amount.Leq(db.nodes[s.node].reserved)
      && db.nodes[s.node].reserved.FloorMinus(s.amount) == db.nodes[s.node].reserved.Minus(s.amount)
  {
    var cs, s := Charges(db.servers), db.servers[sid].value;
    forall i | 0 <= i < |cs| ensures cs[i].amount.NonNeg() {
      if db.servers[i].Some? { assert db.Live(i); }
    }
    TotalCovers(cs, sid);
    UptoNonNeg(inFlight, s.node, |inFlight|);
  }

  lemma InFlightIsCovered(db: Db, inFlight: seq<Charge>, i: nat)
    requires Books(db, inFlight) && i < |inFlight| && inFlight[i].node < |db.nodes|
    ensures var c := inFlight[i];
      && c.amount.Leq(db.nodes[c.node].reserved)
      && db.nodes[c.node].reserved.FloorMinus(c.amount) == db.nodes[c.node].reserved.Minus(c.amount)
  {
    var cs := Charges(db.servers);
    forall k | 0 <= k < |cs| ensures cs[k].amount.NonNeg() {
      if db.servers[k].Some? { assert db.Live(k); }
    }
    UptoNonNeg(cs, inFlight[i].node, |cs|);
    TotalCovers(inFlight, i);
  }

  lemma EraseKeepsBooks(db: Db, inFlight: seq<Charge>, sid: nat)
    requires Books(db, inFlight) && db.Live(sid)
    ensures var s := db.servers[sid].value; Books(Erase(db, sid, s.node, s.amount), inFlight)
  {
    var s := db.servers[sid].value;
    var after := Erase(db, sid, s.node, s.amount);
    ServerIsCovered(db, inFlight, sid);
    forall m | 0 <= m < |db.nodes|
      ensures after.nodes[m].reserved == Placed(after.servers, m).Plus(Total(inFlight, m))
    {
      ReplacePlaced(db.servers, sid, None, m);
    }
    forall t: nat | after.Live(t)
      ensures after.servers[t].value.node < |db.nodes| && after.servers[t].value.amount.Positive()
    {
      assert db.Live(t);
    }
  }

  lemma TakeTargetKeepsBooks(db: Db, inFlight: seq<Charge>, i: nat, j: nat, n: nat, amount: Res)
    requires Books(db, inFlight) && amount.Positive()
    requires i < |inFlight| && inFlight[i] == FREE && j < |db.jobs|
    requires n < |db.nodes| && db.nodes[n].Fits(amount)
    ensures Books(TakeTarget(db, j, n, amount), inFlight[i := Charge(n, amount)])
  {
    var after := TakeTarget(db, j, n, amount);
    forall m | 0 <= m < |db.nodes|
      ensures after.nodes[m].reserved
           == Placed(after.servers, m).Plus(Total(inFlight[i := Charge(n, amount)], m))
    {
      TotalReplace(inFlight, i, Charge(n, amount), m);
    }
    assert forall t: nat :: after.Live(t) ==> db.Live(t);
  }

  lemma DischargeKeepsBooks(db: Db, inFlight: seq<Charge>, i: nat)
    requires Books(db, inFlight) && i < |inFlight| && inFlight[i].node < |db.nodes|
    ensures Books(db.(nodes := Release(db.nodes, inFlight[i].node, inFlight[i].amount)), inFlight[i := FREE])
  {
    var after := db.(nodes := Release(db.nodes, inFlight[i].node, inFlight[i].amount));
    InFlightIsCovered(db, inFlight, i);
    forall m | 0 <= m < |db.nodes|
      ensures after.nodes[m].reserved == Placed(after.servers, m).Plus(Total(inFlight[i := FREE], m))
    {
      TotalReplace(inFlight, i, FREE, m);
    }
    assert forall t: nat :: after.Live(t) ==> db.Live(t);
  }

  /** The switch hands the in-flight reservation to the server row and releases the source. */
  lemma SwitchKeepsBooks(db: Db, inFlight: seq<Charge>, i: nat, sid: nat)
    requires Books(db, inFlight) && db.Live(sid) && i < |inFlight| && inFlight[i] != FREE
    requires inFlight[i].amount == db.servers[sid].value.amount && inFlight[i].node < |db.nodes|
    ensures var s := db.servers[sid].value;
      Books(SwitchOver(db, sid, s.node, inFlight[i].node, s.amount), inFlight[i := FREE])
  {
    var s := db.servers[sid].value;
    var after := SwitchOver(db, sid, s.node, inFlight[i].node, s.amount);
    ServerIsCovered(db, inFlight, sid);
    forall m | 0 <= m < |db.nodes|
      ensures after.nodes[m].reserved == Placed(after.servers, m).Plus(Total(inFlight[i := FREE], m))
    {
      ReplacePlaced(db.servers, sid, after.servers[sid], m);
      TotalReplace(inFlight, i, FREE, m);
    }
    forall t: nat | after.Live(t)
      ensures after.servers[t].value.node < |db.nodes| && after.servers[t].value.amount.Positive()
    {
      assert db.Live(t);
    }
  }

  ghost predicate OnNode(db: Db, sid: nat, n: nat) {
    db.Live(sid) && db.servers[sid].value.node == n
  }

  lemma NobodyIffEmpty(db: Db, n: nat)
    requires ServersOk(db)
    ensures NobodyOn(Charges(db.servers), n) <==> forall sid: nat :: !OnNode(db, sid, n)
    ensures Placed(db.servers, n) == ZERO <==> NobodyOn(Charges(db.servers), n)
    ensures Placed(db.servers, n).NonNeg()
  {
    var cs := Charges(db.servers);
    forall k | 0 <= k < |cs| ensures cs[k].amount.Positive() || cs[k] == FREE {
      if db.servers[k].Some? { assert db.Live(k); }
    }
    TotalZero(cs, n);
    UptoNonNeg(cs, n, |cs|);
    if !NobodyOn(cs, n) {
      var k :| 0 <= k < |cs| && cs[k] != FREE && cs[k].node == n;
      assert OnNode(db, k, n);
    }
    if exists sid: nat :: OnNode(db, sid, n) {
      var sid: nat :| OnNode(db, sid, n);
      assert cs[sid].amount.Positive() && cs[sid].node == n;
    }
  }

  /** With nobody heading for it, a node's counters are its servers', and zero exactly when it has none. */
  lemma ZeroIffEmpty(db: Db, inFlight: seq<Charge>, n: nat)
    requires Books(db, inFlight) && n < |db.nodes| && NobodyOn(inFlight, n)
    ensures db.nodes[n].reserved == Placed(db.servers, n)
    ensures db.nodes[n].reserved == ZERO <==> forall sid: nat :: !OnNode(db, sid, n)
  {
    UptoNobody(inFlight, n, |inFlight|);
    assert Total(inFlight, n) == ZERO;
    PlusZero(Placed(db.servers, n));
    NobodyIffEmpty(db, n);
  }

  // ---------- Recalculation ----------

  function Part(row: Option<Server>, removing: bool): Option<Server> {
    if row.Some? && row.value.status.Removing? == removing then row else None
  }

  /** The rows an aggregate over `status <> 'DELETING'` sees, or those it does not. */
  function Settled(servers: seq<Option<Server>>, removing: bool): (r: seq<Option<Server>>)
    ensures |r| == |servers|
  {
    seq(|servers|, i requires 0 <= i < |servers| => Part(servers[i], removing))
  }

  function Recalculate(nodes: seq<Node>, servers: seq<Option<Server>>, n: nat): seq<Node>
    requires n < |nodes|
  {
    nodes[n := nodes[n].(reserved := Placed(Settled(servers, false), n))]
  }

  /** A row is in one of its two parts and missing in the other. */
  lemma OnePart(row: Option<Server>)
    ensures var (settled, leaving) := (Part(row, false), Part(row, true));
      (settled == row && leaving.None?) || (settled.None? && leaving == row)
  {
  }

  lemma OneOfTwo(c: Charge, a: Charge, b: Charge, n: nat)
    requires (a == c && b == FREE) || (a == FREE && b == c)
    ensures c.On(n) == a.On(n).Plus(b.On(n))
  {
    PlusFree(c, n);
  }

  lemma PartsAdd(row: Option<Server>, n: nat)
    ensures ChargeOf(row).On(n) == ChargeOf(Part(row, false)).On(n).Plus(ChargeOf(Part(row, true)).On(n))
  {
    OnePart(row);
    OneOfTwo(ChargeOf(row), ChargeOf(Part(row, false)), ChargeOf(Part(row, true)), n);
  }

  lemma {:induction false} SettledParts(servers: seq<Option<Server>>, n: nat)
    ensures Placed(servers, n) == Placed(Settled(servers, false), n).Plus(Placed(Settled(servers, true), n))
  {
    if servers == [] {
      PlusZero(ZERO);
    } else {
      var rest, row := servers[..|servers| - 1], servers[|servers| - 1];
      SettledParts(rest, n);
      LastPlaced(servers, false, n);
      LastPlaced(servers, true, n);
      AppendPlaced(rest, row, n);
      assert rest + [row] == servers;
      PartsAdd(row, n);
      PlusPairs(Placed(rest, n), Placed(Settled(rest, false), n), Placed(Settled(rest, true), n),
                ChargeOf(row).On(n), ChargeOf(Part(row, false)).On(n), ChargeOf(Part(row, true)).On(n));
    }
  }

  lemma LastPlaced(servers: seq<Option<Server>>, removing: bool, n: nat)
    requires servers != []
    ensures var rest, row := servers[..|servers| - 1], servers[|servers| - 1];
      Placed(Settled(servers, removing), n)
      == Placed(Settled(rest, removing), n).Plus(ChargeOf(Part(row, removing)).On(n))
  {
    var rest, row := servers[..|servers| - 1], servers[|servers| - 1];
    AppendPlaced(Settled(rest, removing), Part(row, removing), n);
    assert Settled(rest, removing) + [Part(row, removing)] == Settled(servers, removing);
  }

  lemma NoneLeaving(db: Db, n: nat)
    requires ServersOk(db)
    ensures Placed(Settled(db.servers, true), n).NonNeg()
    ensures Placed(Settled(db.servers, true), n) == ZERO <==>
              forall sid: nat :: OnNode(db, sid, n) ==> !db.servers[sid].value.status.Removing?
  {
    var leaving := db.(servers := Settled(db.servers, true));
    assert forall sid: nat :: leaving.Live(sid) ==> db.Live(sid);
    NobodyIffEmpty(leaving, n);
    assert forall sid: nat :: OnNode(leaving, sid, n) <==>
      OnNode(db, sid, n) && db.servers[sid].value.status.Removing?;
  }

  /** The counters of `n` are what the rows and the reservations in flight add up to. */
  ghost predicate ConservedAt(db: Db, inFlight: seq<Charge>, n: nat)
    requires n < |db.nodes|
  {
    db.nodes[n].reserved == Placed(db.servers, n).Plus(Total(inFlight, n))
  }

  /**
   Whatever the counters were, recalculating `n` makes them right exactly when nothing is being
   deleted from `n` and nothing is migrating to it.  No other node is touched.
   */
  lemma RecalculateExact(db: Db, inFlight: seq<Charge>, n: nat)
    requires ServersOk(db) && InFlightOk(inFlight) && n < |db.nodes|
    ensures var after := db.(nodes := Recalculate(db.nodes, db.servers, n));
      && (ConservedAt(after, inFlight, n) <==>
            NobodyOn(inFlight, n)
            && forall sid: nat :: OnNode(db, sid, n) ==> !db.servers[sid].value.status.Removing?)
      && forall m :: 0 <= m < |db.nodes| && m != n ==> after.nodes[m] == db.nodes[m]
  {
    var leaving := db.(servers := Settled(db.servers, true));
    NoneLeaving(db, n);
    SettledParts(db.servers, n);
    TotalZero(inFlight, n);
    UptoNonNeg(inFlight, n, |inFlight|);
    NothingAdded(Placed(Settled(db.servers, false), n), Placed(leaving.servers, n), Total(inFlight, n));
  }

  /** On a node whose counters are right, recalculating changes nothing exactly in the same cases. */
  lemma RecalculateSettles(db: Db, inFlight: seq<Charge>, n: nat)
    requires ServersOk(db) && InFlightOk(inFlight) && n < |db.nodes| && ConservedAt(db, inFlight, n)
    ensures Recalculate(db.nodes, db.servers, n) == db.nodes <==>
      NobodyOn(inFlight, n)
      && forall sid: nat :: OnNode(db, sid, n) ==> !db.servers[sid].value.status.Removing?
  {
    var after := Recalculate(db.nodes, db.servers, n);
    RecalculateExact(db, inFlight, n);
    if after[n].reserved == db.nodes[n].reserved {
      assert after[n] == db.nodes[n] && after == db.nodes;
    }
  }

  // ---------- Ports ----------

  ghost predicate PrimaryIffOwned(ports: seq<Port>) {
    forall p :: 0 <= p < |ports| ==> (ports[p].primary <==> ports[p].owner.Some?)
  }

  ghost predicate Owns(ports: seq<Port>, sid: nat, n: nat) {
    exists p :: 0 <= p < |ports| && ports[p].owner == Some(sid) && ports[p].node == n
  }

  /** A server never has two ports on the same node. */
  ghost predicate OnePerNode(ports: seq<Port>) {
    forall p, q :: 0 <= p < q < |ports| && ports[p].owner.Some? && ports[p].owner == ports[q].owner ==>
      ports[p].node != ports[q].node
  }

  lemma OwnsFrame(ports: seq<Port>, later: seq<Port>, sid: nat, n: nat)
    requires Owns(ports, sid, n) && |ports| == |later|
    requires forall p :: 0 <= p < |ports| && ports[p].owner == Some(sid) && ports[p].node == n ==> later[p] == ports[p]
    ensures Owns(later, sid, n)
  {
    var p :| 0 <= p < |ports| && ports[p].owner == Some(sid) && ports[p].node == n;
    assert later[p].owner == Some(sid);
  }

  /** Counters are not negative, free ports are not primary, and owners are rows of the table. */
  ghost predicate Tidy(db: Db) {
    && Plausible(db.nodes)
    && PrimaryIffOwned(db.ports)
    && forall p :: 0 <= p < |db.ports| && db.ports[p].owner.Some? ==> db.ports[p].owner.value < |db.servers|
  }

  /** Rolling a purchase back undoes it exactly, on every table but the order's status. */
  lemma UnplaceUndoesPlace(db: Db, n: nat, plan: Plan, p: nat, o: nat)
    requires Tidy(db) && plan.amount.Positive() && n < |db.nodes| && FreePort(db.ports, p, n) && o < |db.orders|
    ensures Unplace(Place(db, n, plan, p, o), |db.servers|, n, plan.amount, o)
         == db.(servers := db.servers + [None], orders := db.orders[o := Order(Pending, None)])
  {
    var sid, placed := |db.servers|, Place(db, n, plan, p, o);
    var back := Unplace(placed, sid, n, plan.amount, o);
    assert back.nodes == db.nodes;
    assert back.servers == db.servers + [None];
    assert back.ports == db.ports;
    assert back.orders == db.orders[o := Order(Pending, None)];
  }
}
