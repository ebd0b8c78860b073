/** The order rows of purchases, on runs in which nobody buys an order while somebody else is buying it. */
module FleetOrders {
  import opened Wrappers
  import opened Resources
  import opened Scheduler
  import opened Ledger
  import opened Fleet
  import opened FleetSafety
  import opened FleetTheorems

  /** The order a purchase is for, while it is under way and once it has delivered. */
  function Buying(c: Proc): Option<nat> {
    if c.Placing? || c.Building? || c.Unplacing? || c.Bought? then Some(c.order) else None
  }

  /** The row of an order names the server that stands or stood for it, and none while there is none. */
  ghost predicate OrderOk(db: Db, c: Proc) {
    && (c.Placing? ==> c.order < |db.orders| && db.orders[c.order].server.None?)
    && (c.Building? || c.Unplacing? || c.Bought? ==>
          c.order < |db.orders| && db.orders[c.order] == Order(Provisioned, Some(c.sid)))
  }

  ghost predicate OneBuyer(procs: seq<Proc>) {
    forall p, q :: 0 <= p < q < |procs| && Buying(procs[p]).Some? ==> Buying(procs[p]) != Buying(procs[q])
  }

  ghost predicate OrdersOk(s: State) {
    OneBuyer(s.procs) && forall p :: 0 <= p < |s.procs| ==> OrderOk(s.db, s.procs[p])
  }

  /** A purchase does not begin while another one is buying the same order. */
  ghost predicate InTurn(s: State, e: Event) {
    e.Buy? && e.b.StartPurchase? ==> forall p :: 0 <= p < |s.procs| ==> Buying(s.procs[p]) != Some(e.b.o)
  }

  ghost predicate ReachesInTurn(s: State, es: seq<Event>, t: State)
    decreases |es|
  {
    if es == [] then t == s
    else ProcsOk(s) && BusyOk(s) && Enabled(s, es[0]) && InTurn(s, es[0]) && ReachesInTurn(Step(s, es[0]), es[1..], t)
  }

  /** A process goes on, and only the order it buys may change. */
  lemma OneGoesOn(s: State, t: State, p: nat)
    requires OrdersOk(s) && p < |s.procs| && |t.procs| == |s.procs| && t.procs == s.procs[p := t.procs[p]]
    requires |t.db.orders| == |s.db.orders| && OrderOk(t.db, t.procs[p])
    requires Buying(t.procs[p]).None? || Buying(t.procs[p]) == Buying(s.procs[p])
    requires forall o :: 0 <= o < |s.db.orders| && Buying(s.procs[p]) != Some(o) ==> t.db.orders[o] == s.db.orders[o]
    ensures OrdersOk(t)
  {
    forall q | 0 <= q < |t.procs| && q != p ensures OrderOk(t.db, t.procs[q]) {
      assert OrderOk(s.db, s.procs[q]);
      assert Buying(s.procs[q]).Some? ==> Buying(s.procs[q]) != Buying(s.procs[p]);
    }
  }

  lemma OneJoins(s: State, t: State)
    requires OrdersOk(s) && |t.procs| == |s.procs| + 1 && t.procs == s.procs + [t.procs[|s.procs|]]
    requires t.db.orders == s.db.orders && OrderOk(t.db, t.procs[|s.procs|])
    requires Buying(t.procs[|s.procs|]).Some? ==>
               forall p :: 0 <= p < |s.procs| ==> Buying(s.procs[p]) != Buying(t.procs[|s.procs|])
    ensures OrdersOk(t)
  {
    forall q | 0 <= q < |s.procs| ensures OrderOk(t.db, t.procs[q]) {
      assert OrderOk(s.db, s.procs[q]);
    }
  }

  lemma BuyKeepsOrders(s: State, e: Purchase)
    requires ProcsOk(s) && BusyOk(s) && OrdersOk(s) && CanBuy(s, e) && InTurn(s, Buy(e))
    ensures OrdersOk(BuyStep(s, e))
  {
    if e.StartPurchase? {
      OneJoins(s, BuyStep(s, e));
    } else {
      assert ProcOk(s.db, s.procs[e.p]) && OrderOk(s.db, s.procs[e.p]);
      OneGoesOn(s, BuyStep(s, e), e.p);
    }
  }

  lemma DelKeepsOrders(s: State, e: Deletion)
    requires ProcsOk(s) && BusyOk(s) && OrdersOk(s) && CanDel(s, e)
    ensures OrdersOk(DelStep(s, e))
  {
    if e.StartDelete? {
      OneJoins(s, DelStep(s, e));
    } else {
      OneGoesOn(s, DelStep(s, e), e.p);
    }
  }

  lemma GoKeepsOrders(s: State, e: Move)
    requires ProcsOk(s) && BusyOk(s) && OrdersOk(s) && CanGo(s, e)
    ensures OrdersOk(GoStep(s, e))
  {
    if e.StartMigration? {
      OneJoins(s, GoStep(s, e));
    } else {
      OneGoesOn(s, GoStep(s, e), e.p);
    }
  }

  lemma RetreatKeepsOrders(s: State, e: Retreat)
    requires ProcsOk(s) && BusyOk(s) && OrdersOk(s) && CanRetreat(s, e)
    ensures OrdersOk(RetreatStep(s, e))
  {
    OneGoesOn(s, RetreatStep(s, e), e.p);
  }

  lemma OutKeepsOrders(s: State, e: Outside)
    requires OrdersOk(s) && CanOut(s, e)
    ensures OrdersOk(OutStep(s, e))
  {
    forall p | 0 <= p < |s.procs| ensures OrderOk(OutStep(s, e).db, s.procs[p]) {
      assert OrderOk(s.db, s.procs[p]);
    }
  }

  lemma {:induction false} RunKeepsOrders(s: State, es: seq<Event>, t: State)
    requires OrdersOk(s) && ReachesInTurn(s, es, t)
    ensures OrdersOk(t)
    decreases |es|
  {
    if es != [] {
      match es[0] {
        case Buy(b) => BuyKeepsOrders(s, b);
        case Del(d) => DelKeepsOrders(s, d);
        case Go(m) => GoKeepsOrders(s, m);
        case Back(r) => RetreatKeepsOrders(s, r);
        case Out(x) => OutKeepsOrders(s, x);
      }
      RunKeepsOrders(Step(s, es[0]), es[1..], t);
    }
  }

  /**
   The order row follows the purchase on every such run: it names the server from the placement on,
   names none between attempts, and no other purchase is for the same order.
   */
  lemma OrderFollowsPurchase(s: State, es: seq<Event>, t: State, p: nat)
    requires Opening(s) && ReachesInTurn(s, es, t) && p < |t.procs|
    ensures OrderOk(t.db, t.procs[p])
    ensures Buying(t.procs[p]).Some? ==>
      forall q :: 0 <= q < |t.procs| && q != p ==> Buying(t.procs[q]) != Buying(t.procs[p])
  {
    RunKeepsOrders(s, es, t);
  }

  /** The order row after a step of a purchase. */
  function OrderAfter(s: State, e: Purchase, o: nat): Order
    requires o < |s.db.orders|
  {
    match e
    case PlaceOn(_, _, _, _) => Order(Provisioned, Some(|s.db.servers|))
    case RollBackPurchase(_) => Order(Pending, None)
    case GiveUp(_) => Order(OrderStatus.Failed, None)
    case _ => s.db.orders[o]
  }

  lemma StepWritesOrder(s: State, e: Purchase)
    requires ProcsOk(s) && BusyOk(s) && CanBuy(s, e) && !e.StartPurchase? && OrderOk(s.db, s.procs[e.p])
    ensures var o := s.procs[e.p].order;
      o < |s.db.orders| && BuyStep(s, e).db.orders == s.db.orders[o := OrderAfter(s, e, o)]
  {
    assert ProcOk(s.db, s.procs[e.p]);
  }

  /**
   On every such run: a placement records the server on the order, a rollback makes it pending without
   one, giving up makes it failed without one; a refusal leaves it as it was, without one, and a build
   that works as it was, with it.  No other order changes.
   */
  lemma PurchaseWritesOrder(s: State, es: seq<Event>, t: State, e: Purchase)
    requires Opening(s) && ReachesInTurn(s, es, t) && ProcsOk(t) && BusyOk(t) && CanBuy(t, e) && !e.StartPurchase?
    ensures var o := t.procs[e.p].order;
      && o < |t.db.orders| && BuyStep(t, e).db.orders == t.db.orders[o := OrderAfter(t, e, o)]
      && (e.NoCapacity? ==> t.db.orders[o].server.None?)
      && (e.BuildOk? ==> t.db.orders[o] == Order(Provisioned, Some(t.procs[e.p].sid)))
  {
    OrderFollowsPurchase(s, es, t, e.p);
    StepWritesOrder(t, e);
    assert ProcOk(t.db, t.procs[e.p]);
  }

  // ---------- Out of turn ----------

  lemma {:induction false} ReachesAfter(s: State, es: seq<Event>, t: State, e: Event)
    requires Reaches(s, es, t) && ProcsOk(t) && BusyOk(t) && Enabled(t, e)
    ensures Reaches(s, es + [e], Step(t, e))
    decreases |es|
  {
    if es == [] {
      assert Reaches(Step(t, e), [], Step(t, e));
    } else {
      ReachesAfter(Step(s, es[0]), es[1..], t, e);
      assert (es + [e])[1..] == es[1..] + [e];
    }
  }

  lemma ReachesOneMore(s: State, es: seq<Event>, t: State, e: Event)
    requires Reaches(s, es, t) && Inv(t) && Enabled(t, e)
    ensures Reaches(s, es + [e], Step(t, e)) && Inv(Step(t, e))
  {
    ReachesAfter(s, es, t, e);
    StepKeepsInv(t, e);
  }

  /** Room and a port for one server on `n`, and then for another one on `m`. */
  ghost predicate RoomForTwo(db: Db, plan: Plan, req: Request, n: nat, port: nat, m: nat, second: nat) {
    && plan.amount.Positive() && req.amount == plan.amount && req.template == plan.template && req.exclude == {}
    && Candidate(db.nodes, n, req) && FreePort(db.ports, port, n)
    && Candidate(Reserve(db.nodes, n, plan.amount), m, req) && FreePort(db.ports, second, m) && port != second
  }

  /** Two purchases of order `o` are between attempts, as processes `p` and `p + 1`. */
  lemma BothStart(s: State, o: nat, plan: Plan) returns (es: seq<Event>, t: State)
    requires Inv(s) && o < |s.db.orders| && s.db.orders[o].server.None? && plan.amount.Positive()
    ensures Reaches(s, es, t) && Inv(t)
    ensures t == s.(procs := s.procs + [Placing(o, plan, [], 0), Placing(o, plan, [], 0)])
  {
    var e := Buy(StartPurchase(o, plan));
    assert Reaches(s, [], s);
    ReachesOneMore(s, [], s, e);
    var u := Step(s, e);
    ReachesOneMore(s, [e], u, e);
    es, t := [e] + [e], Step(u, e);
    assert [] + [e] == [e];
    assert t.procs == s.procs + [Placing(o, plan, [], 0), Placing(o, plan, [], 0)];
  }

  /** Process `p` places its server on `n`; nothing it reads depends on what the order row says by now. */
  lemma OnePlaces(s: State, es: seq<Event>, t: State, p: nat, n: nat, port: nat, req: Request)
    returns (u: State, e: Event)
    requires Reaches(s, es, t) && Inv(t) && p < |t.procs| && t.procs[p].Placing? && t.procs[p].tried == []
    requires t.procs[p].attempt == 0 && req.exclude == {}
    requires Candidate(t.db.nodes, n, req) && FreePort(t.db.ports, port, n)
    requires req.amount == t.procs[p].plan.amount && req.template == t.procs[p].plan.template
    ensures Reaches(s, es + [e], u) && Inv(u)
    ensures t.procs[p].order < |t.db.orders| && n < |t.db.nodes| && port < |t.db.ports|
    ensures u.db == Place(t.db, n, t.procs[p].plan, port, t.procs[p].order)
    ensures u.procs == t.procs[p := Building(t.procs[p].order, t.procs[p].plan, [n], 0, |t.db.servers|, n)]
  {
    e := Buy(PlaceOn(p, n, port, req));
    assert ProcOk(t.db, t.procs[p]);
    assert (set x | x in t.procs[p].tried) == {};
    ReachesOneMore(s, es, t, e);
    u := Step(t, e);
    assert t.procs[p].tried + [n] == [n];
  }

  lemma OneDelivers(s: State, es: seq<Event>, t: State, p: nat) returns (u: State, e: Event)
    requires Reaches(s, es, t) && Inv(t) && p < |t.procs| && t.procs[p].Building?
    ensures Reaches(s, es + [e], u) && Inv(u) && t.db.Live(t.procs[p].sid)
    ensures u.db == SetStatus(t.db, t.procs[p].sid, Offline)
    ensures u.procs == t.procs[p := Bought(t.procs[p].order, t.procs[p].plan, t.procs[p].sid)]
  {
    e := Buy(BuildOk(p));
    assert ProcOk(t.db, t.procs[p]);
    ReachesOneMore(s, es, t, e);
    u := Step(t, e);
  }

  /** Both have placed: the rows are there, and the order names the second. */
  ghost predicate BothPlaced(s: State, t: State, o: nat, plan: Plan, n: nat, m: nat) {
    var (p, sid) := (|s.procs|, |s.db.servers|);
    && o < |s.db.orders| && t.db.orders == s.db.orders[o := Order(Provisioned, Some(sid + 1))]
    && |t.db.servers| == sid + 2 && t.db.Live(sid) && t.db.Live(sid + 1) && |t.procs| == p + 2
    && t.procs[p] == Building(o, plan, [n], 0, sid, n) && t.procs[p + 1] == Building(o, plan, [m], 0, sid + 1, m)
  }

  lemma PlacedTwice(db: Db, o: nat, plan: Plan, req: Request, n: nat, port: nat, m: nat, second: nat)
    requires RoomForTwo(db, plan, req, n, port, m, second) && o < |db.orders|
    ensures var (one, sid) := (Place(db, n, plan, port, o), |db.servers|);
      && Candidate(one.nodes, m, req) && FreePort(one.ports, second, m) && |one.servers| == sid + 1
      && var two := Place(one, m, plan, second, o);
         && two.orders == db.orders[o := Order(Provisioned, Some(sid + 1))]
         && |two.servers| == sid + 2 && two.Live(sid) && two.Live(sid + 1)
  {
  }

  lemma FirstPlaces(s: State, o: nat, plan: Plan, req: Request, n: nat, port: nat) returns (es: seq<Event>, t: State)
    requires Inv(s) && o < |s.db.orders| && s.db.orders[o].server.None? && plan.amount.Positive()
    requires req.amount == plan.amount && req.template == plan.template && req.exclude == {}
    requires Candidate(s.db.nodes, n, req) && FreePort(s.db.ports, port, n)
    ensures Reaches(s, es, t) && Inv(t) && t.db == Place(s.db, n, plan, port, o)
    ensures t.procs == s.procs + [Building(o, plan, [n], 0, |s.db.servers|, n), Placing(o, plan, [], 0)]
  {
    var a, e;
    es, a := BothStart(s, o, plan);
    t, e := OnePlaces(s, es, a, |s.procs|, n, port, req);
    es := es + [e];
  }

  lemma BothPlace(s: State, o: nat, plan: Plan, req: Request, n: nat, port: nat, m: nat, second: nat)
    returns (es: seq<Event>, t: State)
    requires Inv(s) && o < |s.db.orders| && s.db.orders[o].server.None?
    requires RoomForTwo(s.db, plan, req, n, port, m, second)
    ensures Reaches(s, es, t) && Inv(t) && BothPlaced(s, t, o, plan, n, m)
  {
    var a, e;
    PlacedTwice(s.db, o, plan, req, n, port, m, second);
    es, a := FirstPlaces(s, o, plan, req, n, port);
    t, e := OnePlaces(s, es, a, |s.procs| + 1, m, second, req);
    es := es + [e];
    SecondIsPlaced(s, a, t, o, plan, n, port, m, second);
  }

  lemma SecondIsPlaced(s: State, a: State, t: State, o: nat, plan: Plan, n: nat, port: nat, m: nat, second: nat)
    requires o < |s.db.orders| && n < |s.db.nodes| && port < |s.db.ports| && a.db == Place(s.db, n, plan, port, o)
    requires m < |a.db.nodes| && second < |a.db.ports| && t.db == Place(a.db, m, plan, second, o)
    requires a.procs == s.procs + [Building(o, plan, [n], 0, |s.db.servers|, n), Placing(o, plan, [], 0)]
    requires t.procs == a.procs[|s.procs| + 1 := Building(o, plan, [m], 0, |a.db.servers|, m)]
    ensures BothPlaced(s, t, o, plan, n, m)
  {
  }

  /** Two purchases of one order have both delivered a server, and the order names the second. */
  ghost predicate Doubled(t: State, p: nat, q: nat) {
    && p < |t.procs| && q < |t.procs| && t.procs[p].Bought? && t.procs[q].Bought?
    && t.procs[p].order == t.procs[q].order < |t.db.orders| && t.procs[p].sid != t.procs[q].sid
    && t.db.Live(t.procs[p].sid) && t.db.Live(t.procs[q].sid)
    && t.db.orders[t.procs[p].order].server == Some(t.procs[q].sid)
  }

  /**
   Two purchases of one order at once: each looks at the order before the other has placed, both
   deliver, and the order names only the second of the two servers.
   */
  lemma TwoForOne(s: State, o: nat, plan: Plan, req: Request, n: nat, port: nat, m: nat, second: nat)
    returns (es: seq<Event>, t: State)
    requires Inv(s) && o < |s.db.orders| && s.db.orders[o].server.None?
    requires RoomForTwo(s.db, plan, req, n, port, m, second)
    ensures Reaches(s, es, t) && Doubled(t, |s.procs|, |s.procs| + 1) && t.procs[|s.procs|].order == o
    ensures t.db.orders == s.db.orders[o := Order(Provisioned, Some(|s.db.servers| + 1))]
  {
    var c, d, e;
    es, c := BothPlace(s, o, plan, req, n, port, m, second);
    d, e := OneDelivers(s, es, c, |s.procs|);
    es := es + [e];
    t, e := OneDelivers(s, es, d, |s.procs| + 1);
    es := es + [e];
  }

  // ---------- Where that can be ----------

  const UNIT := Res(1, 1, 1.0)

  const EMPTY := Node("", Res(2, 2, 2.0), 0, 0, ZERO, true, true, Some(1), {""})

  /** One empty node with room and ports for two, and one order. */
  const SHOP := State(
    Db([EMPTY], [], [Port(0, 1, None, false), Port(0, 2, None, false)], [Order(Pending, None)], []), [], {}, [], [])

  lemma ShopOpens()
    ensures Opening(SHOP)
  {
    assert Charges([]) == [];
    assert Placed([], 0) == ZERO;
  }

  lemma EmptyFitsTwo()
    ensures EMPTY.Fits(UNIT) && EMPTY.(reserved := EMPTY.reserved.Plus(UNIT)).Fits(UNIT)
  {
  }

  lemma ShopHasRoom(db: Db, plan: Plan, req: Request)
    requires db.nodes == [EMPTY] && db.ports == [Port(0, 1, None, false), Port(0, 2, None, false)]
    requires plan == Plan(UNIT, "") && req == Request(UNIT, "", None, {}, 0)
    ensures RoomForTwo(db, plan, req, 0, 0, 0, 1)
  {
    EmptyFitsTwo();
  }

  lemma Shop() returns (s: State, plan: Plan, req: Request)
    ensures Opening(s) && |s.db.orders| == 1 && s.db.orders[0].server.None?
    ensures RoomForTwo(s.db, plan, req, 0, 0, 0, 1)
  {
    s, plan, req := SHOP, Plan(UNIT, ""), Request(UNIT, "", None, {}, 0);
    ShopOpens();
    ShopHasRoom(s.db, plan, req);
  }

  /** It happens on a fleet at rest. */
  lemma TwoForOneHappens() returns (s: State, es: seq<Event>, t: State)
    ensures Opening(s) && Reaches(s, es, t) && Doubled(t, 0, 1)
  {
    var plan, req;
    s, plan, req := Shop();
    OpeningHasInv(s);
    es, t := TwoForOne(s, 0, plan, req, 0, 0, 0, 1);
  }
}
