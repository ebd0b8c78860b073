/**
 The control plane's operations, each run from start to end in place on the tables.  The answers of
 the agents, and which transactions fail, are scripted.
 */
module Panel {
  import opened Wrappers
  import opened Resources
  import opened Scheduler
  import opened Ledger
  import opened Rest
  import opened Placement

  /** What comes of a reservation; it is lost when its transaction ends with any other error. */
  datatype Reservation = Reserved(node: nat) | NoCandidate | Lost

  datatype PlaceResult = Placed(sid: nat, node: nat, port: nat) | NoRoom | Aborted

  /** What `ProvisionServer` returns or throws. */
  datatype Provision =
    | Delivered(sid: nat, node: nat, port: nat)
    | Existing(sid: nat)
    | Vanished
    | NoTemplate
    | NoCapacity
    | Exhausted

  /** The transaction or agent call of a migration that fails, if one does. */
  datatype Fault = Never | OnReserve | OnStop | OnArchive | OnClaim | OnCreate | OnRestore | OnSwitch

  datatype Move = MovedTo(node: nat, port: nat) | Stayed(reserved: Option<nat>) | NoSuchServer | NoSuchNode

  function Set(xs: seq<nat>): set<nat> {
    set x | x in xs
  }

  function BuyRequest(plan: Plan, preferred: Option<string>, tried: seq<nat>, stale: int): Request {
    Request(plan.amount, plan.template, preferred, Set(tried), stale)
  }

  /** The scheduler's choice has no port left. */
  ghost predicate BestHasNoPort(nodes: seq<Node>, ports: seq<Port>, req: Request)
    requires Plausible(nodes) && req.amount.Positive()
  {
    exists n: nat :: IsBest(nodes, n, req) && forall q: nat :: !FreePort(ports, q, n)
  }

  lemma BestHasPort(nodes: seq<Node>, ports: seq<Port>, req: Request, n: nat, p: nat)
    requires Plausible(nodes) && req.amount.Positive() && IsBest(nodes, n, req) && FreePort(ports, p, n)
    ensures !BestHasNoPort(nodes, ports, req)
  {
    if m: nat :| IsBest(nodes, m, req) && forall q: nat :: !FreePort(ports, q, m) {
      BestIsUnique(nodes, n, m, req);
    }
  }

  /** In each of the three rounds the reservation fails or the scheduler's choice has no port. */
  ghost predicate Blocked(db: Db, req: Request, commits: nat -> bool)
    requires Plausible(db.nodes) && req.amount.Positive()
  {
    forall k: nat :: k < 3 ==> !commits(k) || BestHasNoPort(db.nodes, db.ports, req)
  }

  /** What is known after `k` rounds of which none delivered and none was refused. */
  ghost predicate SoFar(
    db: Db, o: nat, req: Request, commits: nat -> bool, builds: nat -> bool, tried: seq<nat>, k: nat)
    requires Plausible(db.nodes) && req.amount.Positive()
  {
    && |tried| <= k && (forall i, j :: 0 <= i < j < |tried| ==> tried[i] != tried[j])
    && (tried != [] ==> o < |db.orders| && exists j: nat :: !builds(j))
    && (tried == [] && o < |db.orders| ==>
          forall j: nat :: j < k ==> !commits(j) || BestHasNoPort(db.nodes, db.ports, req))
    && (Blocked(db, req, commits) ==> tried == [])
  }

  lemma OneMoreFailed(
    db: Db, o: nat, req: Request, commits: nat -> bool, builds: nat -> bool, tried: seq<nat>, k: nat, n: nat)
    requires Plausible(db.nodes) && req.amount.Positive() && SoFar(db, o, req, commits, builds, tried, k)
    requires n !in tried && o < |db.orders| && !builds(k) && k < 3 && commits(k)
    requires tried == [] ==> !BestHasNoPort(db.nodes, db.ports, req)
    ensures SoFar(db, o, req, commits, builds, tried + [n], k + 1)
  {
  }

  lemma OneMoreAborted(
    db: Db, o: nat, req: Request, commits: nat -> bool, builds: nat -> bool, tried: seq<nat>, k: nat)
    requires Plausible(db.nodes) && req.amount.Positive() && SoFar(db, o, req, commits, builds, tried, k)
    requires tried == [] ==> !commits(k) || o >= |db.orders| || BestHasNoPort(db.nodes, db.ports, req)
    ensures SoFar(db, o, req, commits, builds, tried, k + 1)
  {
  }

  /** The node can take the plan and was not tried before, and is in the preferred location if such a node is. */
  ghost predicate WellPlaced(
    nodes: seq<Node>, n: nat, plan: Plan, preferred: Option<string>, tried: seq<nat>, stale: int)
  {
    var w := Want(plan.amount, plan.template, Set(tried), stale);
    CanHost(nodes, n, w) && (preferred.Some? && preferred.value != "" ==> Suits(nodes, n, w, preferred.value))
  }

  /** What becomes of the order rows when `failed` builds were rolled back; only the one of the purchase changes. */
  ghost predicate OrderLeft(was: seq<Order>, now: seq<Order>, o: nat, r: Provision, failed: nat) {
    match r
    case Delivered(sid, _, _) => o < |was| && now == was[o := Order(Provisioned, Some(sid))]
    case Exhausted => now == if o < |was| then was[o := Order(OrderStatus.Failed, None)] else was
    case NoCapacity => if failed == 0 then now == was else o < |was| && now == was[o := Order(Pending, None)]
    case _ => now == was
  }

  /**
   The last of `tried` is where the server of order `o` was built, the others before it were given
   up: each was the best node but for those before it.  One server, one port, one reservation.
   */
  ghost predicate DeliveredBy(
    db: Db, after: Db, o: nat, plan: Plan, preferred: Option<string>, stale: int, r: Provision, tried: seq<nat>)
    requires Plausible(db.nodes) && plan.amount.Positive()
  {
    && r.Delivered? && tried != [] && tried[|tried| - 1] == r.node && o < |db.orders|
    && r.sid == |db.servers| + |tried| - 1 && FreePort(db.ports, r.port, r.node)
    && IsBest(db.nodes, r.node, BuyRequest(plan, preferred, tried[..|tried| - 1], stale))
    && after == Built(db, |tried| - 1, r.node, plan, r.port, o)
  }

  lemma DeliveryLeaves(
    db: Db, after: Db, o: nat, plan: Plan, preferred: Option<string>, stale: int, r: Provision, tried: seq<nat>)
    requires AtRest(db) && plan.amount.Positive() && DeliveredBy(db, after, o, plan, preferred, stale, r, tried)
    ensures AtRest(after) && OrderLeft(db.orders, after.orders, o, r, |tried|)
    ensures WellPlaced(db.nodes, r.node, plan, preferred, tried[..|tried| - 1], stale)
    ensures BuiltRow(db, after, r.sid, r.node, plan, r.port)
  {
    BuiltKeepsRest(db, |tried| - 1, r.node, plan, r.port, o);
    OrdersLeft(db, |tried| - 1, r.node, plan, r.port, o);
    BestSuits(db.nodes, r.node, BuyRequest(plan, preferred, tried[..|tried| - 1], stale));
    BuiltRows(db, |tried| - 1, r.node, plan, r.port, o);
  }

  lemma FailureLeaves(db: Db, k: nat, o: nat)
    requires AtRest(db) && (k > 0 ==> o < |db.orders|) && (o < |db.orders| ==> db.orders[o].server.None?)
    ensures AtRest(Unbuilt(db, k, o)) && AtRest(GivenUp(db, k, o))
    ensures OrderLeft(db.orders, Unbuilt(db, k, o).orders, o, NoCapacity, k)
    ensures OrderLeft(db.orders, GivenUp(db, k, o).orders, o, Exhausted, k)
  {
    UnbuiltKeepsRest(db, k, o);
    GivenUpKeepsRest(db, k, o);
    OrdersGivenUp(db, k, o);
  }

  method SelectCandidates(nodes: seq<Node>, req: Request) returns (ids: seq<nat>)
    ensures forall n: nat :: n in ids <==> Candidate(nodes, n, req)
    ensures forall i, j :: 0 <= i < j < |ids| ==> ids[i] < ids[j]
  {
    ids := [];
    for n := 0 to |nodes|
      invariant forall m: nat :: m in ids <==> m < n && Candidate(nodes, m, req)
      invariant forall i :: 0 <= i < |ids| ==> ids[i] in ids
      invariant forall i, j :: 0 <= i < j < |ids| ==> ids[i] < ids[j]
    {
      if Candidate(nodes, n, req) {
        ids := ids + [n];
      }
    }
  }

  /** The candidates in the preferred location, or all of them when there is none. */
  method SelectPool(nodes: seq<Node>, req: Request, ids: seq<nat>) returns (pool: seq<nat>)
    requires forall n: nat :: n in ids <==> Candidate(nodes, n, req)
    requires forall i, j :: 0 <= i < j < |ids| ==> ids[i] < ids[j]
    ensures forall n: nat :: n in pool <==> InPool(nodes, n, req)
    ensures forall i, j :: 0 <= i < j < |pool| ==> pool[i] < pool[j]
    ensures ids != [] ==> pool != []
  {
    pool := [];
    for i := 0 to |ids|
      invariant forall j :: 0 <= j < |pool| ==> pool[j] in pool && pool[j] in ids[..i]
      invariant forall n: nat :: n in pool ==> n in ids && IsPreferred(nodes[n], req)
      invariant forall j :: 0 <= j < i ==> ids[j] in ids && (IsPreferred(nodes[ids[j]], req) ==> ids[j] in pool)
      invariant forall j, k :: 0 <= j < k < |pool| ==> pool[j] < pool[k]
    {
      assert ids[i] in ids && ids[..i + 1] == ids[..i] + [ids[i]];
      if IsPreferred(nodes[ids[i]], req) {
        pool := pool + [ids[i]];
      }
    }
    if |pool| == 0 {
      pool := ids;
    } else {
      assert pool[0] in pool;
    }
  }

  function ScoreOf(nodes: seq<Node>, n: nat, req: Request): real
    requires Plausible(nodes) && req.amount.Positive() && Candidate(nodes, n, req)
  {
    CandidateHasTotals(nodes, n, req);
    BalanceScore(nodes[n], req.amount)
  }

  /** `b` has the lowest of the first `k` scores, and is the first that has it. */
  predicate Leads(scores: seq<real>, b: nat, k: nat) {
    && b < k <= |scores|
    && (forall j :: 0 <= j < b ==> scores[b] < scores[j])
    && (forall j :: b < j < k ==> scores[b] <= scores[j])
  }

  lemma LeaderIsBest(nodes: seq<Node>, req: Request, pool: seq<nat>, scores: seq<real>, b: nat)
    requires Plausible(nodes) && req.amount.Positive()
    requires forall n: nat :: n in pool <==> InPool(nodes, n, req)
    requires forall i, j :: 0 <= i < j < |pool| ==> pool[i] < pool[j]
    requires |scores| == |pool| && Leads(scores, b, |pool|)
    requires forall i :: 0 <= i < |pool| ==> InPool(nodes, pool[i], req) && scores[i] == ScoreOf(nodes, pool[i], req)
    ensures IsBest(nodes, pool[b], req)
  {
    forall m: nat | InPool(nodes, m, req) && m != pool[b]
      ensures var (s, t) := (ScoreOf(nodes, pool[b], req), ScoreOf(nodes, m, req));
        s < t || (s == t && pool[b] < m)
    {
      var j :| 0 <= j < |pool| && pool[j] == m;
      assert j < b || b < j;
    }
  }

  /** The reduce over the pool: strictly smaller scores replace, so ties go to the earlier row. */
  method Choose(nodes: seq<Node>, req: Request, pool: seq<nat>) returns (best: nat)
    requires Plausible(nodes) && req.amount.Positive() && pool != []
    requires forall n: nat :: n in pool <==> InPool(nodes, n, req)
    requires forall i, j :: 0 <= i < j < |pool| ==> pool[i] < pool[j]
    ensures IsBest(nodes, best, req) && LeastBurdened(nodes, best, req)
  {
    forall i | 0 <= i < |pool| ensures InPool(nodes, pool[i], req) {
      assert pool[i] in pool;
    }
    ghost var scores := seq(|pool|, i requires 0 <= i < |pool| => ScoreOf(nodes, pool[i], req));
    best := pool[0];
    ghost var b := 0;
    for i := 1 to |pool|
      invariant Leads(scores, b, i) && best == pool[b]
    {
      if ScoreOf(nodes, pool[i], req) < ScoreOf(nodes, best, req) {
        best, b := pool[i], i;
      }
    }
    LeaderIsBest(nodes, req, pool, scores, b);
    BestIsLeastBurdened(nodes, best, req);
  }

  /** The drain's results report `sid` as not moved. */
  ghost predicate Left(ids: seq<nat>, moved: seq<bool>, sid: nat)
    requires |ids| == |moved|
  {
    exists k :: 0 <= k < |ids| && ids[k] == sid && !moved[k]
  }

  class Panel {
    var nodes: seq<Node>
    var servers: seq<Option<Server>>
    var ports: seq<Port>
    var orders: seq<Order>
    var jobs: seq<Job>

    function View(): Db
      reads this
    {
      Db(nodes, servers, ports, orders, jobs)
    }

    /**
     Takes capacity on the best candidate, or refuses exactly when there is no candidate.  When the
     transaction around it does not commit, nothing has happened.
     */
    method ReserveCapacity(req: Request, commits: bool) returns (r: Reservation)
      requires Plausible(nodes) && req.amount.Positive()
      modifies this`nodes
      ensures r.Lost? <==> !commits
      ensures r.Reserved? ==>
        && IsBest(old(nodes), r.node, req) && LeastBurdened(old(nodes), r.node, req)
        && nodes == Reserve(old(nodes), r.node, req.amount)
      ensures !r.Reserved? ==> nodes == old(nodes)
      ensures r.NoCandidate? <==> commits && forall n: nat :: !Candidate(old(nodes), n, req)
    {
      if !commits {
        return Lost;
      }
      var ids := SelectCandidates(nodes, req);
      if |ids| == 0 {
        forall n: nat ensures !Candidate(nodes, n, req) {
          assert n !in ids;
        }
        return NoCandidate;
      }
      var pool := SelectPool(nodes, req, ids);
      var chosen := Choose(nodes, req, pool);
      assert Candidate(nodes, chosen, req);
      nodes := Reserve(nodes, chosen, req.amount);
      r := Reserved(chosen);
    }

    /**
     The counters of the node go down by exactly the amount if they hold it, and never below zero;
     no other node and no other column changes.
     */
    method ReleaseCapacity(n: nat, amount: Res)
      requires n < |nodes|
      modifies this`nodes
      ensures nodes == Release(old(nodes), n, amount)
      ensures |nodes| == |old(nodes)| && forall m :: 0 <= m < |nodes| && m != n ==> nodes[m] == old(nodes)[m]
      ensures nodes[n] == old(nodes)[n].(reserved := nodes[n].reserved)
      ensures amount.Leq(old(nodes)[n].reserved) ==> nodes[n].reserved.Plus(amount) == old(nodes)[n].reserved
      ensures old(nodes)[n].reserved.NonNeg() ==> nodes[n].reserved.NonNeg()
    {
      var r := nodes[n].reserved;
      r := r.(mem := if r.mem < amount.mem then 0 else r.mem - amount.mem);
      r := r.(disk := if r.disk < amount.disk then 0 else r.disk - amount.disk);
      r := r.(cpu := if r.cpu < amount.cpu then 0.0 else r.cpu - amount.cpu);
      nodes := nodes[n := nodes[n].(reserved := r)];
    }

    /** Claims the free port with the lowest number on the node, if the node has a free port. */
    method ClaimAllocation(n: nat, sid: nat) returns (p: Option<nat>)
      modifies this`ports
      ensures p.Some? ==> FreePort(old(ports), p.value, n) && ports == Claim(old(ports), p.value, sid)
      ensures p.Some? ==> forall q: nat :: FreePort(old(ports), q, n) ==>
                old(ports)[p.value].number <= old(ports)[q].number
      ensures p.None? ==> ports == old(ports) && forall q: nat :: !FreePort(ports, q, n)
    {
      p := None;
      for q := 0 to |ports|
        invariant ports == old(ports)
        invariant p.Some? ==> FreePort(ports, p.value, n)
        invariant forall x: nat :: x < q && FreePort(ports, x, n) ==>
          p.Some? && ports[p.value].number <= ports[x].number
      {
        if FreePort(ports, q, n) && (p.None? || ports[q].number < ports[p.value].number) {
          p := Some(q);
        }
      }
      if p.Some? {
        ports := Claim(ports, p.value, sid);
      }
    }

    /** The purchase transaction: all of it, or nothing.  Unless `commits`, it ends with an error of its own. */
    method PlaceServer(req: Request, plan: Plan, o: nat, commits: bool) returns (r: PlaceResult)
      requires Plausible(nodes) && plan.amount.Positive() && req.amount == plan.amount
      modifies this
      ensures r.Placed? ==>
        && commits && old(o < |orders|) && r.sid == old(|servers|)
        && IsBest(old(nodes), r.node, req) && FreePort(old(ports), r.port, r.node)
        && View() == Place(old(View()), r.node, plan, r.port, o)
      ensures !r.Placed? ==> View() == old(View())
      ensures r.NoRoom? <==> commits && forall n: nat :: !Candidate(old(nodes), n, req)
      ensures r.Aborted? ==> !commits || o >= |orders| || BestHasNoPort(nodes, ports, req)
      ensures !commits ==> r.Aborted?
    {
      ghost var before := View();
      var nodesWas, serversWas, portsWas := nodes, servers, ports;
      var reserved := ReserveCapacity(req, commits);
      if !reserved.Reserved? {
        return if reserved.Lost? then Aborted else NoRoom;
      }
      var n, sid := reserved.node, |servers|;
      assert Candidate(before.nodes, n, req);
      servers := servers + [Some(Server(n, plan.amount, plan.template, Provisioning))];
      var claimed := ClaimAllocation(n, sid);
      if claimed.None? || o >= |orders| {
        nodes, servers, ports := nodesWas, serversWas, portsWas;
        return Aborted;
      }
      orders := orders[o := Order(Provisioned, Some(sid))];
      r := PlaceResult.Placed(sid, n, claimed.value);
    }

    /** The transaction that rolls a placement back. */
    method UnplaceServer(sid: nat, n: nat, amount: Res, o: nat)
      requires sid < |servers| && n < |nodes| && o < |orders|
      modifies this
      ensures View() == Unplace(old(View()), sid, n, amount, o)
    {
      ports := GiveBack(ports, sid, None);
      servers := servers[sid := None];
      ReleaseCapacity(n, amount);
      orders := orders[o := Order(Pending, None)];
    }

    /** One placement for order `o`, after the builds on `tried` failed and were rolled back. */
    method TryPlacement(
      ghost db: Db, o: nat, plan: Plan, preferred: Option<string>, tried: seq<nat>, stale: int, commits: bool)
      returns (r: PlaceResult)
      requires Plausible(db.nodes) && plan.amount.Positive() && (tried != [] ==> o < |db.orders|)
      requires View() == Unbuilt(db, |tried|, o)
      modifies this
      ensures !r.Placed? ==> View() == old(View())
      ensures r.NoRoom? <==>
        commits && forall n: nat :: !Candidate(db.nodes, n, BuyRequest(plan, preferred, tried, stale))
      ensures r.Aborted? ==>
        !commits || o >= |db.orders| || BestHasNoPort(db.nodes, db.ports, BuyRequest(plan, preferred, tried, stale))
      ensures !commits ==> r.Aborted?
      ensures r.Placed? ==>
        && o < |db.orders| && r.sid == |db.servers| + |tried| && FreePort(db.ports, r.port, r.node)
        && IsBest(db.nodes, r.node, BuyRequest(plan, preferred, tried, stale))
        && View() == Place(Unbuilt(db, |tried|, o), r.node, plan, r.port, o)
    {
      r := PlaceServer(BuyRequest(plan, preferred, tried, stale), plan, o, commits);
    }

    /** The agent's answer settles a placement: the server is there, or the placement is rolled back. */
    method Settle(ghost db: Db, ghost k: nat, plan: Plan, o: nat, placed: PlaceResult, built: bool)
      requires Tidy(db) && plan.amount.Positive() && o < |db.orders|
      requires placed.Placed? && placed.sid == |db.servers| + k && placed.node < |db.nodes|
      requires FreePort(db.ports, placed.port, placed.node)
      requires View() == Place(Unbuilt(db, k, o), placed.node, plan, placed.port, o)
      modifies this
      ensures View() == if built then Built(db, k, placed.node, plan, placed.port, o) else Unbuilt(db, k + 1, o)
    {
      var sid, n := placed.sid, placed.node;
      if built {
        BuiltFromUnbuilt(db, k, n, plan, placed.port, o);
        servers := servers[sid := Some(servers[sid].value.(status := Offline))];
      } else {
        RollBackLeaves(db, k, n, plan, placed.port, o);
        UnplaceServer(sid, n, plan.amount, o);
      }
    }

    /** One round for order `o`: a placement and, if it succeeds, a build that may have to be rolled back. */
    method Round(
      ghost db: Db, o: nat, plan: Plan, preferred: Option<string>, tried: seq<nat>, stale: int,
      commits: bool, built: bool)
      returns (r: PlaceResult)
      requires Tidy(db) && plan.amount.Positive() && (tried != [] ==> o < |db.orders|)
      requires View() == Unbuilt(db, |tried|, o)
      modifies this
      ensures r.NoRoom? <==>
        commits && forall n: nat :: !Candidate(db.nodes, n, BuyRequest(plan, preferred, tried, stale))
      ensures r.Aborted? ==>
        !commits || o >= |db.orders| || BestHasNoPort(db.nodes, db.ports, BuyRequest(plan, preferred, tried, stale))
      ensures !r.Aborted? ==>
        commits && !BestHasNoPort(db.nodes, db.ports, BuyRequest(plan, preferred, tried, stale))
      ensures !r.Placed? ==> View() == Unbuilt(db, |tried|, o)
      ensures r.Placed? ==>
        && o < |db.orders| && r.sid == |db.servers| + |tried| && FreePort(db.ports, r.port, r.node)
        && IsBest(db.nodes, r.node, BuyRequest(plan, preferred, tried, stale)) && r.node !in tried
        && View() == if built then Built(db, |tried|, r.node, plan, r.port, o) else Unbuilt(db, |tried| + 1, o)
    {
      r := TryPlacement(db, o, plan, preferred, tried, stale, commits);
      if r.Placed? {
        assert r.node !in Set(tried);
        BestHasPort(db.nodes, db.ports, BuyRequest(plan, preferred, tried, stale), r.node, r.port);
        Settle(db, |tried|, plan, o, r, built);
      }
    }

    /** The three rounds; nothing is returned when none of them delivered and none was refused. */
    method Rounds(
      o: nat, plan: Plan, preferred: Option<string>, stale: int, commits: nat -> bool, builds: nat -> bool)
      returns (r: Option<Provision>, tried: seq<nat>)
      requires Tidy(View()) && plan.amount.Positive()
      modifies this
      ensures r.None? || r.value.Delivered? || r.value.NoCapacity?
      ensures |tried| <= 3 && forall i, j :: 0 <= i < j < |tried| ==> tried[i] != tried[j]
      ensures |tried| > (if r.Some? && r.value.Delivered? then 1 else 0) ==> exists k: nat :: !builds(k)
      ensures r.Some? && r.value.Delivered? ==> exists k: nat :: builds(k)
      ensures tried != [] ==> o < old(|orders|)
      ensures r.Some? && r.value.Delivered? ==>
        DeliveredBy(old(View()), View(), o, plan, preferred, stale, r.value, tried)
      ensures r.None? || r.value.NoCapacity? ==> View() == Unbuilt(old(View()), |tried|, o)
      ensures r.Some? && r.value.NoCapacity? ==>
        forall n: nat :: !Candidate(old(nodes), n, BuyRequest(plan, preferred, tried, stale))
      ensures Blocked(old(View()), BuyRequest(plan, preferred, [], stale), commits) ==> r.None? && tried == []
      ensures r.None? && tried == [] && o < old(|orders|) ==>
        Blocked(old(View()), BuyRequest(plan, preferred, [], stale), commits)
    {
      tried := [];
      ghost var db := View();
      ghost var req := BuyRequest(plan, preferred, [], stale);
      assert Unbuilt(db, 0, o) == db;
      for attempt := 0 to 3
        invariant SoFar(db, o, req, commits, builds, tried, attempt)
        invariant View() == Unbuilt(db, |tried|, o)
      {
        var placed := Round(db, o, plan, preferred, tried, stale, commits(attempt), builds(attempt));
        if placed.NoRoom? {
          return Some(NoCapacity), tried;
        }
        if placed.Placed? {
          ghost var before := tried;
          tried := tried + [placed.node];
          assert tried[..|tried| - 1] == before;
          if builds(attempt) {
            return Some(Delivered(placed.sid, placed.node, placed.port)), tried;
          }
          OneMoreFailed(db, o, req, commits, builds, before, attempt, placed.node);
        } else {
          OneMoreAborted(db, o, req, commits, builds, tried, attempt);
        }
      }
      r := None;
    }

    /** What is written when all attempts are used up. */
    method MarkFailed(ghost db: Db, k: nat, o: nat)
      requires (k > 0 ==> o < |db.orders|) && View() == Unbuilt(db, k, o)
      modifies this
      ensures View() == GivenUp(db, k, o)
    {
      if o < |orders| {
        orders := orders[o := orders[o].(status := OrderStatus.Failed)];
      }
    }

    /** The attempts of a purchase, and the order's status when they are used up. */
    method Attempts(
      o: nat, plan: Plan, preferred: Option<string>, stale: int, commits: nat -> bool, builds: nat -> bool)
      returns (r: Provision, tried: seq<nat>)
      requires AtRest(View()) && plan.amount.Positive() && (o < |orders| ==> orders[o].server.None?)
      modifies this
      ensures AtRest(View())
      ensures r.Delivered? || r.NoCapacity? || r.Exhausted?
      ensures |tried| <= 3 && forall i, j :: 0 <= i < j < |tried| ==> tried[i] != tried[j]
      ensures (forall k :: builds(k)) ==> |tried| == if r.Delivered? then 1 else 0
      ensures (forall k :: !builds(k)) ==> !r.Delivered?
      ensures r.Delivered? ==> DeliveredBy(old(View()), View(), o, plan, preferred, stale, r, tried)
      ensures r.NoCapacity? || r.Exhausted? ==> tried == [] || o < old(|orders|)
      ensures r.NoCapacity? ==>
        && View() == Unbuilt(old(View()), |tried|, o)
        && forall n: nat :: !Candidate(old(nodes), n, BuyRequest(plan, preferred, tried, stale))
      ensures r.Exhausted? ==> View() == GivenUp(old(View()), |tried|, o)
      ensures r.Delivered? ==>
        && WellPlaced(old(nodes), r.node, plan, preferred, tried[..|tried| - 1], stale)
        && BuiltRow(old(View()), View(), r.sid, r.node, plan, r.port)
      ensures OrderLeft(old(orders), orders, o, r, |tried|)
      ensures o < old(|orders|) ==>
        (r.Exhausted? && tried == [] <==> Blocked(old(View()), BuyRequest(plan, preferred, [], stale), commits))
    {
      ghost var db := View();
      var outcome;
      outcome, tried := Rounds(o, plan, preferred, stale, commits, builds);
      if outcome.Some? && outcome.value.Delivered? {
        r := outcome.value;
        DeliveryLeaves(db, View(), o, plan, preferred, stale, r, tried);
        return;
      }
      FailureLeaves(db, |tried|, o);
      if outcome.Some? {
        return outcome.value, tried;
      }
      MarkFailed(db, |tried|, o);
      r := Exhausted;
    }

    /**
     Purchase to running server: up to three placements, each rolled back if its build fails.
     `commits(k)` and `builds(k)` say whether the reservation of attempt k commits and whether the
     agent then builds; `tried` are the nodes that were built on.
     */
    method ProvisionServer(
      o: nat, plan: Option<Plan>, preferred: Option<string>, stale: int, commits: nat -> bool, builds: nat -> bool)
      returns (r: Provision, tried: seq<nat>)
      requires AtRest(View()) && (plan.Some? ==> plan.value.amount.Positive())
      modifies this
      ensures AtRest(View())
      // Three nodes at most, all different; a build that succeeds is the last.
      ensures |tried| <= 3 && forall i, j :: 0 <= i < j < |tried| ==> tried[i] != tried[j]
      ensures (forall k :: builds(k)) ==> |tried| == if r.Delivered? then 1 else 0
      ensures (forall k :: !builds(k)) ==> !r.Delivered?
      // Nothing to do: no template, or the order already has its server.
      ensures plan.None? <==> r.NoTemplate?
      ensures r.Existing? || r.Vanished? <==> plan.Some? && old(o < |orders| && orders[o].server.Some?)
      ensures r.Existing? ==> old(View()).Live(r.sid) && old(orders)[o].server == Some(r.sid)
      ensures r.Vanished? ==> !old(View()).Live(old(orders)[o].server.value)
      ensures r.NoTemplate? || r.Existing? || r.Vanished? ==> View() == old(View())
      // One server, one port, one reservation, recorded on the order.
      ensures r.Delivered? ==>
        && DeliveredBy(old(View()), View(), o, plan.value, preferred, stale, r, tried)
        && BuiltRow(old(View()), View(), r.sid, r.node, plan.value, r.port)
      // On a node that can take it and was not tried before, in the preferred location if one there can.
      ensures r.Delivered? ==> WellPlaced(old(nodes), r.node, plan.value, preferred, tried[..|tried| - 1], stale)
      // Or nothing but deleted rows and the order's status.
      ensures r.NoCapacity? || r.Exhausted? ==> tried == [] || o < old(|orders|)
      ensures r.NoCapacity? ==>
        && View() == Unbuilt(old(View()), |tried|, o)
        && forall n: nat :: !Candidate(old(nodes), n, BuyRequest(plan.value, preferred, tried, stale))
      ensures r.Exhausted? ==> View() == GivenUp(old(View()), |tried|, o)
      // The order is provisioned, failed, pending again or as it was; no other changes.
      ensures OrderLeft(old(orders), orders, o, r, |tried|)
      // Nothing is even tried exactly when every reservation fails or comes to a best node without a port.
      ensures plan.Some? && o < old(|orders|) && old(orders)[o].server.None? ==>
        (r.Exhausted? && tried == [] <==> Blocked(old(View()), BuyRequest(plan.value, preferred, [], stale), commits))
    {
      if plan.None? {
        return NoTemplate, [];
      }
      if o < |orders| && orders[o].server.Some? {
        var sid := orders[o].server.value;
        return if View().Live(sid) then Existing(sid) else Vanished, [];
      }
      r, tried := Attempts(o, plan.value, preferred, stale, commits, builds);
    }

    // ---------- Deletion ----------

    /** The transaction that ends a deletion. */
    method EraseServer(sid: nat, n: nat, amount: Res)
      requires sid < |servers| && n < |nodes|
      modifies this
      ensures View() == Erase(old(View()), sid, n, amount)
    {
      ports := GiveBack(ports, sid, None);
      servers := servers[sid := None];
      ReleaseCapacity(n, amount);
    }

    /** The agent's answer to the delete call makes no difference to the tables. */
    method DeleteServer(sid: nat) returns (found: bool)
      requires AtRest(View())
      modifies this
      ensures AtRest(View()) && found == old(View().Live(sid))
      ensures found ==>
        var row := old(servers)[sid].value; View() == Erase(old(View()), sid, row.node, row.amount)
      ensures !found ==> View() == old(View())
      // The row is gone, its ports are free, and no other row has changed.
      ensures found ==>
        && servers == old(servers)[sid := None] && HoldsOnly(old(ports), ports, sid, None)
        && orders == old(orders) && jobs == old(jobs)
    {
      ghost var db := View();
      found := View().Live(sid);
      if found {
        var row := servers[sid].value;
        servers := servers[sid := Some(row.(status := Removing))];
        assert servers[sid := None] == db.servers[sid := None];
        EraseServer(sid, row.node, row.amount);
        EraseKeepsRest(db, sid);
        ErasedRows(db, sid);
      }
    }

    // ---------- Migration ----------

    /** Step 1: reserve on the scheduler's choice, unless another node was asked for or the transaction fails. */
    method ReserveTarget(j: nat, sid: nat, target: Option<nat>, stale: int, commits: bool) returns (n: Option<nat>)
      requires Plausible(nodes) && AtHome(View(), sid) && j < |jobs|
      modifies this`nodes, this`jobs
      ensures n.Some? ==>
        && commits && IsBest(old(nodes), n.value, MoveRequest(old(View()), sid, target, stale))
        && (target.Some? ==> n == target)
        && nodes == Reserve(old(nodes), n.value, servers[sid].value.amount)
        && jobs == old(jobs)[j := old(jobs)[j].(to := n.value)]
      ensures n.None? ==> nodes == old(nodes) && jobs == old(jobs)
      ensures n.None? && commits ==> forall m: nat :: (target.Some? ==> m == target.value) ==>
                !IsBest(old(nodes), m, MoveRequest(old(View()), sid, target, stale))
    {
      var req := MoveRequest(View(), sid, target, stale);
      var nodesWas := nodes;
      var reserved := ReserveCapacity(req, commits);
      if !reserved.Reserved? {
        return None;
      }
      if target.Some? && reserved.node != target.value {
        nodes := nodesWas;
        n := None;
      } else {
        jobs := jobs[j := jobs[j].(to := reserved.node)];
        n := Some(reserved.node);
      }
    }

    method SetStatus(j: nat, status: JobStatus)
      requires j < |jobs|
      modifies this`jobs
      ensures jobs == old(jobs)[j := old(jobs)[j].(status := status)]
    {
      jobs := jobs[j := jobs[j].(status := status)];
    }

    /** Steps 2 and 3: archive on the source, claim a port on the target, restore there; then the switch may fail. */
    method Transfer(j: nat, sid: nat, n: nat, fault: Fault) returns (ok: bool, p: Option<nat>)
      requires j < |jobs|
      modifies this`ports, this`jobs
      ensures exists status :: jobs == old(jobs)[j := old(jobs)[j].(status := status)]
      ensures p.Some? ==> FreePort(old(ports), p.value, n) && ports == Claim(old(ports), p.value, sid)
      ensures p.None? ==> ports == old(ports)
      ensures ok <==> fault in {Never, OnReserve} && exists q: nat :: FreePort(old(ports), q, n)
      ensures ok ==> p.Some?
    {
      p := None;
      SetStatus(j, BackingUp);
      if fault.OnStop? || fault.OnArchive? {
        return false, p;
      }
      SetStatus(j, Transferring);
      if fault.OnClaim? {
        return false, p;
      }
      p := ClaimAllocation(n, sid);
      if p.None? || fault.OnCreate? {
        return false, p;
      }
      SetStatus(j, Restoring);
      if fault.OnRestore? {
        return false, p;
      }
      SetStatus(j, Switching);
      ok := !fault.OnSwitch?;
    }

    /** The catch block: unwind whatever node the job row names. */
    method UnwindMove(j: nat, sid: nat, amount: Res)
      requires j < |jobs| && jobs[j].to < |nodes|
      modifies this
      ensures jobs == old(jobs)[j := old(jobs)[j].(status := RolledBack)]
      ensures servers == old(servers) && orders == old(orders)
      ensures old(jobs)[j].to != old(jobs)[j].from ==>
        && ports == GiveBack(old(ports), sid, Some(old(jobs)[j].to))
        && nodes == Release(old(nodes), old(jobs)[j].to, amount)
      ensures old(jobs)[j].to == old(jobs)[j].from ==> ports == old(ports) && nodes == old(nodes)
    {
      if jobs[j].to != jobs[j].from {
        ports := GiveBack(ports, sid, Some(jobs[j].to));
        ReleaseCapacity(jobs[j].to, amount);
      }
      SetStatus(j, RolledBack);
    }

    /** Step 4: the record moves and the source is released. */
    method SwitchServer(sid: nat, from: nat, to: nat, amount: Res)
      requires View().Live(sid) && from < |nodes|
      modifies this
      ensures View() == SwitchOver(old(View()), sid, from, to, amount)
    {
      ports := GiveBack(ports, sid, Some(from));
      servers := servers[sid := Some(servers[sid].value.(node := to, status := Offline))];
      ReleaseCapacity(from, amount);
    }

    /** From the reservation on: the move completes, or the catch block undoes it. */
    method CarryOver(ghost db: Db, j: nat, sid: nat, row: Server, n: nat, fault: Fault) returns (p: Option<nat>)
      requires Tidy(db) && db.Live(sid) && db.servers[sid] == Some(row) && row.amount.Positive()
      requires n < |db.nodes| && row.node < |db.nodes| && n != row.node && !Owns(db.ports, sid, n)
      requires !fault.OnReserve?
      requires j == |db.jobs| && View() == db.(nodes := Reserve(db.nodes, n, row.amount),
                                               jobs := db.jobs + [Job(sid, row.node, n, Queued)])
      modifies this
      ensures p.Some? ==>
        fault.Never? && FreePort(db.ports, p.value, n) && View() == Moved(db, sid, n, p.value)
      ensures p.None? ==>
        && (fault.Never? ==> forall q: nat :: !FreePort(db.ports, q, n))
        && View() == db.(jobs := db.jobs + [Job(sid, row.node, n, RolledBack)])
    {
      var ok, claimed := Transfer(j, sid, n, fault);
      if ok {
        SwitchServer(sid, row.node, n, row.amount);
        SetStatus(j, Completed);
        assert jobs == db.jobs + [Job(sid, row.node, n, Completed)];
        p := claimed;
      } else {
        if claimed.Some? {
          TargetUndone(db, sid, n, claimed.value, row.amount);
        } else {
          NothingClaimed(db, sid, n, row.amount);
        }
        UnwindMove(j, sid, row.amount);
        assert jobs == db.jobs + [Job(sid, row.node, n, RolledBack)];
        p := None;
      }
    }

    /** The body of a migration, once the server and the target are known to exist. */
    method MoveServer(sid: nat, target: Option<nat>, stale: int, fault: Fault) returns (r: Move)
      requires Tidy(View()) && AtHome(View(), sid) && (target.Some? ==> target.value < |nodes|)
      modifies this
      ensures r.MovedTo? || r.Stayed?
      ensures r.MovedTo? ==>
        && fault.Never? && IsBest(old(nodes), r.node, MoveRequest(old(View()), sid, target, stale))
        && (target.Some? ==> r.node == target.value) && FreePort(old(ports), r.port, r.node)
        && View() == Moved(old(View()), sid, r.node, r.port)
      ensures r.Stayed? ==> View() == MoveUndone(old(View()), sid, target, r.reserved)
      ensures r.Stayed? && r.reserved.Some? ==>
        && IsBest(old(nodes), r.reserved.value, MoveRequest(old(View()), sid, target, stale))
        && (target.Some? ==> r.reserved == target) && !fault.OnReserve?
        && (fault.Never? ==> forall q: nat :: !FreePort(old(ports), q, r.reserved.value))
      ensures r.Stayed? && r.reserved.None? && !fault.OnReserve? ==>
        forall m: nat :: (target.Some? ==> m == target.value) ==>
        !IsBest(old(nodes), m, MoveRequest(old(View()), sid, target, stale))
    {
      ghost var db := View();
      var row, j := servers[sid].value, |jobs|;
      jobs := jobs + [Job(sid, row.node, if target.Some? then target.value else row.node, Queued)];
      assert MoveRequest(View(), sid, target, stale) == MoveRequest(db, sid, target, stale);
      var n := ReserveTarget(j, sid, target, stale, !fault.OnReserve?);
      if n.Some? {
        NoPortsAway(db, sid, n.value);
        var p := CarryOver(db, j, sid, row, n.value, fault);
        r := if p.Some? then MovedTo(n.value, p.value) else Stayed(n);
      } else {
        if target.Some? && target.value != row.node {
          NoPortsAway(db, sid, target.value);
        }
        UnwindMove(j, sid, row.amount);
        assert jobs == MoveUndone(db, sid, target, None).jobs;
        r := Stayed(None);
      }
    }

    /**
     The server ends up on the target with everything that belongs to it, or the tables are as
     before but for the job row; except that when an explicit target is not reserved, the catch
     block releases the amount there all the same.  The tables are at rest afterwards exactly when
     the call is not one of those that `Overreleases` describes.
     */
    method MigrateServer(sid: nat, target: Option<nat>, stale: int, fault: Fault) returns (r: Move)
      requires AtRest(View())
      modifies this
      ensures r.NoSuchServer? <==> !old(View()).Live(sid)
      ensures r.NoSuchNode? <==> old(View()).Live(sid) && target.Some? && target.value >= old(|nodes|)
      ensures r.NoSuchServer? || r.NoSuchNode? ==> View() == old(View())
      ensures r.MovedTo? ==>
        && fault.Never? && IsBest(old(nodes), r.node, MoveRequest(old(View()), sid, target, stale))
        && (target.Some? ==> r.node == target.value) && FreePort(old(ports), r.port, r.node)
        && View() == Moved(old(View()), sid, r.node, r.port)
      ensures r.Stayed? ==> View() == MoveUndone(old(View()), sid, target, r.reserved)
      ensures r.Stayed? && r.reserved.Some? ==>
        && IsBest(old(nodes), r.reserved.value, MoveRequest(old(View()), sid, target, stale))
        && (target.Some? ==> r.reserved == target) && !fault.OnReserve?
        && (fault.Never? ==> forall q: nat :: !FreePort(old(ports), q, r.reserved.value))
      ensures r.Stayed? && r.reserved.None? && !fault.OnReserve? ==>
        forall m: nat :: (target.Some? ==> m == target.value) ==>
        !IsBest(old(nodes), m, MoveRequest(old(View()), sid, target, stale))
      // The row, its port and the job; nothing else but the counters.
      ensures r.MovedTo? ==>
        var row := old(servers)[sid].value;
        && servers == old(servers)[sid := Some(Server(r.node, row.amount, row.template, Offline))]
        && HoldsOnly(old(ports), ports, sid, Some(r.port)) && orders == old(orders)
        && jobs == old(jobs) + [Job(sid, row.node, r.node, Completed)]
      ensures r.Stayed? ==>
        && servers == old(servers) && ports == old(ports) && orders == old(orders) && |jobs| == |old(jobs)| + 1
        && jobs == old(jobs) + [Job(sid, old(servers)[sid].value.node, jobs[|jobs| - 1].to, RolledBack)]
      // To another node that can take it, in its own location if one there can, unless a target was named.
      ensures r.MovedTo? ==>
        var row := old(servers)[sid].value;
        && row.node < |old(nodes)| && CanHost(old(nodes), r.node, MoveWant(row, stale))
        && (target.None? && old(nodes)[row.node].location != "" ==>
              Suits(old(nodes), r.node, MoveWant(row, stale), old(nodes)[row.node].location))
      ensures AtRest(View()) <==> !Overreleases(old(View()), sid, target, stale, !fault.OnReserve?)
    {
      if !View().Live(sid) {
        return NoSuchServer;
      }
      if target.Some? && target.value >= |nodes| {
        return NoSuchNode;
      }
      ghost var db := View();
      RestIsAtHome(db, sid);
      r := MoveServer(sid, target, stale, fault);
      if r.MovedTo? {
        MovedKeepsRest(db, sid, r.node, r.port);
        MoveSuits(db, sid, target, r.node, stale);
        MovedRows(db, sid, r.node, r.port);
      } else {
        MoveUndoneKeepsRest(db, sid, target, r.reserved);
      }
    }

    // ---------- Drain ----------

    /** SELECT id FROM "Server" WHERE "nodeId" = n. */
    method ServersOn(n: nat) returns (ids: seq<nat>)
      ensures forall sid: nat :: sid in ids <==> OnNode(View(), sid, n)
      ensures forall i, j :: 0 <= i < j < |ids| ==> ids[i] < ids[j]
    {
      ids := [];
      for sid := 0 to |servers|
        invariant forall t: nat :: t in ids <==> t < sid && OnNode(View(), t, n)
        invariant forall i :: 0 <= i < |ids| ==> ids[i] in ids
        invariant forall i, j :: 0 <= i < j < |ids| ==> ids[i] < ids[j]
      {
        if servers[sid].Some? && servers[sid].value.node == n {
          ids := ids + [sid];
        }
      }
    }

    /** One server of the drain loop: its migration, with an error turned into a result. */
    method MoveOff(n: nat, sid: nat, stale: int, fault: Fault) returns (moved: bool)
      requires AtRest(View()) && OnNode(View(), sid, n) && n < |nodes|
      modifies this
      ensures AtRest(View()) && |nodes| == |old(nodes)| && nodes[n].enabled == old(nodes)[n].enabled
      ensures |servers| == |old(servers)| && servers == old(servers)[sid := servers[sid]]
      ensures servers[sid].Some? && (moved <==> servers[sid].value.node != n)
    {
      var r := MigrateServer(sid, None, stale, fault);
      moved := r.MovedTo?;
    }

    method MoveAll(n: nat, ids: seq<nat>, stale: int, faults: nat -> Fault) returns (moved: seq<bool>)
      requires AtRest(View()) && n < |nodes|
      requires forall i, j :: 0 <= i < j < |ids| ==> ids[i] < ids[j]
      requires forall i :: 0 <= i < |ids| ==> OnNode(View(), ids[i], n)
      modifies this
      ensures AtRest(View()) && |nodes| == |old(nodes)| && nodes[n].enabled == old(nodes)[n].enabled
      ensures |servers| == |old(servers)| && |moved| == |ids|
      ensures forall k :: 0 <= k < |ids| ==> (OnNode(View(), ids[k], n) <==> !moved[k])
      ensures forall sid: nat :: sid < |servers| && sid !in ids ==> servers[sid] == old(servers)[sid]
    {
      moved := [];
      for i := 0 to |ids|
        invariant AtRest(View()) && |nodes| == |old(nodes)| && nodes[n].enabled == old(nodes)[n].enabled
        invariant |servers| == |old(servers)| && |moved| == i
        invariant forall k :: 0 <= k < i ==> (OnNode(View(), ids[k], n) <==> !moved[k])
        invariant forall k :: i <= k < |ids| ==> OnNode(View(), ids[k], n)
        invariant forall sid: nat :: sid < |servers| && sid !in ids ==> servers[sid] == old(servers)[sid]
      {
        ghost var before := View();
        var ok := MoveOff(n, ids[i], stale, faults(ids[i]));
        OneMoved(before, View(), n, ids, moved, ok);
        moved := moved + [ok];
      }
    }

    /**
     Disables the node and moves its servers off one at a time.  Who is left on it are exactly the
     servers reported as not moved, and the node's counters are theirs: zero when there is no error.
     `faults(sid)` is what fails while `sid` is moved.
     */
    method DrainNode(n: nat, stale: int, faults: nat -> Fault) returns (found: bool, ids: seq<nat>, moved: seq<bool>)
      requires AtRest(View())
      modifies this
      ensures AtRest(View()) && found == (n < old(|nodes|)) && |nodes| == old(|nodes|) && |ids| == |moved|
      ensures !found ==> View() == old(View())
      ensures found ==> !nodes[n].enabled && |servers| == |old(servers)|
      ensures found ==> forall sid: nat :: OnNode(old(View()), sid, n) <==> sid in ids
      ensures found ==> forall sid: nat :: OnNode(View(), sid, n) <==> Left(ids, moved, sid)
      ensures found ==> forall sid: nat :: sid < |servers| && sid !in ids ==> servers[sid] == old(servers)[sid]
      ensures found ==> nodes[n].reserved == Ledger.Placed(servers, n)
      ensures found ==> ((forall k :: 0 <= k < |ids| ==> moved[k]) <==> nodes[n].reserved == ZERO)
    {
      ids, moved := [], [];
      found := n < |nodes|;
      if found {
        ghost var db := View();
        nodes := nodes[n := nodes[n].(enabled := false)];
        FlagsKeepRest(db, n);
        ids := ServersOn(n);
        assert forall i :: 0 <= i < |ids| ==> ids[i] in ids;
        assert forall sid: nat :: OnNode(View(), sid, n) <==> OnNode(db, sid, n);
        assert servers == db.servers;
        moved := MoveAll(n, ids, stale, faults);
        LeftBehind(db, View(), n, ids, moved);
        assert NobodyOn([], n);
        ZeroIffEmpty(View(), [], n);
      }
    }

    // ---------- Drift ----------

    /** SUM over the rows of `n` that are not being deleted. */
    method Aggregate(n: nat) returns (sum: Res)
      ensures sum == Ledger.Placed(Settled(servers, false), n)
    {
      ghost var cs := Charges(Settled(servers, false));
      sum := ZERO;
      for i := 0 to |servers|
        invariant sum == Upto(cs, n, i)
      {
        PlusZero(sum);
        assert cs[i] == ChargeOf(Part(servers[i], false));
        if servers[i].Some? && !servers[i].value.status.Removing? && servers[i].value.node == n {
          sum := sum.Plus(servers[i].value.amount);
        } else {
          assert cs[i].On(n) == ZERO;
        }
      }
    }

    /** Compare and, if the counters differ, recalculate. */
    method ReconcileNode(n: nat) returns (drifted: bool)
      requires n < |nodes|
      modifies this`nodes
      ensures nodes == Recalculate(old(nodes), servers, n)
      ensures drifted <==> nodes[n].reserved != old(nodes)[n].reserved
    {
      var placed := Aggregate(n);
      drifted := nodes[n].reserved != placed;
      if drifted {
        nodes := nodes[n := nodes[n].(reserved := placed)];
      } else {
        assert nodes[n] == nodes[n].(reserved := placed);
      }
    }

    /** One pass over the nodes that report: each is repaired, and only the drifted ones change. */
    method ReconcileFleet(reporting: set<nat>) returns (recalculated: nat)
      modifies this`nodes
      ensures |nodes| == |old(nodes)|
      ensures forall n :: 0 <= n < |nodes| ==>
        nodes[n] == if n in reporting then Recalculate(old(nodes), servers, n)[n] else old(nodes)[n]
      ensures recalculated == |Drifted(old(nodes), nodes, |nodes|)|
    {
      recalculated := 0;
      for n := 0 to |nodes|
        invariant |nodes| == |old(nodes)| && recalculated == |Drifted(old(nodes), nodes, n)|
        invariant forall m :: 0 <= m < n ==>
          nodes[m] == if m in reporting then Recalculate(old(nodes), servers, m)[m] else old(nodes)[m]
        invariant forall m :: n <= m < |nodes| ==> nodes[m] == old(nodes)[m]
      {
        ghost var before := nodes;
        if n in reporting {
          var drifted := ReconcileNode(n);
          if drifted {
            recalculated := recalculated + 1;
          }
        }
        OneMore(old(nodes), before, nodes, n);
      }
    }
  }

  /** Moving one listed server off changes nothing for the others. */
  lemma OneMoved(before: Db, after: Db, n: nat, ids: seq<nat>, moved: seq<bool>, ok: bool)
    requires |moved| < |ids| && ids[|moved|] < |before.servers| && |after.servers| == |before.servers|
    requires forall i, j :: 0 <= i < j < |ids| ==> ids[i] < ids[j]
    requires after.servers == before.servers[ids[|moved|] := after.servers[ids[|moved|]]]
    requires after.Live(ids[|moved|]) && (ok <==> !OnNode(after, ids[|moved|], n))
    requires forall k :: 0 <= k < |moved| ==> (OnNode(before, ids[k], n) <==> !moved[k])
    requires forall k :: |moved| <= k < |ids| ==> OnNode(before, ids[k], n)
    ensures forall k :: 0 <= k <= |moved| ==> (OnNode(after, ids[k], n) <==> !(moved + [ok])[k])
    ensures forall k :: |moved| < k < |ids| ==> OnNode(after, ids[k], n)
  {
  }

  /** The nodes below `k` whose counters differ between two tables. */
  ghost function Drifted(was: seq<Node>, now: seq<Node>, k: nat): set<nat>
    requires k <= |was| == |now|
  {
    set n: nat | n < k && now[n].reserved != was[n].reserved
  }

  lemma OneMore(was: seq<Node>, before: seq<Node>, now: seq<Node>, n: nat)
    requires n < |was| == |before| == |now| && forall m :: 0 <= m < n ==> now[m] == before[m]
    ensures |Drifted(was, now, n + 1)| ==
      |Drifted(was, before, n)| + (if now[n].reserved != was[n].reserved then 1 else 0)
  {
    var more := if now[n].reserved != was[n].reserved then {n} else {};
    assert Drifted(was, now, n + 1) == Drifted(was, before, n) + more;
  }

  /** Whoever is on a node after its servers were moved was on it before and did not move. */
  lemma LeftBehind(db: Db, after: Db, n: nat, ids: seq<nat>, moved: seq<bool>)
    requires |ids| == |moved| && |after.servers| == |db.servers|
    requires forall sid: nat :: OnNode(db, sid, n) <==> sid in ids
    requires forall k :: 0 <= k < |ids| ==> (OnNode(after, ids[k], n) <==> !moved[k])
    requires forall sid: nat :: sid < |after.servers| && sid !in ids ==> after.servers[sid] == db.servers[sid]
    ensures forall sid: nat :: OnNode(after, sid, n) <==> Left(ids, moved, sid)
    ensures (forall k :: 0 <= k < |ids| ==> moved[k]) <==> forall sid: nat :: !OnNode(after, sid, n)
  {
    forall sid: nat | OnNode(after, sid, n) ensures Left(ids, moved, sid) {
      assert sid in ids by { assert OnNode(db, sid, n) || sid in ids; }
      var k :| 0 <= k < |ids| && ids[k] == sid;
    }
    forall k | 0 <= k < |ids| && !moved[k] ensures OnNode(after, ids[k], n) {
    }
  }
}
