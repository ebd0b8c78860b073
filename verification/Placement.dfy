/** What the scheduler's score prefers, in terms of how full a node would be in each dimension. */
module Placement {
  import opened Wrappers
  import opened Resources
  import opened Scheduler
  import opened Ledger
  import opened Rest

  /** The used fractions of memory, disk and CPU. */
  datatype Load = Load(mem: real, disk: real, cpu: real) {
    function Sum(): real {
      mem + disk + cpu
    }

    function Top(): real {
      var x := if mem < disk then disk else mem;
      if x < cpu then cpu else x
    }

    function Bottom(): real {
      var x := if mem < disk then mem else disk;
      if x < cpu then x else cpu
    }

    predicate Even() {
      mem == disk == cpu
    }

    function Plus(d: real): Load {
      Load(mem + d, disk + d, cpu + d)
    }

    /** The fullest dimension, or twice the mean less the emptiest if that is more. */
    function Burden(): real {
      var lopsided := 2.0 * Sum() / 3.0 - Bottom();
      if lopsided < Top() then Top() else lopsided
    }
  }

  /** What is overhead, reserved or asked for, out of all there is. */
  function After(node: Node, amount: Res): Load
    requires node.total.Positive()
  {
    Load((node.overheadMem + node.reserved.mem + amount.mem) as real / node.total.mem as real,
         (node.overheadDisk + node.reserved.disk + amount.disk) as real / node.total.disk as real,
         (node.reserved.cpu + amount.cpu) / node.total.cpu)
  }

  lemma Distributes(x: real, y: real, z: real)
    ensures (x + y) * z == x * z + y * z
  {
  }

  lemma Cancels(x: real, y: real, z: real)
    requires z > 0.0 && x * z == y * z
    ensures x == y
  {
    assert x * z / z == x && y * z / z == y;
  }

  lemma OneMinus(free: real, amount: real, used: real, total: real)
    requires total > 0.0 && free == total - used
    ensures 1.0 - (free - amount) / total == (used + amount) / total
  {
    var x, y := (free - amount) / total, (used + amount) / total;
    assert x * total == free - amount && y * total == used + amount;
    Distributes(x, y, total);
    Cancels(x + y, 1.0, total);
  }

  /** Three numbers deviate from their mean by twice what the farther of the extremes does. */
  lemma Deviations(a: real, b: real, c: real)
    ensures var (l, mean) := (Load(a, b, c), (a + b + c) / 3.0);
      mean * 2.0 + (Abs(a - mean) + Abs(b - mean) + Abs(c - mean)) == 2.0 * l.Burden()
  {
  }

  lemma ScoreIsBurden(node: Node, amount: Res)
    requires node.total.Positive()
    ensures BalanceScore(node, amount) == 2.0 * After(node, amount).Burden()
  {
    var free, total, l := node.Free(), node.total, After(node, amount);
    var mem, disk := node.overheadMem + node.reserved.mem, node.overheadDisk + node.reserved.disk;
    OneMinus(free.mem as real, amount.mem as real, mem as real, total.mem as real);
    OneMinus(free.disk as real, amount.disk as real, disk as real, total.disk as real);
    OneMinus(free.cpu, amount.cpu, node.reserved.cpu, total.cpu);
    Deviations(l.mem, l.disk, l.cpu);
  }

  // ---------- The choice ----------

  /** `n` is less burdened than `m`, or as much and the earlier row. */
  predicate Beats(nodes: seq<Node>, n: nat, m: nat, amount: Res)
    requires n < |nodes| && m < |nodes| && nodes[n].total.Positive() && nodes[m].total.Positive()
  {
    var (a, b) := (After(nodes[n], amount).Burden(), After(nodes[m], amount).Burden());
    a < b || (a == b && n < m)
  }

  lemma PoolHasTotals(nodes: seq<Node>, n: nat, req: Request)
    requires Plausible(nodes) && req.amount.Positive() && InPool(nodes, n, req)
    ensures n < |nodes| && nodes[n].total.Positive()
    ensures BalanceScore(nodes[n], req.amount) == 2.0 * After(nodes[n], req.amount).Burden()
  {
    CandidateHasTotals(nodes, n, req);
    ScoreIsBurden(nodes[n], req.amount);
  }

  /** Nobody in the pool is less burdened, and nobody before it in the table as little. */
  ghost predicate LeastBurdened(nodes: seq<Node>, n: nat, req: Request) {
    && InPool(nodes, n, req) && nodes[n].total.Positive()
    && forall m: nat :: InPool(nodes, m, req) ==>
         nodes[m].total.Positive() && (m != n ==> Beats(nodes, n, m, req.amount))
  }

  /** The least burdened candidate is taken, of those in the preferred location if there are any. */
  lemma BestIsLeastBurdened(nodes: seq<Node>, n: nat, req: Request)
    requires Plausible(nodes) && req.amount.Positive()
    ensures IsBest(nodes, n, req) <==> LeastBurdened(nodes, n, req)
  {
    forall m: nat | InPool(nodes, m, req)
      ensures m < |nodes| && nodes[m].total.Positive()
      ensures BalanceScore(nodes[m], req.amount) == 2.0 * After(nodes[m], req.amount).Burden()
    {
      PoolHasTotals(nodes, m, req);
    }
  }

  /** A node that is fuller than another by as much in every dimension is not taken. */
  lemma LighterIsPreferred(nodes: seq<Node>, n: nat, m: nat, req: Request, d: real)
    requires Plausible(nodes) && req.amount.Positive() && InPool(nodes, n, req) && InPool(nodes, m, req) && d > 0.0
    requires nodes[n].total.Positive() && nodes[m].total.Positive()
    requires After(nodes[n], req.amount) == After(nodes[m], req.amount).Plus(d)
    ensures !IsBest(nodes, n, req)
  {
    HeavierIsBurdened(After(nodes[m], req.amount), d);
    BestIsLeastBurdened(nodes, n, req);
  }

  lemma HeavierIsBurdened(l: Load, d: real)
    requires d > 0.0
    ensures l.Plus(d).Burden() == l.Burden() + d
  {
  }

  /** A node that is unevenly full is not taken if another is as full on the whole, and evenly. */
  lemma EvenIsPreferred(nodes: seq<Node>, n: nat, m: nat, req: Request)
    requires Plausible(nodes) && req.amount.Positive() && InPool(nodes, n, req) && InPool(nodes, m, req)
    requires nodes[n].total.Positive() && nodes[m].total.Positive()
    requires After(nodes[n], req.amount).Sum() == After(nodes[m], req.amount).Sum()
    requires After(nodes[m], req.amount).Even() && !After(nodes[n], req.amount).Even()
    ensures !IsBest(nodes, n, req)
  {
    UnevenIsBurdened(After(nodes[n], req.amount), After(nodes[m], req.amount));
    BestIsLeastBurdened(nodes, n, req);
  }

  lemma UnevenIsBurdened(l: Load, e: Load)
    requires l.Sum() == e.Sum() && e.Even() && !l.Even()
    ensures e.Burden() < l.Burden()
  {
  }

  // ---------- Who may take it, and where ----------

  /** What is looked for: room for the amount, the template, none of the nodes to avoid, a fresh heartbeat. */
  datatype Want = Want(amount: Res, template: string, avoid: set<nat>, stale: int)

  predicate CanHost(nodes: seq<Node>, m: nat, w: Want) {
    && m < |nodes| && m !in w.avoid && nodes[m].online && nodes[m].enabled
    && nodes[m].heartbeat.Some? && nodes[m].heartbeat.value > w.stale && w.template in nodes[m].templates
    && nodes[m].overheadMem + nodes[m].reserved.mem + w.amount.mem <= nodes[m].total.mem
    && nodes[m].overheadDisk + nodes[m].reserved.disk + w.amount.disk <= nodes[m].total.disk
    && nodes[m].reserved.cpu + w.amount.cpu <= nodes[m].total.cpu
  }

  function WantOf(req: Request): Want {
    Want(req.amount, req.template, req.exclude, req.staleBefore)
  }

  lemma HostsAreCandidates(nodes: seq<Node>, m: nat, req: Request)
    ensures CanHost(nodes, m, WantOf(req)) <==> Candidate(nodes, m, req)
  {
  }

  /** `n` can take it, and is in the location if any node there can. */
  ghost predicate Suits(nodes: seq<Node>, n: nat, w: Want, location: string) {
    && CanHost(nodes, n, w)
    && ((exists m: nat :: CanHost(nodes, m, w) && nodes[m].location == location) ==> nodes[n].location == location)
  }

  /** The choice is a node that can take it, and one in the preferred location if there is one. */
  lemma BestSuits(nodes: seq<Node>, n: nat, req: Request)
    requires Plausible(nodes) && req.amount.Positive() && IsBest(nodes, n, req)
    ensures CanHost(nodes, n, WantOf(req))
    ensures req.preferred.Some? && req.preferred.value != "" ==> Suits(nodes, n, WantOf(req), req.preferred.value)
  {
    HostsAreCandidates(nodes, n, req);
    if m: nat :| CanHost(nodes, m, WantOf(req)) && IsPreferred(nodes[m], req) {
      HostsAreCandidates(nodes, m, req);
    }
  }

  /** What is wanted for a server that is moved: its own amount and template, and any node but its own. */
  function MoveWant(row: Server, stale: int): Want {
    Want(row.amount, row.template, {row.node}, stale)
  }

  /** The choice for a migration can take the server, and is in its location if possible, unless a target was named. */
  lemma MoveSuits(db: Db, sid: nat, target: Option<nat>, n: nat, stale: int)
    requires db.Live(sid) && db.servers[sid].value.node < |db.nodes|
    requires Plausible(db.nodes) && db.servers[sid].value.amount.Positive()
    requires IsBest(db.nodes, n, MoveRequest(db, sid, target, stale))
    ensures var row := db.servers[sid].value;
      && CanHost(db.nodes, n, MoveWant(row, stale))
      && (target.None? && db.nodes[row.node].location != "" ==>
            Suits(db.nodes, n, MoveWant(row, stale), db.nodes[row.node].location))
  {
    BestSuits(db.nodes, n, MoveRequest(db, sid, target, stale));
  }

  /** A named target is the choice exactly when it is the least burdened node that can take the server, anywhere. */
  lemma TargetIsBestExactly(db: Db, sid: nat, to: nat, stale: int)
    requires db.Live(sid) && db.servers[sid].value.node < |db.nodes|
    requires Plausible(db.nodes) && db.servers[sid].value.amount.Positive()
    ensures var (nodes, row) := (db.nodes, db.servers[sid].value);
      && (forall m: nat :: CanHost(nodes, m, MoveWant(row, stale)) ==> nodes[m].total.Positive())
      && (IsBest(nodes, to, MoveRequest(db, sid, Some(to), stale)) <==>
            && CanHost(nodes, to, MoveWant(row, stale))
            && forall m: nat :: CanHost(nodes, m, MoveWant(row, stale)) && m != to ==>
                 Beats(nodes, to, m, row.amount))
  {
    var req := MoveRequest(db, sid, Some(to), stale);
    var w := MoveWant(db.servers[sid].value, stale);
    forall m: nat ensures CanHost(db.nodes, m, w) <==> InPool(db.nodes, m, req) {
      HostsAreCandidates(db.nodes, m, req);
    }
    forall m: nat | CanHost(db.nodes, m, w) ensures db.nodes[m].total.Positive() {
      CandidateHasTotals(db.nodes, m, req);
    }
    BestIsLeastBurdened(db.nodes, to, req);
  }
}
