/** Node rows and the placement rule: who is a candidate, and which candidate is taken. */
module Scheduler {
  import opened Wrappers
  import opened Resources

  /** A row of "Node". Rows are numbered in id order, so ORDER BY id is index order. */
  datatype Node = Node(
    location: string,
    total: Res,
    overheadMem: int,
    overheadDisk: int,
    reserved: Res,
    enabled: bool,
    online: bool,
    heartbeat: Option<int>,
    templates: set<string>)
  {
    function Capacity(): Res {
      Res(total.mem - overheadMem, total.disk - overheadDisk, total.cpu)
    }

    function Free(): Res {
      Capacity().Minus(reserved)
    }

    predicate Fits(amount: Res) {
      amount.Leq(Free())
    }
  }

  datatype Request = Request(
    amount: Res,
    template: string,
    preferred: Option<string>,
    exclude: set<nat>,
    staleBefore: int)

  /** The part of the WHERE clause that reservations cannot change. */
  predicate Eligible(node: Node, n: nat, req: Request) {
    && node.online
    && node.enabled
    && req.template in node.templates
    && node.heartbeat.Some?
    && node.heartbeat.value > req.staleBefore
    && n !in req.exclude
  }

  predicate Candidate(nodes: seq<Node>, n: nat, req: Request) {
    n < |nodes| && Eligible(nodes[n], n, req) && nodes[n].Fits(req.amount)
  }

  /** Overheads are never negative and counters never are: what the node form and the schema enforce. */
  ghost predicate Plausible(nodes: seq<Node>) {
    forall n :: 0 <= n < |nodes| ==>
      nodes[n].overheadMem >= 0 && nodes[n].overheadDisk >= 0 && nodes[n].reserved.NonNeg()
  }

  function Abs(x: real): real {
    if x < 0.0 then -x else x
  }

  /** How loaded, and how unevenly loaded, the node would be after placing; lower is better. */
  function BalanceScore(node: Node, amount: Res): real
    requires node.total.Positive()
  {
    var free := node.Free();
    var mem := 1.0 - (free.mem - amount.mem) as real / node.total.mem as real;
    var disk := 1.0 - (free.disk - amount.disk) as real / node.total.disk as real;
    var cpu := 1.0 - (free.cpu - amount.cpu) / node.total.cpu;
    var mean := (mem + disk + cpu) / 3.0;
    mean * 2.0 + (Abs(mem - mean) + Abs(disk - mean) + Abs(cpu - mean))
  }

  /** Dividing by a candidate's totals is safe: it has room for a positive amount. */
  lemma CandidateHasTotals(nodes: seq<Node>, n: nat, req: Request)
    requires Plausible(nodes) && req.amount.Positive() && Candidate(nodes, n, req)
    ensures nodes[n].total.Positive()
  {
  }

  /** An empty preferred location is no preference. */
  predicate IsPreferred(node: Node, req: Request) {
    req.preferred.Some? && req.preferred.value != "" && node.location == req.preferred.value
  }

  /** Candidates in the preferred location if there are any, otherwise all candidates. */
  ghost predicate InPool(nodes: seq<Node>, n: nat, req: Request) {
    && Candidate(nodes, n, req)
    && (IsPreferred(nodes[n], req)
        || forall m: nat :: Candidate(nodes, m, req) ==> !IsPreferred(nodes[m], req))
  }

  /** `n` scores strictly better than earlier pool members and at least as well as later ones. */
  ghost predicate IsBest(nodes: seq<Node>, n: nat, req: Request)
    requires Plausible(nodes) && req.amount.Positive()
  {
    && InPool(nodes, n, req)
    && forall m: nat :: InPool(nodes, m, req) && m != n ==>
         var (s, t) := (BalanceScore(nodes[n], req.amount), BalanceScore(nodes[m], req.amount));
         s < t || (s == t && n < m)
  }

  /** The choice is a function of the rows and the request. */
  lemma BestIsUnique(nodes: seq<Node>, n: nat, m: nat, req: Request)
    requires Plausible(nodes) && req.amount.Positive()
    requires IsBest(nodes, n, req) && IsBest(nodes, m, req)
    ensures n == m
  {
  }
}
