/** Concrete tables on which the ledger's operations do less than they mean to. */
module Witnesses {
  import opened Wrappers
  import opened Resources
  import opened Scheduler
  import opened Ledger
  import opened Rest
  import opened Panel

  // ---------- A release of what was never reserved ----------

  const UNIT := Res(1, 1, 1.0)

  /** A node with room for two, one of which is taken. */
  const HALF := Node("", Res(2, 2, 2.0), 0, 0, UNIT, true, true, Some(1), {""})

  /** Two servers on two nodes; the second node takes new ones only if it is `open`. */
  function TwoNodes(open: bool): Db {
    Db([HALF, HALF.(enabled := open)],
       [Some(Server(0, UNIT, "", Running)), Some(Server(1, UNIT, "", Running))],
       [Port(0, 1, Some(0), true), Port(1, 1, Some(1), true)], [], [])
  }

  lemma OneServerEach(n: nat)
    requires n < 2
    ensures Charge(0, UNIT).On(n).Plus(Charge(1, UNIT).On(n)) == UNIT
  {
    PlusZero(UNIT);
  }

  lemma OneRow(a: Option<Server>, n: nat)
    ensures Ledger.Placed([a], n) == ChargeOf(a).On(n)
  {
    AppendPlaced([], a, n);
    assert [] + [a] == [a];
    PlusZero(ChargeOf(a).On(n));
    assert Ledger.Placed([], n) == ZERO;
  }

  lemma TwoRows(a: Option<Server>, b: Option<Server>, n: nat)
    ensures Ledger.Placed([a] + [b], n) == ChargeOf(a).On(n).Plus(ChargeOf(b).On(n))
  {
    OneRow(a, n);
    AppendPlaced([a], b, n);
  }

  lemma TwoRowsSum(servers: seq<Option<Server>>, a: Option<Server>, b: Option<Server>, n: nat, sum: Res)
    requires servers == [a] + [b] && ChargeOf(a).On(n).Plus(ChargeOf(b).On(n)) == sum
    ensures Ledger.Placed(servers, n).Plus(Total([], n)) == sum
  {
    TwoRows(a, b, n);
    PlusZero(sum);
  }

  lemma TwoNodesPlaced(open: bool, n: nat)
    requires n < 2
    ensures Ledger.Placed(TwoNodes(open).servers, n).Plus(Total([], n)) == UNIT
  {
    var rows := TwoNodes(open).servers;
    OneServerEach(n);
    assert rows == [rows[0]] + [rows[1]];
    TwoRowsSum(rows, rows[0], rows[1], n, UNIT);
  }

  lemma TwoNodesHaveBooks(open: bool)
    ensures Books(TwoNodes(open), [])
  {
    TwoNodesPlaced(open, 0);
    TwoNodesPlaced(open, 1);
    assert HALF.reserved.Leq(HALF.Capacity());
  }

  lemma TwoNodesAtRest(open: bool)
    ensures AtRest(TwoNodes(open))
  {
    TwoNodesHaveBooks(open);
    var db := TwoNodes(open);
    assert db.ports[0].owner == Some(0) && db.ports[1].owner == Some(1);
    assert Owns(db.ports, 0, 0) && Owns(db.ports, 1, 1);
  }

  /** The only candidate is the choice. */
  lemma OnlyOneIsBest(nodes: seq<Node>, n: nat, req: Request)
    requires Plausible(nodes) && req.amount.Positive() && Candidate(nodes, n, req)
    requires forall m: nat :: m != n ==> !Candidate(nodes, m, req)
    ensures IsBest(nodes, n, req)
  {
    assert forall m: nat :: InPool(nodes, m, req) ==> m == n;
  }

  lemma NoCandidateElsewhere(nodes: seq<Node>, n: nat, req: Request)
    requires forall m: nat :: m < |nodes| && m != n ==> m in req.exclude
    ensures forall m: nat :: m != n ==> !Candidate(nodes, m, req)
  {
    forall m: nat | m != n ensures !Candidate(nodes, m, req) {
      if m < |nodes| {
        assert !Eligible(nodes[m], m, req);
      }
    }
  }

  /** A candidate is the choice when all others are excluded. */
  lemma LastIsBest(nodes: seq<Node>, n: nat, req: Request)
    requires Plausible(nodes) && req.amount.Positive() && Candidate(nodes, n, req)
    requires forall m: nat :: m < |nodes| && m != n ==> m in req.exclude
    ensures IsBest(nodes, n, req)
  {
    NoCandidateElsewhere(nodes, n, req);
    OnlyOneIsBest(nodes, n, req);
  }

  lemma SecondOfTwo(nodes: seq<Node>, req: Request)
    requires |nodes| == 2 && Plausible(nodes) && req.amount.Positive() && 0 in req.exclude
    requires Eligible(nodes[1], 1, req) && nodes[1].Fits(req.amount)
    ensures IsBest(nodes, 1, req)
  {
    LastIsBest(nodes, 1, req);
  }

  lemma HalfFits()
    ensures HALF.Fits(UNIT) && HALF.reserved.NonNeg() && UNIT.Positive()
  {
  }

  lemma SecondIsEligible(stale: int)
    requires stale < 1
    ensures var (db, req) := (TwoNodes(true), MoveRequest(TwoNodes(true), 0, Some(1), stale));
      && db.nodes == [HALF, HALF] && req.amount == UNIT && 0 in req.exclude && Eligible(db.nodes[1], 1, req)
  {
  }

  lemma SecondIsBest(stale: int)
    requires stale < 1
    ensures var db := TwoNodes(true); Plausible(db.nodes) && IsBest(db.nodes, 1, MoveRequest(db, 0, Some(1), stale))
  {
    var db := TwoNodes(true);
    HalfFits();
    SecondIsEligible(stale);
    SecondOfTwo(db.nodes, MoveRequest(db, 0, Some(1), stale));
  }

  /**
   Asked to move server 0 to the second node, the catch block releases there what it never reserved:
   when the scheduler would not choose that node, and also when it would but the reservation fails.
   */
  lemma PhantomWitness(open: bool, stale: int)
    requires stale < 1
    ensures var db := TwoNodes(open);
      && AtRest(db) && (open <==> IsBest(db.nodes, 1, MoveRequest(db, 0, Some(1), stale)))
      && Overreleases(db, 0, Some(1), stale, !open) && !AtRest(MoveUndone(db, 0, Some(1), None))
  {
    var db := TwoNodes(open);
    TwoNodesAtRest(open);
    SecondIsBest(stale);
    assert OnNode(db, 1, 1);
    MoveUndoneKeepsRest(db, 0, Some(1), None);
  }

  // ---------- A choice without a port ----------

  /** The only candidate in the preferred place is the choice, with a port or without. */
  lemma PreferredIsStuck(nodes: seq<Node>, ports: seq<Port>, n: nat, req: Request)
    requires Plausible(nodes) && req.amount.Positive() && Candidate(nodes, n, req) && IsPreferred(nodes[n], req)
    requires forall m: nat :: m < |nodes| && m != n ==> !IsPreferred(nodes[m], req)
    requires forall q: nat :: !FreePort(ports, q, n)
    ensures BestHasNoPort(nodes, ports, req)
  {
    assert forall m: nat :: InPool(nodes, m, req) ==> m == n;
    assert IsBest(nodes, n, req);
  }

  function HalfAt(location: string): Node {
    HALF.(location := location)
  }

  function Wish(location: string): Request {
    Request(UNIT, "", Some(location), {}, 0)
  }

  lemma BothAreCandidates(here: string, there: string)
    ensures var nodes := [HalfAt(here), HalfAt(there)];
      Plausible(nodes) && Candidate(nodes, 0, Wish(here)) && Candidate(nodes, 1, Wish(here))
  {
  }

  lemma OneIsPreferred(here: string, there: string)
    requires here != "" && here != there
    ensures var nodes := [HalfAt(here), HalfAt(there)];
      && IsPreferred(nodes[0], Wish(here))
      && forall m: nat :: m < |nodes| && m != 0 ==> !IsPreferred(nodes[m], Wish(here))
  {
  }

  lemma PortIsElsewhere()
    ensures var ports := [Port(1, 1, None, false)]; FreePort(ports, 0, 1) && forall q: nat :: !FreePort(ports, q, 0)
  {
  }

  /** Two half-empty nodes; the buyer prefers the place of the first, and only the second has a free port. */
  lemma NoPortWitness(here: string, there: string)
    requires here != "" && here != there
    ensures var nodes, ports := [HalfAt(here), HalfAt(there)], [Port(1, 1, None, false)];
      BestHasNoPort(nodes, ports, Wish(here)) && Candidate(nodes, 1, Wish(here)) && FreePort(ports, 0, 1)
  {
    BothAreCandidates(here, there);
    OneIsPreferred(here, there);
    PortIsElsewhere();
    PreferredIsStuck([HalfAt(here), HalfAt(there)], [Port(1, 1, None, false)], 0, Wish(here));
  }
}
