/** Why the candidate SELECT locks its rows. */
module LockRace {
  // Two nodes have room for one server each, and two buyers take no candidate locks; both look before
  // either writes, and both pick the first node.

  import opened Wrappers
  import opened Resources
  import opened Scheduler
  import opened RowLocks
  import opened LockTheorems

  function Small(used: Res): Node {
    Node("", Res(1, 1, 1.0), 0, 0, used, true, true, Some(1), {""})
  }

  const UNIT := Res(1, 1, 1.0)
  const EMPTY := Small(ZERO)
  const BOTH: map<nat, Node> := map[0 := EMPTY, 1 := EMPTY]
  const DEMAND := Request(UNIT, "", None, {}, 0)

  function Buyer(t: nat, phase: Phase, todo: seq<Lock>, held: set<Lock>, seen: map<nat, Node>): Tx {
    Tx(Reserve(DEMAND, None, t), phase, todo, held, seen, None)
  }

  /** Where buyer 0 is after `i` of its own acts, and buyer 1. */
  function Progressed(t: nat, i: nat): Tx {
    var n, o := Lock(NodeRow(0), NoKeyUpdate), Lock(OrderRow(t), NoKeyUpdate);
    if i == 0 then Buyer(t, Fresh, [], {}, map[])
    else if i == 1 then Buyer(t, Scanning, [], {}, BOTH)
    else if i == 2 then Buyer(t, Updating(0), [n], {}, BOTH)
    else if i == 3 then Buyer(t, Updating(0), [], {n}, BOTH)
    else if t == 1 then Buyer(t, Refused(true), [], {}, BOTH)
    else if i == 4 then Buyer(t, Applied(0), [o], {n}, BOTH)
    else if i == 5 then Buyer(t, Applied(0), [], {n, o}, BOTH)
    else Buyer(t, Granted(0), [], {}, BOTH)
  }

  function Race(i: nat, j: nat): State {
    State(false, [if i < 6 then EMPTY else Small(UNIT), EMPTY], [], [Progressed(0, i), Progressed(1, j)])
  }

  /** A buyer that begins on two empty nodes sees both. */
  lemma SeesBoth(s: State, t: nat)
    requires !s.locking && s.nodes == [EMPTY, EMPTY]
    ensures BeginTx(s, Progressed(t, 0)) == Progressed(t, 1)
  {
    var nodes := s.nodes;
    assert Candidate(nodes, 0, DEMAND);
    assert Candidate(nodes, 1, DEMAND);
    var seen := map n: nat | 0 <= n < |nodes| && Candidate(nodes, n, DEMAND) :: nodes[n];
    assert seen.Keys == BOTH.Keys;
    assert seen == BOTH;
    assert BeginTx(s, Progressed(t, 0)).seen == seen;
  }

  lemma Begins(t: nat) returns (a: Act)
    requires t < 2
    ensures Enabled(Race(t, 0), a) && Step(Race(t, 0), a) == if t == 0 then Race(1, 0) else Race(1, 1)
  {
    a := Begin(t);
    SeesBoth(Race(t, 0), t);
    assert Step(Race(t, 0), a).txs == if t == 0 then Race(1, 0).txs else Race(1, 1).txs;
  }

  lemma FirstLooks(i: nat, j: nat) returns (a: Act)
    requires 0 < i < 3 && j <= 2
    ensures Enabled(Race(i, j), a) && Step(Race(i, j), a) == Race(i + 1, j)
  {
    a := if i == 1 then Choose(0, 0) else Acquire(0);
    if i == 2 {
      assert Progressed(0, 2).todo[1..] == [];
    }
    var next := Step(Race(i, j), a).txs;
    assert next[0] == Progressed(0, i + 1) && next[1] == Progressed(1, j);
    assert next == Race(i + 1, j).txs;
  }

  lemma FirstWrites(i: nat, j: nat) returns (a: Act)
    requires 3 <= i < 6 && j <= 2
    ensures Enabled(Race(i, j), a) && Step(Race(i, j), a) == Race(i + 1, j)
  {
    a := if i == 3 then Update(0) else if i == 4 then Acquire(0) else Commit(0);
    if i == 4 {
      assert Progressed(0, 4).todo[1..] == [];
      assert AcquireTx(Race(4, j), Progressed(0, 4)).held == Progressed(0, 5).held;
    }
    var next := Step(Race(i, j), a).txs;
    assert next[0] == Progressed(0, i + 1) && next[1] == Progressed(1, j);
    assert next == Race(i + 1, j).txs;
    assert Step(Race(i, j), a).nodes == Race(i + 1, j).nodes;
  }

  lemma SecondChooses() returns (a: Act)
    ensures Enabled(Race(2, 1), a) && Step(Race(2, 1), a) == Race(2, 2)
  {
    a := Choose(1, 0);
    assert Step(Race(2, 1), a).txs == Race(2, 2).txs;
  }

  lemma SecondWrites(j: nat) returns (a: Act)
    requires 2 <= j < 4
    ensures Enabled(Race(6, j), a) && Step(Race(6, j), a) == Race(6, j + 1)
  {
    a := if j == 2 then Acquire(1) else Update(1);
    if j == 2 {
      assert Progressed(1, 2).todo[1..] == [];
    }
    var next := Step(Race(6, j), a).txs;
    assert next[0] == Progressed(0, 6) && next[1] == Progressed(1, j + 1);
    assert next == Race(6, j + 1).txs;
  }

  /** The race up to `i` acts of the first buyer and `j` of the second. */
  lemma {:induction false} Racing(i: nat, j: nat) returns (acts: seq<Act>)
    requires (i <= 2 && j <= i <= j + 1) || (2 < i <= 6 && j == 2) || (i == 6 && 2 <= j <= 4)
    ensures Reaches(Race(0, 0), acts, Race(i, j))
    decreases i + j
  {
    if i == 0 {
      acts := [];
    } else if (i <= 2 && j < i) || (2 < i && j == 2) {
      acts := Racing(i - 1, j);
      var a;
      if i == 1 { a := Begins(0); } else if i <= 3 { a := FirstLooks(i - 1, j); } else { a := FirstWrites(i - 1, j); }
      ReachesThen(Race(0, 0), acts, Race(i - 1, j), a);
      acts := acts + [a];
    } else {
      acts := Racing(i, j - 1);
      var a;
      if j == 1 { a := Begins(1); } else if j == 2 { a := SecondChooses(); } else { a := SecondWrites(j - 1); }
      ReachesThen(Race(0, 0), acts, Race(i, j - 1), a);
      acts := acts + [a];
    }
  }

  /** Without the candidate locks a buyer can be refused although a node has room. */
  lemma LocksAreNeeded() returns (s: State, acts: seq<Act>, u: State)
    ensures Opening(s) && !s.locking && Reaches(s, acts, u) && |u.txs| == 2
    ensures u.txs[1].phase == Refused(true) && Candidate(u.nodes, 1, DEMAND) && u.txs[1].op == Reserve(DEMAND, None, 1)
  {
    s, u := Race(0, 0), Race(6, 4);
    acts := Racing(6, 4);
  }
}
