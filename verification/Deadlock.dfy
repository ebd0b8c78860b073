/** Who waits for whom among the transactions of the lock machine. */
module Deadlock {
  // Every transaction asks for its rows in ascending order, except a switch to a node with a higher id
  // than the one it leaves: it shares the key of the target before it locks the source, and a candidate
  // SELECT takes the two the other way round.

  import opened Wrappers
  import opened Resources
  import opened Scheduler
  import opened RowLocks
  import opened LockTheorems

  // ---------- The order of locks ----------

  ghost predicate Ascending(locks: seq<Lock>) {
    forall i, j :: 0 <= i < j < |locks| ==> locks[i].row.Before(locks[j].row)
  }

  /** Every row a transaction holds comes before the row it waits for. */
  ghost predicate Orderly(tx: Tx) {
    && Ascending(tx.todo)
    && (tx.todo != [] ==> forall l :: l in tx.held ==> l.row.Before(tx.todo[0].row))
  }

  ghost predicate Ordered(s: State) {
    forall t :: 0 <= t < |s.txs| ==> Orderly(s.txs[t])
  }

  /** A switch goes to a node with a lower id than the one it leaves. */
  predicate Descends(op: Op) {
    op.Switch? ==> op.to < op.from
  }

  ghost predicate AllDescend(s: State) {
    forall t :: 0 <= t < |s.txs| ==> Descends(s.txs[t].op)
  }

  lemma {:induction false} ScanAscends(nodes: seq<Node>, req: Request, k: nat)
    requires k <= |nodes|
    ensures Ascending(Scan(nodes, req, k))
  {
    if k != 0 {
      ScanAscends(nodes, req, k - 1);
    }
  }

  lemma {:induction false} PortLocksAscend(ports: seq<Slot>, sid: nat, on: Option<nat>, k: nat)
    requires k <= |ports|
    ensures Ascending(PortLocks(ports, sid, on, k))
  {
    if k != 0 {
      var rest := PortLocks(ports, sid, on, k - 1);
      PortLocksAscend(ports, sid, on, k - 1);
      forall i | 0 <= i < |rest| ensures rest[i].row.Before(PortRow(k - 1)) {
        assert rest[i] in rest;
      }
    }
  }

  lemma AppendAscends(ports: seq<Lock>, rest: seq<Lock>)
    requires Ascending(ports)
    requires forall i :: 0 <= i < |ports| ==> ports[i].row.PortRow?
    requires forall i :: 0 <= i < |rest| ==> !rest[i].row.PortRow?
    ensures Ascending(ports + rest) <==> Ascending(rest)
  {
    var all := ports + rest;
    if Ascending(all) {
      forall i, j | 0 <= i < j < |rest| ensures rest[i].row.Before(rest[j].row) {
        assert all[|ports| + i] == rest[i] && all[|ports| + j] == rest[j];
      }
    }
  }

  /** Of the three releases, rollback and deletion always ask in ascending order; a switch exactly when it descends. */
  lemma ReleaseAscends(ports: seq<Slot>, op: Op)
    requires op.Releases() && (op.Switch? ==> op.from != op.to)
    ensures Ascending(ReleaseLocks(ports, op)) <==> Descends(op)
  {
    var ps := PortLocks(ports, op.sid, if op.Switch? then Some(op.from) else None, |ports|);
    PortLocksAscend(ports, op.sid, if op.Switch? then Some(op.from) else None, |ports|);
    forall i | 0 <= i < |ps| ensures ps[i].row.PortRow? {
      assert ps[i] in ps;
    }
    var rest := AfterPorts(op);
    AppendAscends(ps, rest);
    if op.Switch? {
      assert rest[1].row == NodeRow(op.to) && rest[2].row == NodeRow(op.from);
    }
  }

  lemma StepKeepsOrder(s: State, a: Act)
    requires Inv(s) && Ordered(s) && AllDescend(s) && Enabled(s, a)
    ensures Ordered(Step(s, a)) && AllDescend(Step(s, a))
  {
    assert TxOk(s.locking, s.nodes, s.ports, s.txs[a.t]);
    OwnStepIsOrderly(s, a);
    OneChanges(s, a);
    OneStaysOrdered(s, Step(s, a), a.t);
  }

  lemma OneStaysOrdered(s: State, u: State, t: nat)
    requires Ordered(s) && AllDescend(s) && t < |s.txs| && |u.txs| == |s.txs| && u.txs == s.txs[t := u.txs[t]]
    requires Orderly(u.txs[t]) && u.txs[t].op == s.txs[t].op
    ensures Ordered(u) && AllDescend(u)
  {
  }

  lemma OwnStepIsOrderly(s: State, a: Act)
    requires Enabled(s, a) && TxOk(s.locking, s.nodes, s.ports, s.txs[a.t])
    requires Orderly(s.txs[a.t]) && Descends(s.txs[a.t].op)
    ensures Orderly(Step(s, a).txs[a.t])
  {
    var tx := s.txs[a.t];
    if a.Begin? {
      BeginStep(s, a.t);
      BeginIsOrderly(s, tx);
    } else if a.Acquire? {
      AcquireStep(s, a.t);
      assert tx.todo == [tx.todo[0]] + tx.todo[1..];
    } else {
      ActIsOrderly(s, a);
    }
  }

  lemma BeginStep(s: State, t: nat)
    requires t < |s.txs| && s.txs[t].phase.Fresh?
    ensures Enabled(s, Begin(t)) && Step(s, Begin(t)) == Put(s, t, BeginTx(s, s.txs[t]))
  {
  }

  lemma AcquireStep(s: State, t: nat)
    requires t < |s.txs| && (s.txs[t].phase.Letting? || s.txs[t].phase.Scanning? || Enabled(s, Acquire(t)))
    requires s.txs[t].todo != [] && Available(s, t, s.txs[t].todo[0])
    ensures Enabled(s, Acquire(t)) && Step(s, Acquire(t)) == Put(s, t, AcquireTx(s, s.txs[t]))
  {
  }

  lemma ActIsOrderly(s: State, a: Act)
    requires Enabled(s, a) && !a.Begin? && !a.Acquire? && TxOk(s.locking, s.nodes, s.ports, s.txs[a.t])
    ensures Orderly(Step(s, a).txs[a.t]) && Step(s, a).txs[a.t].op == s.txs[a.t].op
  {
  }

  lemma BeginIsOrderly(s: State, tx: Tx)
    requires TxOk(s.locking, s.nodes, s.ports, tx) && tx.phase.Fresh? && Descends(tx.op)
    ensures Orderly(BeginTx(s, tx))
  {
    match tx.op
    case Reserve(req, _, _) => ScanAscends(s.nodes, req, |s.nodes|);
    case ClaimPort(_, _) =>
    case _ => ReleaseAscends(s.ports, tx.op);
  }

  lemma {:induction false} RunKeepsOrder(s: State, acts: seq<Act>, u: State)
    requires Inv(s) && Ordered(s) && AllDescend(s) && Reaches(s, acts, u)
    ensures Inv(u) && Ordered(u)
    decreases |acts|
  {
    if acts != [] {
      StepKeepsInv(s, acts[0]);
      StepKeepsOrder(s, acts[0]);
      RunKeepsOrder(Step(s, acts[0]), acts[1..], u);
    }
  }

  // ---------- No cycle ----------

  /** `t` waits for a lock that conflicts with one that `v` holds. */
  predicate WaitsFor(s: State, t: nat, v: nat) {
    t < |s.txs| && v < |s.txs| && t != v && s.txs[t].todo != [] && !Compatible(s.txs[v], s.txs[t].todo[0])
  }

  ghost predicate IsCycle(s: State, cycle: seq<nat>) {
    && |cycle| > 1 && cycle[0] == cycle[|cycle| - 1]
    && forall i :: 0 <= i < |cycle| - 1 ==> WaitsFor(s, cycle[i], cycle[i + 1])
  }

  ghost predicate Deadlocked(s: State) {
    exists cycle :: IsCycle(s, cycle)
  }

  lemma WaitAscends(s: State, t: nat, v: nat)
    requires Ordered(s) && WaitsFor(s, t, v) && s.txs[v].todo != []
    ensures s.txs[t].todo[0].row.Before(s.txs[v].todo[0].row)
  {
    assert Orderly(s.txs[v]);
  }

  /** Along a chain of waits the awaited rows strictly ascend. */
  lemma {:induction false} ChainAscends(s: State, chain: seq<nat>, k: nat)
    requires Ordered(s) && 0 < k < |chain|
    requires forall i :: 0 <= i < |chain| - 1 ==> WaitsFor(s, chain[i], chain[i + 1])
    requires chain[|chain| - 1] < |s.txs| && s.txs[chain[|chain| - 1]].todo != []
    ensures chain[0] < |s.txs| && chain[k] < |s.txs| && s.txs[chain[0]].todo != [] && s.txs[chain[k]].todo != []
    ensures s.txs[chain[0]].todo[0].row.Before(s.txs[chain[k]].todo[0].row)
  {
    assert WaitsFor(s, chain[0], chain[0 + 1]);
    assert WaitsFor(s, chain[k - 1], chain[k - 1 + 1]);
    if k < |chain| - 1 { assert WaitsFor(s, chain[k], chain[k + 1]); }
    WaitAscends(s, chain[k - 1], chain[k]);
    if k > 1 {
      ChainAscends(s, chain, k - 1);
    }
  }

  lemma OrderedHasNoCycle(s: State)
    requires Ordered(s)
    ensures !Deadlocked(s)
  {
    forall cycle ensures !IsCycle(s, cycle) {
      if IsCycle(s, cycle) {
        assert WaitsFor(s, cycle[0], cycle[0 + 1]);
        ChainAscends(s, cycle, |cycle| - 1);
      }
    }
  }

  /** While every switch descends, no reachable state has a cycle of transactions each waiting for the next. */
  lemma NoWaitCycle(s: State, acts: seq<Act>, u: State)
    requires Opening(s) && AllDescend(s) && Reaches(s, acts, u)
    ensures !Deadlocked(u)
  {
    RunKeepsOrder(s, acts, u);
    OrderedHasNoCycle(u);
  }

  // ---------- Progress ----------

  predicate Waits(s: State, t: nat) {
    t < |s.txs| && s.txs[t].todo != [] && !Available(s, t, s.txs[t].todo[0])
  }

  /** The transactions that wait for a row beyond `r`. */
  ghost function Beyond(s: State, r: Row): set<nat> {
    set t: nat | t < |s.txs| && s.txs[t].todo != [] && r.Before(s.txs[t].todo[0].row)
  }

  /** Following waits from any unfinished transaction leads to one that does not wait. */
  lemma {:induction false} SomeoneRuns(s: State, t: nat) returns (v: nat)
    requires Inv(s) && Ordered(s) && t < |s.txs| && !s.txs[t].phase.Done()
    ensures v < |s.txs| && !s.txs[v].phase.Done() && !Waits(s, v)
    decreases if s.txs[t].todo == [] then {} else Beyond(s, s.txs[t].todo[0].row), s.txs[t].todo != []
  {
    if !Waits(s, t) {
      v := t;
    } else {
      var l := s.txs[t].todo[0];
      var w :| 0 <= w < |s.txs| && w != t && !Compatible(s.txs[w], l);
      assert TxOk(s.locking, s.nodes, s.ports, s.txs[w]);
      if s.txs[w].todo == [] {
        v := w;
      } else {
        WaitAscends(s, t, w);
        assert w in Beyond(s, l.row) && w !in Beyond(s, s.txs[w].todo[0].row);
        v := SomeoneRuns(s, w);
      }
    }
  }

  /** A claim that finds no port it could take gives up. */
  ghost predicate NoPortLeft(s: State, t: nat) {
    && t < |s.txs|
    && var tx := s.txs[t];
    && tx.port.None? && tx.todo == []
    && ((tx.phase.Applied? && tx.op.Reserve? && tx.op.claims.Some? && forall p: nat :: !Claimable(s, t, p, tx.phase.choice))
        || (tx.phase.Claiming? && tx.op.ClaimPort? && forall p: nat :: !Claimable(s, t, p, tx.op.node)))
  }

  /** An act that the transaction takes of its own accord. */
  ghost predicate Moves(s: State, a: Act) {
    Enabled(s, a) && (a.Abort? ==> NoPortLeft(s, a.t))
  }

  lemma ClaimMoves(s: State, t: nat, n: nat) returns (a: Act)
    requires t < |s.txs| && s.txs[t].port.None? && s.txs[t].todo == []
    requires var tx := s.txs[t];
      || (tx.phase == Applied(n) && tx.op.Reserve? && tx.op.claims.Some?)
      || (tx.phase.Claiming? && tx.op.ClaimPort? && n == tx.op.node)
    ensures Moves(s, a)
  {
    if p: nat :| Claimable(s, t, p, n) {
      a := TakePort(t, p);
    } else {
      a := Abort(t);
    }
  }

  /** A transaction that does not wait can go on. */
  lemma CanMove(s: State, t: nat) returns (a: Act)
    requires Inv(s) && t < |s.txs| && !s.txs[t].phase.Done() && !Waits(s, t)
    ensures Moves(s, a)
  {
    var tx := s.txs[t];
    assert TxOk(s.locking, s.nodes, s.ports, tx);
    if tx.phase.Fresh? {
      a := Begin(t);
    } else if tx.todo != [] {
      a := Acquire(t);
    } else {
      match tx.phase
      case Scanning =>
        if tx.seen == map[] {
          a := Refuse(t);
        } else {
          var n :| n in tx.seen;
          a := Choose(t, n);
        }
      case Updating(_) => a := Update(t);
      case Applied(n) =>
        if tx.op.claims.Some? && tx.port.None? { a := ClaimMoves(s, t, n); } else { a := Commit(t); }
      case Claiming =>
        if tx.port.None? { a := ClaimMoves(s, t, tx.op.node); } else { a := Commit(t); }
      case Letting => a := Commit(t);
    }
  }

  /** While every switch descends and a transaction is unfinished, some transaction can go on. */
  lemma Progress(s: State, acts: seq<Act>, u: State, t: nat) returns (a: Act)
    requires Opening(s) && AllDescend(s) && Reaches(s, acts, u) && t < |u.txs| && !u.txs[t].phase.Done()
    ensures Moves(u, a)
  {
    RunKeepsOrder(s, acts, u);
    var v := SomeoneRuns(u, t);
    a := CanMove(u, v);
  }

  // ---------- The deadlock ----------

  const UNIT := Res(1, 1, 1.0)

  /** Half full. */
  const HALF := Node("", Res(2, 2, 2.0), 0, 0, UNIT, true, true, Some(1), {""})

  const DEMAND := Request(UNIT, "", None, {}, 0)

  /** Only `from` and `to` are enabled. */
  function Pick(from: nat, to: nat): (nodes: seq<Node>)
    ensures |nodes| == to + 1
  {
    seq(to + 1, n => HALF.(enabled := n == from || n == to))
  }

  function SetOf(locks: seq<Lock>): set<Lock> {
    set l | l in locks
  }

  function Path(from: nat, to: nat): seq<Lock> {
    [Lock(PortRow(0), NoKeyUpdate), Lock(ServerRow(0), NoKeyUpdate),
     Lock(NodeRow(to), KeyShare), Lock(NodeRow(from), NoKeyUpdate)]
  }

  function Pair(from: nat, to: nat): seq<Lock> {
    [Lock(NodeRow(from), ForUpdate), Lock(NodeRow(to), ForUpdate)]
  }

  /** Server 0 switches to `to`: not begun, begun, and with one, two and three of its locks. */
  function Mover(from: nat, to: nat, i: nat): Tx
    requires i <= 4
  {
    Tx(Switch(0, from, to, UNIT), if i == 0 then Fresh else Letting,
       if i == 0 then [] else Path(from, to)[i - 1..],
       if i == 0 then {} else SetOf(Path(from, to)[..i - 1]), map[], None)
  }

  /** A purchase: not begun, begun, and with one of its two candidates locked. */
  function Buyer(from: nat, to: nat, j: nat): Tx
    requires j <= 2
  {
    Tx(Reserve(DEMAND, Some(1), 0), if j == 0 then Fresh else Scanning,
       if j == 0 then [] else if j == 1 then Pair(from, to) else [Lock(NodeRow(to), ForUpdate)],
       if j < 2 then {} else {Lock(NodeRow(from), ForUpdate)}, if j < 2 then map[] else map[from := HALF], None)
  }

  function Crossing(from: nat, to: nat, i: nat, j: nat): State
    requires i <= 4 && j <= 2
  {
    State(true, Pick(from, to), [Slot(from, Some(0))], [Mover(from, to, i), Buyer(from, to, j)])
  }

  lemma Picked(from: nat, to: nat, n: nat)
    requires from < to
    ensures Candidate(Pick(from, to), n, DEMAND) <==> n == from || n == to
  {
  }

  ghost predicate OnlyCandidates(nodes: seq<Node>, req: Request, from: nat, to: nat) {
    forall n: nat :: n < |nodes| ==> (Candidate(nodes, n, req) <==> n == from || n == to)
  }

  lemma {:induction false} TwoCandidates(nodes: seq<Node>, req: Request, from: nat, to: nat, k: nat)
    requires from < to && k <= |nodes| && OnlyCandidates(nodes, req, from, to)
    ensures Scan(nodes, req, k) ==
      if k <= from then [] else if k <= to then [Lock(NodeRow(from), ForUpdate)] else Pair(from, to)
  {
    if k != 0 {
      TwoCandidates(nodes, req, from, to, k - 1);
      var n: nat := k - 1;
      assert Candidate(nodes, n, req) <==> n == from || n == to;
    }
  }

  lemma MoverBegins(from: nat, to: nat)
    requires from < to
    ensures Enabled(Crossing(from, to, 0, 0), Begin(0))
    ensures Step(Crossing(from, to, 0, 0), Begin(0)) == Crossing(from, to, 1, 0)
  {
    var s := Crossing(from, to, 0, 0);
    assert PortLocks(s.ports, 0, Some(from), 0) == [];
    assert ReleaseLocks(s.ports, s.txs[0].op) == Path(from, to);
    assert Mover(from, to, 1).held == {};
    assert BeginTx(s, s.txs[0]) == Mover(from, to, 1);
    BeginStep(s, 0);
  }

  lemma MoverLocks(from: nat, to: nat, i: nat)
    requires from < to && 0 < i < 4
    ensures Enabled(Crossing(from, to, i, 0), Acquire(0))
    ensures Step(Crossing(from, to, i, 0), Acquire(0)) == Crossing(from, to, i + 1, 0)
  {
    var path, s := Path(from, to), Crossing(from, to, i, 0);
    assert path[..i] == path[..i - 1] + [path[i - 1]];
    assert Mover(from, to, i + 1).held == Mover(from, to, i).held + {path[i - 1]};
    assert AcquireTx(s, s.txs[0]) == Mover(from, to, i + 1);
    AcquireStep(s, 0);
  }

  lemma PickedOnly(from: nat, to: nat)
    requires from < to
    ensures OnlyCandidates(Pick(from, to), DEMAND, from, to)
  {
    forall n: nat { Picked(from, to, n); }
  }

  lemma BuyerLooks(s: State, from: nat, to: nat)
    requires from < to && s.locking && |s.nodes| == to + 1 && OnlyCandidates(s.nodes, DEMAND, from, to)
    ensures BeginTx(s, Buyer(from, to, 0)) == Buyer(from, to, 1)
  {
    TwoCandidates(s.nodes, DEMAND, from, to, to + 1);
  }

  lemma BuyerStarts(s: State, from: nat, to: nat)
    requires from < to && s.locking && s.nodes == Pick(from, to)
    ensures BeginTx(s, Buyer(from, to, 0)) == Buyer(from, to, 1)
  {
    PickedOnly(from, to);
    BuyerLooks(s, from, to);
  }

  lemma BuyerAdvances(from: nat, to: nat, j: nat)
    requires j < 2
    ensures Put(Crossing(from, to, 4, j), 1, Buyer(from, to, j + 1)) == Crossing(from, to, 4, j + 1)
  {
    assert Crossing(from, to, 4, j).txs[1 := Buyer(from, to, j + 1)] == Crossing(from, to, 4, j + 1).txs;
  }

  lemma BuyerBegins(from: nat, to: nat) returns (a: Act)
    requires from < to
    ensures Enabled(Crossing(from, to, 4, 0), a) && Step(Crossing(from, to, 4, 0), a) == Crossing(from, to, 4, 1)
  {
    var s := Crossing(from, to, 4, 0);
    a := Begin(1);
    BuyerStarts(s, from, to);
    BuyerAdvances(from, to, 0);
    BeginStep(s, 1);
  }

  /** The purchase may lock the source: the switch shares the key of the target only. */
  lemma SourceIsFree(from: nat, to: nat)
    requires from < to
    ensures Available(Crossing(from, to, 4, 1), 1, Lock(NodeRow(from), ForUpdate))
  {
    assert Path(from, to)[..3] == [Path(from, to)[0], Path(from, to)[1], Path(from, to)[2]];
  }

  lemma BuyerTakes(s: State, from: nat, to: nat)
    requires from < to && s.nodes == Pick(from, to)
    ensures AcquireTx(s, Buyer(from, to, 1)) == Buyer(from, to, 2)
  {
    Picked(from, to, from);
    assert s.nodes[from] == HALF && Pair(from, to)[1..] == [Pair(from, to)[1]];
  }

  lemma BuyerLocks(from: nat, to: nat)
    requires from < to
    ensures Enabled(Crossing(from, to, 4, 1), Acquire(1))
    ensures Step(Crossing(from, to, 4, 1), Acquire(1)) == Crossing(from, to, 4, 2)
  {
    var s := Crossing(from, to, 4, 1);
    SourceIsFree(from, to);
    BuyerTakes(s, from, to);
    AcquireStep(s, 1);
    assert s.txs[1 := Buyer(from, to, 2)] == Crossing(from, to, 4, 2).txs;
  }

  /** The run of six acts: the switch up to its third lock, then the purchase up to its first. */
  lemma {:induction false} Crosses(from: nat, to: nat, i: nat, j: nat)
    returns (s: State, acts: seq<Act>, u: State)
    requires from < to && i <= 4 && j <= 2 && (j > 0 ==> i == 4)
    ensures s == Crossing(from, to, 0, 0) && u == Crossing(from, to, i, j) && Reaches(s, acts, u)
    decreases i + j
  {
    if i == 0 {
      s, acts, u := Crossing(from, to, 0, 0), [], Crossing(from, to, 0, 0);
    } else {
      var a;
      if j == 0 {
        s, acts, u := Crosses(from, to, i - 1, 0);
        a := MoverActs(from, to, i - 1);
      } else {
        s, acts, u := Crosses(from, to, i, j - 1);
        a := BuyerActs(from, to, j - 1);
      }
      ReachesThen(s, acts, u, a);
      acts, u := acts + [a], Step(u, a);
    }
  }

  lemma MoverActs(from: nat, to: nat, i: nat) returns (a: Act)
    requires from < to && i < 4
    ensures Enabled(Crossing(from, to, i, 0), a) && Step(Crossing(from, to, i, 0), a) == Crossing(from, to, i + 1, 0)
  {
    if i == 0 {
      MoverBegins(from, to);
      a := Begin(0);
    } else {
      MoverLocks(from, to, i);
      a := Acquire(0);
    }
  }

  lemma BuyerActs(from: nat, to: nat, j: nat) returns (a: Act)
    requires from < to && j < 2
    ensures Enabled(Crossing(from, to, 4, j), a) && Step(Crossing(from, to, 4, j), a) == Crossing(from, to, 4, j + 1)
  {
    if j == 0 {
      a := BuyerBegins(from, to);
    } else {
      BuyerLocks(from, to);
      a := Acquire(1);
    }
  }

  /** The switch waits for the source, which the purchase has; the purchase for the target, whose key it shares. */
  lemma CrossingIsDeadlock(from: nat, to: nat)
    requires from < to
    ensures var u := Crossing(from, to, 4, 2);
      && IsCycle(u, [0, 1, 0]) && !u.txs[0].phase.Done()
      && forall a :: !Moves(u, a)
  {
    var u := Crossing(from, to, 4, 2);
    var path := Path(from, to);
    assert path[..3] == [path[0], path[1], path[2]] && path[2] in path[..3];
    assert u.txs[0].todo[0] == path[3];
    assert WaitsFor(u, 0, 1) && WaitsFor(u, 1, 0);
    forall a ensures !Moves(u, a) {
      assert !Available(u, 0, u.txs[0].todo[0]) && !Available(u, 1, u.txs[1].todo[0]);
    }
  }

  /** A switch to a higher id deadlocks with a purchase that has both nodes as candidates. */
  lemma SwitchUpDeadlocks(from: nat, to: nat) returns (s: State, acts: seq<Act>, u: State)
    requires from < to
    ensures Opening(s) && Reaches(s, acts, u) && Deadlocked(u)
    ensures forall t :: 0 <= t < |s.txs| && s.txs[t].op.Switch? ==> s.txs[t].op.from == from && s.txs[t].op.to == to
    ensures 0 < |u.txs| && !u.txs[0].phase.Done() && forall a :: !Moves(u, a)
  {
    s, acts, u := Crosses(from, to, 4, 2);
    CrossingIsDeadlock(from, to);
    assert IsCycle(u, [0, 1, 0]);
  }

  // ---------- The exact law ----------

  /** Every switch is between nodes the policy allows. */
  ghost predicate Obeys(s: State, allowed: (nat, nat) -> bool) {
    forall t :: 0 <= t < |s.txs| && s.txs[t].op.Switch? ==> allowed(s.txs[t].op.from, s.txs[t].op.to)
  }

  ghost predicate AlwaysDown(allowed: (nat, nat) -> bool) {
    forall from: nat, to: nat :: from != to && allowed(from, to) ==> to < from
  }

  lemma DownDescends(s: State, allowed: (nat, nat) -> bool)
    requires Opening(s) && Obeys(s, allowed) && AlwaysDown(allowed)
    ensures AllDescend(s)
  {
  }

  /** No run that obeys the policy ever has a cycle of waits. */
  ghost predicate NeverDeadlocks(allowed: (nat, nat) -> bool) {
    forall s, acts, u :: Opening(s) && Obeys(s, allowed) && Reaches(s, acts, u) ==> !Deadlocked(u)
  }

  ghost predicate Unfinished(s: State) {
    exists t :: 0 <= t < |s.txs| && !s.txs[t].phase.Done()
  }

  ghost predicate SomebodyMoves(s: State) {
    exists a :: Moves(s, a)
  }

  /** On no run that obeys the policy is everybody stuck while somebody is unfinished. */
  ghost predicate NeverStuck(allowed: (nat, nat) -> bool) {
    forall s, acts, u :: Opening(s) && Obeys(s, allowed) && Reaches(s, acts, u) && Unfinished(u) ==> SomebodyMoves(u)
  }

  lemma DownIsSafe(allowed: (nat, nat) -> bool)
    requires AlwaysDown(allowed)
    ensures NeverDeadlocks(allowed) && NeverStuck(allowed)
  {
    forall s, acts, u | Opening(s) && Obeys(s, allowed) && Reaches(s, acts, u) ensures !Deadlocked(u) {
      DownDescends(s, allowed);
      NoWaitCycle(s, acts, u);
    }
    forall s, acts, u | Opening(s) && Obeys(s, allowed) && Reaches(s, acts, u) && Unfinished(u) ensures SomebodyMoves(u) {
      DownDescends(s, allowed);
      var t: nat :| 0 <= t < |u.txs| && !u.txs[t].phase.Done();
      var a := Progress(s, acts, u, t);
    }
  }

  lemma UpIsNot(allowed: (nat, nat) -> bool, from: nat, to: nat)
    requires from < to && allowed(from, to)
    ensures !NeverDeadlocks(allowed) && !NeverStuck(allowed)
  {
    var s, acts, u := SwitchUpDeadlocks(from, to);
    assert Opening(s) && Obeys(s, allowed) && Reaches(s, acts, u) && Deadlocked(u);
    assert Unfinished(u) && !SomebodyMoves(u);
  }

  /**
   Whatever moves are allowed: no run has a cycle of waits, and none gets stuck, if and only if every
   switch that is allowed goes to a node with a lower id than the one it leaves.
   */
  lemma DeadlockFreeExactly(allowed: (nat, nat) -> bool)
    ensures NeverDeadlocks(allowed) <==> AlwaysDown(allowed)
    ensures NeverStuck(allowed) <==> AlwaysDown(allowed)
  {
    if AlwaysDown(allowed) {
      DownIsSafe(allowed);
    } else {
      var from: nat, to: nat :| from != to && allowed(from, to) && !(to < from);
      UpIsNot(allowed, from, to);
    }
  }
}
