/** What the lock machine's commits do to the tables, and an account of whole runs. */
module LockLedger {
  // A commit does what the transaction of the ledger does; in the account every grant and every release
  // appears once.

  import opened Wrappers
  import opened Resources
  import opened Scheduler
  import opened Ledger
  import opened RowLocks
  import opened LockTheorems

  // ---------- The ports of a server ----------

  /** The server whose ports a transaction may change. */
  function WorksFor(op: Op): Option<nat> {
    if op.Reserve? then op.claims else Some(op.sid)
  }

  predicate Active(tx: Tx) {
    !tx.phase.Fresh? && !tx.phase.Done()
  }

  /** No two transactions under way are for the same server. */
  ghost predicate Apart(s: State) {
    forall t, v :: 0 <= t < |s.txs| && 0 <= v < |s.txs| && t != v && Active(s.txs[t]) && Active(s.txs[v]) ==>
      WorksFor(s.txs[t].op).None? || WorksFor(s.txs[t].op) != WorksFor(s.txs[v].op)
  }

  /** The ports a release gives back: the server's, and for a switch those on the source. */
  predicate Mine(slot: Slot, op: Op)
    requires op.Releases()
  {
    slot.owner == Some(op.sid) && (op.Switch? ==> slot.node == op.from)
  }

  /** A release under way has locked, or is about to lock, the ports it gives back and no others. */
  ghost predicate LocksItsPorts(ports: seq<Slot>, tx: Tx) {
    tx.phase.Letting? && tx.op.Releases() ==> forall p: nat ::
      Lock(PortRow(p), NoKeyUpdate) in tx.held || Lock(PortRow(p), NoKeyUpdate) in tx.todo <==>
      p < |ports| && Mine(ports[p], tx.op)
  }

  /** The port a transaction has claimed is on the node it is for. */
  ghost predicate ClaimsOnNode(ports: seq<Slot>, tx: Tx) {
    && (tx.phase.Applied? && tx.port.Some? ==>
          tx.port.value < |ports| && ports[tx.port.value].node == tx.phase.choice)
    && (tx.phase.Claiming? && tx.op.ClaimPort? && tx.port.Some? ==>
          tx.port.value < |ports| && ports[tx.port.value].node == tx.op.node)
  }

  ghost predicate KnowsPorts(ports: seq<Slot>, tx: Tx) {
    LocksItsPorts(ports, tx) && ClaimsOnNode(ports, tx)
  }

  ghost predicate AllKnow(s: State) {
    forall t :: 0 <= t < |s.txs| ==> KnowsPorts(s.ports, s.txs[t])
  }

  lemma {:induction false} PortLocksExactly(ports: seq<Slot>, sid: nat, on: Option<nat>, k: nat)
    requires k <= |ports|
    ensures forall p: nat :: Lock(PortRow(p), NoKeyUpdate) in PortLocks(ports, sid, on, k) <==>
      p < k && ports[p].owner == Some(sid) && (on.Some? ==> ports[p].node == on.value)
  {
    if k != 0 {
      PortLocksExactly(ports, sid, on, k - 1);
    }
  }

  lemma BeginKnows(s: State, t: nat)
    requires Inv(s) && Enabled(s, Begin(t))
    ensures KnowsPorts(s.ports, Step(s, Begin(t)).txs[t])
  {
    var op := s.txs[t].op;
    assert TxOk(s.locking, s.nodes, s.ports, s.txs[t]);
    if op.Releases() {
      PortLocksExactly(s.ports, op.sid, if op.Switch? then Some(op.from) else None, |s.ports|);
      assert forall p: nat :: Lock(PortRow(p), NoKeyUpdate) !in AfterPorts(op);
    }
  }

  lemma OwnStepKnows(s: State, a: Act)
    requires Inv(s) && Enabled(s, a) && !a.Begin? && !a.Commit? && KnowsPorts(s.ports, s.txs[a.t])
    ensures KnowsPorts(s.ports, Step(s, a).txs[a.t])
  {
    assert TxOk(s.locking, s.nodes, s.ports, s.txs[a.t]);
    if a.Acquire? {
      assert s.txs[a.t].todo == [s.txs[a.t].todo[0]] + s.txs[a.t].todo[1..];
    }
  }

  /** A commit changes the owner of the ports of its own server, or of a free port, and of no other. */
  lemma CommitTouchesOwn(s: State, t: nat, p: nat)
    requires Inv(s) && AllKnow(s) && Enabled(s, Commit(t)) && p < |s.ports|
    requires Step(s, Commit(t)).ports[p] != s.ports[p]
    ensures s.ports[p].owner.None? || s.ports[p].owner == WorksFor(s.txs[t].op)
    ensures WorksFor(s.txs[t].op).Some?
    ensures Step(s, Commit(t)).ports[p].owner.None? || Step(s, Commit(t)).ports[p].owner == WorksFor(s.txs[t].op)
  {
    assert TxOk(s.locking, s.nodes, s.ports, s.txs[t]) && KnowsPorts(s.ports, s.txs[t]);
  }

  lemma CommitMovesNoPort(s: State, t: nat)
    requires Enabled(s, Commit(t))
    ensures var u := Step(s, Commit(t));
      |u.ports| == |s.ports| && forall p :: 0 <= p < |s.ports| ==> u.ports[p].node == s.ports[p].node
  {
  }

  lemma CommitLeavesKnown(s: State, t: nat, v: nat)
    requires Inv(s) && AllKnow(s) && Apart(s) && Enabled(s, Commit(t)) && v < |s.txs| && v != t
    ensures KnowsPorts(Step(s, Commit(t)).ports, s.txs[v])
  {
    var tx, u := s.txs[v], Step(s, Commit(t));
    assert KnowsPorts(s.ports, tx);
    CommitMovesNoPort(s, t);
    if tx.phase.Letting? && tx.op.Releases() {
      forall p: nat | p < |s.ports| ensures Mine(u.ports[p], tx.op) <==> Mine(s.ports[p], tx.op) {
        if u.ports[p] != s.ports[p] {
          CommitTouchesOwn(s, t, p);
        }
      }
    }
  }

  lemma StepKnows(s: State, a: Act)
    requires Inv(s) && AllKnow(s) && Apart(s) && Enabled(s, a)
    ensures AllKnow(Step(s, a))
  {
    var u := Step(s, a);
    OneChanges(s, a);
    forall v | 0 <= v < |u.txs| ensures KnowsPorts(u.ports, u.txs[v]) {
      assert KnowsPorts(s.ports, s.txs[v]);
      if a.Commit? {
        if v != a.t { CommitLeavesKnown(s, a.t, v); }
      } else if v == a.t {
        if a.Begin? { BeginKnows(s, v); } else { OwnStepKnows(s, a); }
      }
    }
  }

  /** A run on which no two transactions for one server are under way at once. */
  ghost predicate ReachesApart(s: State, acts: seq<Act>, u: State)
    decreases |acts|
  {
    Apart(s) && if acts == [] then u == s else Enabled(s, acts[0]) && ReachesApart(Step(s, acts[0]), acts[1..], u)
  }

  lemma {:induction false} RunKnows(s: State, acts: seq<Act>, u: State)
    requires Inv(s) && AllKnow(s) && ReachesApart(s, acts, u)
    ensures Inv(u) && AllKnow(u)
    decreases |acts|
  {
    if acts != [] {
      StepKeepsInv(s, acts[0]);
      StepKnows(s, acts[0]);
      RunKnows(Step(s, acts[0]), acts[1..], u);
    }
  }

  // ---------- A commit and the ledger ----------

  /** The slots of the lock machine are the ports of the tables, without number and primary flag. */
  ghost predicate Mirrors(ports: seq<Port>, slots: seq<Slot>) {
    |ports| == |slots| && forall p :: 0 <= p < |ports| ==> slots[p] == Slot(ports[p].node, ports[p].owner)
  }

  /** The tables after the commit of `op` with choice `n` and claimed port `p`, as the ledger has it. */
  ghost predicate LedgerEffect(db: Db, op: Op, n: nat, p: Option<nat>, nodes: seq<Node>, slots: seq<Slot>) {
    match op
    case Reserve(req, claims, _) =>
      && n < |db.nodes| && nodes == Ledger.Reserve(db.nodes, n, req.amount)
      && (claims.Some? ==>
            p.Some? && FreePort(db.ports, p.value, n) && Mirrors(Claim(db.ports, p.value, claims.value), slots))
      && (claims.None? ==> Mirrors(db.ports, slots))
    case ClaimPort(node, sid) =>
      nodes == db.nodes && p.Some? && FreePort(db.ports, p.value, node) && Mirrors(Claim(db.ports, p.value, sid), slots)
    case Rollback(sid, node, amount, _) =>
      node < |db.nodes| && nodes == Release(db.nodes, node, amount) && Mirrors(GiveBack(db.ports, sid, None), slots)
    case Remove(sid, node, amount) =>
      node < |db.nodes| && nodes == Release(db.nodes, node, amount) && Mirrors(GiveBack(db.ports, sid, None), slots)
    case Switch(sid, from, _, amount) =>
      && from < |db.nodes| && nodes == Release(db.nodes, from, amount)
      && Mirrors(GiveBack(db.ports, sid, Some(from)), slots)
  }

  lemma ReserveIsLedgers(s: State, t: nat, db: Db)
    requires Inv(s) && Enabled(s, Commit(t)) && KnowsPorts(s.ports, s.txs[t]) && s.txs[t].op.Reserve?
    requires db.nodes == s.nodes && Mirrors(db.ports, s.ports)
    ensures var (tx, u) := (s.txs[t], Step(s, Commit(t)));
      tx.phase.Applied? && LedgerEffect(db, tx.op, tx.phase.choice, tx.port, u.nodes, u.ports)
  {
    assert TxOk(s.locking, s.nodes, s.ports, s.txs[t]);
  }

  lemma ClaimIsLedgers(s: State, t: nat, db: Db)
    requires Inv(s) && Enabled(s, Commit(t)) && KnowsPorts(s.ports, s.txs[t]) && s.txs[t].op.ClaimPort?
    requires db.nodes == s.nodes && Mirrors(db.ports, s.ports)
    ensures var (tx, u) := (s.txs[t], Step(s, Commit(t))); LedgerEffect(db, tx.op, 0, tx.port, u.nodes, u.ports)
  {
    assert TxOk(s.locking, s.nodes, s.ports, s.txs[t]);
  }

  lemma ReleaseIsLedgers(s: State, t: nat, db: Db)
    requires Inv(s) && Enabled(s, Commit(t)) && KnowsPorts(s.ports, s.txs[t]) && s.txs[t].op.Releases()
    requires db.nodes == s.nodes && Mirrors(db.ports, s.ports)
    ensures var (tx, u) := (s.txs[t], Step(s, Commit(t))); LedgerEffect(db, tx.op, 0, tx.port, u.nodes, u.ports)
  {
    assert TxOk(s.locking, s.nodes, s.ports, s.txs[t]);
  }

  /**
   Whatever the interleaving, a transaction that commits does to counters and ports what the ledger's
   does; a release gives back the server's ports and its amount on the node, a claim takes a free port.
   */
  lemma CommitIsLedgers(s: State, acts: seq<Act>, u: State, t: nat, db: Db)
    requires Opening(s) && ReachesApart(s, acts, u) && Enabled(u, Commit(t))
    requires db.nodes == u.nodes && Mirrors(db.ports, u.ports)
    ensures var (tx, v) := (u.txs[t], Step(u, Commit(t)));
      LedgerEffect(db, tx.op, if tx.phase.Applied? then tx.phase.choice else 0, tx.port, v.nodes, v.ports)
  {
    assert AllKnow(s);
    RunKnows(s, acts, u);
    assert TxOk(u.locking, u.nodes, u.ports, u.txs[t]) && KnowsPorts(u.ports, u.txs[t]);
    match u.txs[t].op {
      case Reserve(_, _, _) => ReserveIsLedgers(u, t, db);
      case ClaimPort(_, _) => ClaimIsLedgers(u, t, db);
      case _ => ReleaseIsLedgers(u, t, db);
    }
  }

  // ---------- The account of a run ----------

  /** What a transaction was granted, has released, and has still to release. */
  function Grant(tx: Tx): Charge {
    if tx.op.Reserve? && tx.phase.Granted? then Charge(tx.phase.node, tx.op.req.amount) else FREE
  }

  function Given(tx: Tx): Charge {
    if tx.op.Releases() && tx.phase.Finished? then Charge(tx.op.Released(), tx.op.amount) else FREE
  }

  function Owed(tx: Tx): Charge {
    if tx.op.Releases() && !tx.phase.Finished? then Charge(tx.op.Released(), tx.op.amount) else FREE
  }

  function Grants(txs: seq<Tx>): (cs: seq<Charge>)
    ensures |cs| == |txs|
  {
    seq(|txs|, t requires 0 <= t < |txs| => Grant(txs[t]))
  }

  function Givens(txs: seq<Tx>): (cs: seq<Charge>)
    ensures |cs| == |txs|
  {
    seq(|txs|, t requires 0 <= t < |txs| => Given(txs[t]))
  }

  function Oweds(txs: seq<Tx>): (cs: seq<Charge>)
    ensures |cs| == |txs|
  {
    seq(|txs|, t requires 0 <= t < |txs| => Owed(txs[t]))
  }

  /** Counters and what was released are what they were and what was granted, and cover what is to be released. */
  ghost predicate Balanced(nodes: seq<Node>, s: State) {
    |s.nodes| == |nodes| && forall n :: 0 <= n < |nodes| ==> BalancedAt(nodes[n].reserved, s, n)
  }

  ghost predicate BalancedAt(start: Res, s: State, n: nat)
    requires n < |s.nodes|
  {
    && s.nodes[n].reserved.Plus(Total(Givens(s.txs), n)) == start.Plus(Total(Grants(s.txs), n))
    && Total(Oweds(s.txs), n).Leq(s.nodes[n].reserved)
  }

  lemma PutOne(txs: seq<Tx>, t: nat, tx: Tx)
    requires t < |txs|
    ensures Grants(txs[t := tx]) == Grants(txs)[t := Grant(tx)]
    ensures Givens(txs[t := tx]) == Givens(txs)[t := Given(tx)]
    ensures Oweds(txs[t := tx]) == Oweds(txs)[t := Owed(tx)]
  {
  }

  lemma SameSums(txs: seq<Tx>, t: nat, tx: Tx)
    requires t < |txs| && Grant(tx) == Grant(txs[t]) && Given(tx) == Given(txs[t]) && Owed(tx) == Owed(txs[t])
    ensures Grants(txs[t := tx]) == Grants(txs) && Givens(txs[t := tx]) == Givens(txs)
    ensures Oweds(txs[t := tx]) == Oweds(txs)
  {
    PutOne(txs, t, tx);
    assert Grants(txs)[t] == Grant(txs[t]) && Givens(txs)[t] == Given(txs[t]) && Oweds(txs)[t] == Owed(txs[t]);
  }

  /** One entry that was free becomes a charge, or the other way round. */
  lemma TotalGains(cs: seq<Charge>, i: nat, c: Charge, n: nat)
    requires i < |cs| && cs[i] == FREE
    ensures Total(cs[i := c], n) == Total(cs, n).Plus(c.On(n))
  {
    TotalReplace(cs, i, c, n);
    MinusZero(Total(cs, n), c.On(n));
    assert FREE.On(n) == ZERO;
  }

  lemma TotalLoses(cs: seq<Charge>, i: nat, n: nat)
    requires i < |cs|
    ensures Total(cs[i := FREE], n) == Total(cs, n).Minus(cs[i].On(n))
  {
    TotalReplace(cs, i, FREE, n);
    PlusZero(Total(cs, n).Minus(cs[i].On(n)));
    assert FREE.On(n) == ZERO;
  }

  lemma MinusZero(r: Res, a: Res)
    ensures r.Minus(ZERO).Plus(a) == r.Plus(a)
  {
  }

  lemma GrantBalances(r: Res, given: Res, start: Res, granted: Res, a: Res, owed: Res)
    requires r.Plus(given) == start.Plus(granted) && owed.Leq(r) && a.NonNeg()
    ensures r.Plus(a).Plus(given) == start.Plus(granted.Plus(a)) && owed.Leq(r.Plus(a))
  {
  }

  lemma ReleaseBalances(r: Res, given: Res, start: Res, granted: Res, a: Res, owed: Res)
    requires r.Plus(given) == start.Plus(granted) && owed.Leq(r) && a.NonNeg() && a.Leq(owed)
    ensures r.FloorMinus(a).Plus(given.Plus(a)) == start.Plus(granted) && owed.Minus(a).Leq(r.FloorMinus(a))
  {
  }

  lemma OwedCovers(txs: seq<Tx>, nodes: nat, t: nat)
    requires t < |txs| && forall v :: 0 <= v < |txs| ==> OpOk(txs[v].op, nodes)
    ensures Oweds(txs)[t] == Owed(txs[t]) && Oweds(txs)[t].amount.Leq(Total(Oweds(txs), Oweds(txs)[t].node))
  {
    assert AllNonNeg(Oweds(txs));
    TotalCovers(Oweds(txs), t);
  }

  // ---------- Every step keeps it ----------

  lemma QuietBalances(nodes: seq<Node>, s: State, a: Act)
    requires Inv(s) && Balanced(nodes, s) && Enabled(s, a) && !a.Commit?
    ensures Balanced(nodes, Step(s, a))
  {
    var tx, u := s.txs[a.t], Step(s, a);
    assert TxOk(s.locking, s.nodes, s.ports, tx);
    OneChanges(s, a);
    assert u.nodes == s.nodes;
    SameSums(s.txs, a.t, u.txs[a.t]);
    forall n | 0 <= n < |nodes| ensures BalancedAt(nodes[n].reserved, u, n) {
      assert BalancedAt(nodes[n].reserved, s, n);
    }
  }

  lemma GrantedAt(start: Res, s: State, u: State, t: nat, c: Charge, n: nat)
    requires n < |s.nodes| == |u.nodes| && BalancedAt(start, s, n) && t < |s.txs| && c.amount.NonNeg()
    requires Grants(s.txs)[t] == FREE && Grants(u.txs) == Grants(s.txs)[t := c]
    requires Givens(u.txs) == Givens(s.txs) && Oweds(u.txs) == Oweds(s.txs)
    requires u.nodes[n].reserved == s.nodes[n].reserved.Plus(c.On(n))
    ensures BalancedAt(start, u, n)
  {
    TotalGains(Grants(s.txs), t, c, n);
    GrantBalances(s.nodes[n].reserved, Total(Givens(s.txs), n), start, Total(Grants(s.txs), n), c.On(n),
                  Total(Oweds(s.txs), n));
  }

  lemma ReleasedAt(start: Res, s: State, u: State, t: nat, c: Charge, n: nat)
    requires n < |s.nodes| == |u.nodes| && BalancedAt(start, s, n) && t < |s.txs| && c.amount.NonNeg()
    requires Oweds(s.txs)[t] == c && Oweds(u.txs) == Oweds(s.txs)[t := FREE]
    requires Givens(s.txs)[t] == FREE && Givens(u.txs) == Givens(s.txs)[t := c] && Grants(u.txs) == Grants(s.txs)
    requires c.amount.Leq(Total(Oweds(s.txs), c.node))
    requires u.nodes[n].reserved ==
      if n == c.node then s.nodes[n].reserved.FloorMinus(c.amount) else s.nodes[n].reserved
    ensures BalancedAt(start, u, n)
  {
    TotalGains(Givens(s.txs), t, c, n);
    TotalLoses(Oweds(s.txs), t, n);
    if n == c.node {
      ReleaseBalances(s.nodes[n].reserved, Total(Givens(s.txs), n), start, Total(Grants(s.txs), n), c.amount,
                      Total(Oweds(s.txs), n));
    } else {
      PlusZero(Total(Givens(s.txs), n));
      PlusZero(Total(Oweds(s.txs), n));
    }
  }

  lemma GrantedBalances(nodes: seq<Node>, s: State, t: nat)
    requires Inv(s) && Balanced(nodes, s) && Enabled(s, Commit(t)) && s.txs[t].op.Reserve?
    ensures Balanced(nodes, Step(s, Commit(t)))
  {
    var tx, u := s.txs[t], Step(s, Commit(t));
    assert TxOk(s.locking, s.nodes, s.ports, tx);
    PutOne(s.txs, t, u.txs[t]);
    assert Grants(s.txs)[t] == FREE && Givens(s.txs)[t] == FREE && Oweds(s.txs)[t] == FREE;
    assert Givens(u.txs) == Givens(s.txs) && Oweds(u.txs) == Oweds(s.txs);
    forall n | 0 <= n < |nodes| ensures BalancedAt(nodes[n].reserved, u, n) {
      assert BalancedAt(nodes[n].reserved, s, n);
      PlusZero(s.nodes[n].reserved);
      GrantedAt(nodes[n].reserved, s, u, t, Charge(tx.phase.choice, tx.op.req.amount), n);
    }
  }

  lemma ClaimedBalances(nodes: seq<Node>, s: State, t: nat)
    requires Inv(s) && Balanced(nodes, s) && Enabled(s, Commit(t)) && s.txs[t].op.ClaimPort?
    ensures Balanced(nodes, Step(s, Commit(t)))
  {
    var tx, u := s.txs[t], Step(s, Commit(t));
    assert TxOk(s.locking, s.nodes, s.ports, tx);
    SameSums(s.txs, t, u.txs[t]);
    forall n | 0 <= n < |nodes| ensures BalancedAt(nodes[n].reserved, u, n) {
      assert BalancedAt(nodes[n].reserved, s, n);
    }
  }

  lemma ReleasedBalances(nodes: seq<Node>, s: State, t: nat)
    requires Inv(s) && Balanced(nodes, s) && Enabled(s, Commit(t)) && s.txs[t].op.Releases()
    ensures Balanced(nodes, Step(s, Commit(t)))
  {
    var tx, u := s.txs[t], Step(s, Commit(t));
    assert TxOk(s.locking, s.nodes, s.ports, tx);
    PutOne(s.txs, t, u.txs[t]);
    OwedCovers(s.txs, |s.nodes|, t);
    assert Grants(s.txs)[t] == FREE && Givens(s.txs)[t] == FREE && Grants(u.txs) == Grants(s.txs);
    forall n | 0 <= n < |nodes| ensures BalancedAt(nodes[n].reserved, u, n) {
      assert BalancedAt(nodes[n].reserved, s, n);
      ReleasedAt(nodes[n].reserved, s, u, t, Charge(tx.op.Released(), tx.op.amount), n);
    }
  }

  lemma StepBalances(nodes: seq<Node>, s: State, a: Act)
    requires Inv(s) && Balanced(nodes, s) && Enabled(s, a)
    ensures Balanced(nodes, Step(s, a))
  {
    if !a.Commit? {
      QuietBalances(nodes, s, a);
    } else {
      match s.txs[a.t].op {
        case Reserve(_, _, _) => GrantedBalances(nodes, s, a.t);
        case ClaimPort(_, _) => ClaimedBalances(nodes, s, a.t);
        case _ => ReleasedBalances(nodes, s, a.t);
      }
    }
  }

  lemma {:induction false} RunBalances(nodes: seq<Node>, s: State, acts: seq<Act>, u: State)
    requires Inv(s) && Balanced(nodes, s) && Reaches(s, acts, u)
    ensures Balanced(nodes, u)
    decreases |acts|
  {
    if acts != [] {
      StepKeepsInv(s, acts[0]);
      StepBalances(nodes, s, acts[0]);
      RunBalances(nodes, Step(s, acts[0]), acts[1..], u);
    }
  }

  lemma OpeningBalances(s: State)
    requires Opening(s)
    requires forall n :: 0 <= n < |s.nodes| ==> Total(Oweds(s.txs), n).Leq(s.nodes[n].reserved)
    ensures Balanced(s.nodes, s)
  {
    forall n | 0 <= n < |s.nodes| ensures BalancedAt(s.nodes[n].reserved, s, n) {
      UptoNobody(Grants(s.txs), n, |s.txs|);
      UptoNobody(Givens(s.txs), n, |s.txs|);
    }
  }

  /**
   On every run that starts with counters that cover what its transactions are to release: what a
   node had reserved and what was granted on it since is what it has reserved and what was released.
   */
  lemma Account(s: State, acts: seq<Act>, u: State, n: nat)
    requires Opening(s) && Reaches(s, acts, u) && n < |s.nodes|
    requires forall m :: 0 <= m < |s.nodes| ==> Total(Oweds(s.txs), m).Leq(s.nodes[m].reserved)
    ensures |u.nodes| == |s.nodes|
    ensures u.nodes[n].reserved.Plus(Total(Givens(u.txs), n)) == s.nodes[n].reserved.Plus(Total(Grants(u.txs), n))
  {
    OpeningBalances(s);
    RunBalances(s.nodes, s, acts, u);
    assert BalancedAt(s.nodes[n].reserved, u, n);
  }
}
