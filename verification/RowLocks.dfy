/** Transactions at the level of row locks, under READ COMMITTED. */
module RowLocks {
  // SELECT .. FOR UPDATE picks its rows from a snapshot, locks them one at a time in id order, and looks at
  // each again once it is locked; an UPDATE locks its row and checks its WHERE clause on it; SKIP LOCKED
  // never waits; a foreign key that is given a new value takes a key share of the row it refers to.  Writes
  // become visible, and locks are let go, at commit.  With `locking` off the candidate SELECT takes no
  // locks, which leaves only the WHERE clause of the UPDATE.

  import opened Wrappers
  import opened Resources
  import opened Scheduler

  datatype Row = PortRow(id: nat) | ServerRow(id: nat) | NodeRow(id: nat) | OrderRow(id: nat)
  {
    function Class(): nat {
      match this
      case PortRow(_) => 0
      case ServerRow(_) => 1
      case NodeRow(_) => 2
      case OrderRow(_) => 3
    }

    /** Ports before servers before nodes before orders and jobs, and each kind by id. */
    predicate Before(r: Row) {
      Class() < r.Class() || (Class() == r.Class() && id < r.id)
    }
  }

  /**
   The modes in which PostgreSQL locks rows here: FOR UPDATE by the candidate SELECT, the port
   claim, DELETE, and an UPDATE of a unique key; FOR NO KEY UPDATE by any other UPDATE; FOR KEY
   SHARE by the check of a foreign key.
   */
  datatype Mode = ForUpdate | NoKeyUpdate | KeyShare
  {
    predicate Conflicts(m: Mode) {
      !(KeyShare? && m.KeyShare?) && !(KeyShare? && m.NoKeyUpdate?) && !(NoKeyUpdate? && m.KeyShare?)
    }
  }

  datatype Lock = Lock(row: Row, mode: Mode)

  /**
   Reserve: the purchase, which claims a port for its new server, and the migration's reservation,
   which claims none; `order` is the order or job row updated last.  ClaimPort: the migration's claim.
   Rollback, Remove and Switch: the three transactions that release.
   */
  datatype Op =
    | Reserve(req: Request, claims: Option<nat>, order: nat)
    | ClaimPort(node: nat, sid: nat)
    | Rollback(sid: nat, node: nat, amount: Res, order: nat)
    | Remove(sid: nat, node: nat, amount: Res)
    | Switch(sid: nat, from: nat, to: nat, amount: Res)
  {
    predicate Releases() {
      Rollback? || Remove? || Switch?
    }

    /**
     The row a reservation writes last: the order, whose server is a unique key, or the job of a
     migration, which has none.
     */
    function Last(): Lock
      requires Reserve?
    {
      Lock(OrderRow(order), if claims.Some? then ForUpdate else NoKeyUpdate)
    }

    /** The node whose counters a release lowers. */
    function Released(): nat
      requires Releases()
    {
      if Switch? then from else node
    }
  }

  datatype Phase =
    | Fresh
    | Scanning
    | Updating(choice: nat)
    | Applied(choice: nat)
    | Claiming
    | Letting
    | Granted(node: nat)
    | Refused(byGuard: bool)
    | RolledBack
    | Finished
  {
    predicate Done() {
      Granted? || Refused? || RolledBack? || Finished?
    }
  }

  /** `todo` are the locks a transaction is about to ask for, in order; `held` those it has. */
  datatype Tx = Tx(op: Op, phase: Phase, todo: seq<Lock>, held: set<Lock>, seen: map<nat, Node>, port: Option<nat>)
  {
    function End(outcome: Phase): Tx {
      this.(phase := outcome, todo := [], held := {})
    }

    /** It may write the row: nobody else may before it ends. */
    predicate Owns(r: Row) {
      Lock(r, ForUpdate) in held || Lock(r, NoKeyUpdate) in held
    }
  }

  datatype Slot = Slot(node: nat, owner: Option<nat>)

  datatype State = State(locking: bool, nodes: seq<Node>, ports: seq<Slot>, txs: seq<Tx>)

  datatype Act =
    | Begin(t: nat)
    | Acquire(t: nat)
    | Choose(t: nat, n: nat)
    | Refuse(t: nat)
    | Update(t: nat)
    | TakePort(t: nat, p: nat)
    | Commit(t: nat)
    | Abort(t: nat)

  // ---------- The locks of each transaction ----------

  /** The candidate SELECT: the candidates among the first `k` rows, in ascending order. */
  function Scan(nodes: seq<Node>, req: Request, k: nat): (locks: seq<Lock>)
    requires k <= |nodes|
    ensures |locks| <= k
    ensures forall i :: 0 <= i < |locks| ==>
      locks[i].row.NodeRow? && locks[i].mode.ForUpdate? && locks[i].row.id < k && Candidate(nodes, locks[i].row.id, req)
  {
    if k == 0 then [] else
      Scan(nodes, req, k - 1) + (if Candidate(nodes, k - 1, req) then [Lock(NodeRow(k - 1), ForUpdate)] else [])
  }

  /** UPDATE "Allocation" .. WHERE "serverId" = sid, on one node or on all of them. */
  function PortLocks(ports: seq<Slot>, sid: nat, on: Option<nat>, k: nat): (locks: seq<Lock>)
    requires k <= |ports|
    ensures |locks| <= k
    ensures forall l :: l in locks ==> l.row.PortRow? && l.row.id < k && l.mode.NoKeyUpdate?
  {
    if k == 0 then [] else
      PortLocks(ports, sid, on, k - 1)
      + (if ports[k - 1].owner == Some(sid) && (on.Some? ==> ports[k - 1].node == on.value)
         then [Lock(PortRow(k - 1), NoKeyUpdate)] else [])
  }

  /** After the ports: the server row is deleted, or given a new node, which shares that node's key. */
  function AfterPorts(op: Op): seq<Lock>
    requires op.Releases()
  {
    match op
    case Rollback(sid, node, _, order) =>
      [Lock(ServerRow(sid), ForUpdate), Lock(NodeRow(node), NoKeyUpdate), Lock(OrderRow(order), ForUpdate)]
    case Remove(sid, node, _) =>
      [Lock(ServerRow(sid), ForUpdate), Lock(NodeRow(node), NoKeyUpdate)]
    case Switch(sid, from, to, _) =>
      [Lock(ServerRow(sid), NoKeyUpdate), Lock(NodeRow(to), KeyShare), Lock(NodeRow(from), NoKeyUpdate)]
  }

  /** The locks of the three releases, in the order of their statements. */
  function ReleaseLocks(ports: seq<Slot>, op: Op): seq<Lock>
    requires op.Releases()
  {
    PortLocks(ports, op.sid, if op.Switch? then Some(op.from) else None, |ports|) + AfterPorts(op)
  }

  // ---------- Steps ----------

  /** Transaction `u` holds nothing that conflicts with the lock. */
  predicate Compatible(tx: Tx, l: Lock) {
    forall h :: h in tx.held && h.row == l.row ==> !h.mode.Conflicts(l.mode)
  }

  predicate Available(s: State, t: nat, l: Lock) {
    forall u :: 0 <= u < |s.txs| && u != t ==> Compatible(s.txs[u], l)
  }

  predicate Claimable(s: State, t: nat, p: nat, n: nat) {
    p < |s.ports| && s.ports[p] == Slot(n, None) && Available(s, t, Lock(PortRow(p), ForUpdate))
  }

  predicate Enabled(s: State, a: Act) {
    && a.t < |s.txs|
    && var tx := s.txs[a.t];
    match a
    case Begin(_) => tx.phase.Fresh?
    case Acquire(t) => !tx.phase.Fresh? && !tx.phase.Done() && tx.todo != [] && Available(s, t, tx.todo[0])
    case Choose(_, n) => tx.phase.Scanning? && tx.todo == [] && n in tx.seen
    case Refuse(_) => tx.phase.Scanning? && tx.todo == [] && tx.seen == map[]
    case Update(_) => tx.phase.Updating? && tx.todo == []
    case TakePort(t, p) =>
      && tx.port.None? && tx.todo == []
      && ((tx.phase.Applied? && tx.op.Reserve? && tx.op.claims.Some? && Claimable(s, t, p, tx.phase.choice))
          || (tx.phase.Claiming? && tx.op.ClaimPort? && Claimable(s, t, p, tx.op.node)))
    case Commit(_) =>
      && tx.todo == []
      && (|| (tx.phase.Applied? && tx.op.Reserve? && tx.op.Last() in tx.held)
          || (tx.phase.Claiming? && tx.port.Some?)
          || (tx.phase.Letting? && tx.op.Releases()))
    case Abort(_) => !tx.phase.Fresh? && !tx.phase.Done()
  }

  function Put(s: State, t: nat, tx: Tx): State
    requires t < |s.txs|
  {
    s.(txs := s.txs[t := tx])
  }

  function BeginTx(s: State, tx: Tx): Tx {
    match tx.op
    case Reserve(req, _, _) =>
      if s.locking then tx.(phase := Scanning, todo := Scan(s.nodes, req, |s.nodes|))
      else tx.(phase := Scanning, seen := map n: nat | 0 <= n < |s.nodes| && Candidate(s.nodes, n, req) :: s.nodes[n])
    case ClaimPort(_, _) => tx.(phase := Claiming)
    case _ => tx.(phase := Letting, todo := ReleaseLocks(s.ports, tx.op))
  }

  /** Locking a candidate row means looking at it again. */
  function AcquireTx(s: State, tx: Tx): Tx
    requires tx.todo != []
  {
    var l := tx.todo[0];
    tx.(todo := tx.todo[1..], held := tx.held + {l},
        seen := if tx.phase.Scanning? && tx.op.Reserve? && l.row.NodeRow? && Candidate(s.nodes, l.row.id, tx.op.req)
                then tx.seen[l.row.id := s.nodes[l.row.id]] else tx.seen)
  }

  /** The UPDATE of the chosen row waits for it, unless the SELECT has locked it. */
  function ChooseTx(tx: Tx, n: nat): Tx {
    tx.(phase := Updating(n), todo := if tx.Owns(NodeRow(n)) then [] else [Lock(NodeRow(n), NoKeyUpdate)])
  }

  /** The guarded UPDATE: it affects a row only if the row still has room. */
  function UpdateTx(s: State, tx: Tx): Tx
    requires tx.phase.Updating?
  {
    var n := tx.phase.choice;
    if tx.op.Reserve? && n < |s.nodes| && s.nodes[n].Fits(tx.op.req.amount)
    then tx.(phase := Applied(n), todo := if tx.op.claims.Some? then [] else [tx.op.Last()])
    else tx.End(Refused(true))
  }

  /** The claim; what the port then refers to is the purchase's own new row, or the row of a server that moves. */
  function TakePortTx(tx: Tx, p: nat): Tx {
    tx.(port := Some(p), held := tx.held + {Lock(PortRow(p), ForUpdate)},
        todo := match tx.op
                case Reserve(_, _, _) => [tx.op.Last()]
                case ClaimPort(_, sid) => [Lock(ServerRow(sid), KeyShare)]
                case _ => tx.todo)
  }

  function Charged(nodes: seq<Node>, n: nat, amount: Res): seq<Node> {
    if n < |nodes| then nodes[n := nodes[n].(reserved := nodes[n].reserved.Plus(amount))] else nodes
  }

  function Discharged(nodes: seq<Node>, n: nat, amount: Res): seq<Node> {
    if n < |nodes| then nodes[n := nodes[n].(reserved := nodes[n].reserved.FloorMinus(amount))] else nodes
  }

  function Handed(ports: seq<Slot>, p: Option<nat>, sid: nat): seq<Slot> {
    if p.Some? && p.value < |ports| then ports[p.value := ports[p.value].(owner := Some(sid))] else ports
  }

  /** The ports a release has locked are given back. */
  function GivenBack(ports: seq<Slot>, held: set<Lock>): (r: seq<Slot>)
    ensures |r| == |ports|
  {
    seq(|ports|, p requires 0 <= p < |ports| =>
      if Lock(PortRow(p), NoKeyUpdate) in held then ports[p].(owner := None) else ports[p])
  }

  function CommitStep(s: State, t: nat): State
    requires Enabled(s, Commit(t))
  {
    var tx := s.txs[t];
    if tx.phase.Applied? then
      Put(s, t, tx.End(Granted(tx.phase.choice)))
      .(nodes := Charged(s.nodes, tx.phase.choice, tx.op.req.amount),
        ports := if tx.op.claims.Some? then Handed(s.ports, tx.port, tx.op.claims.value) else s.ports)
    else if tx.phase.Claiming? then
      Put(s, t, tx.End(Finished)).(ports := if tx.op.ClaimPort? then Handed(s.ports, tx.port, tx.op.sid) else s.ports)
    else
      Put(s, t, tx.End(Finished))
      .(nodes := Discharged(s.nodes, tx.op.Released(), tx.op.amount), ports := GivenBack(s.ports, tx.held))
  }

  function Step(s: State, a: Act): State
    requires Enabled(s, a)
  {
    var tx := s.txs[a.t];
    match a
    case Begin(t) => Put(s, t, BeginTx(s, tx))
    case Acquire(t) => Put(s, t, AcquireTx(s, tx))
    case Choose(t, n) => Put(s, t, ChooseTx(tx, n))
    case Refuse(t) => Put(s, t, tx.End(Refused(false)))
    case Update(t) => Put(s, t, UpdateTx(s, tx))
    case TakePort(t, p) => Put(s, t, TakePortTx(tx, p))
    case Commit(t) => CommitStep(s, t)
    case Abort(t) => Put(s, t, tx.End(RolledBack))
  }

  // ---------- The invariant ----------

  ghost predicate OpOk(op: Op, nodes: nat) {
    match op
    case Reserve(req, _, _) => req.amount.Positive()
    case ClaimPort(_, _) => true
    case Rollback(_, n, amount, _) => n < nodes && amount.NonNeg()
    case Remove(_, n, amount) => n < nodes && amount.NonNeg()
    case Switch(_, from, to, amount) => from < nodes && to < nodes && from != to && amount.NonNeg()
  }

  /** A claimed port is locked by its claimant and not yet anybody's. */
  ghost predicate PortOk(ports: seq<Slot>, tx: Tx) {
    tx.port.Some? ==>
      tx.port.value < |ports| && Lock(PortRow(tx.port.value), ForUpdate) in tx.held && ports[tx.port.value].owner.None?
  }

  ghost predicate ScanOk(locking: bool, nodes: seq<Node>, tx: Tx) {
    && tx.op.Reserve? && tx.port.None?
    && (forall l :: l in tx.held ==> l.row.NodeRow?)
    && (forall i :: 0 <= i < |tx.todo| ==>
          tx.todo[i].row.NodeRow? && tx.todo[i].mode.ForUpdate? && tx.todo[i].row.id < |nodes|)
    && (forall n :: n in tx.seen ==> n < |nodes| && Eligible(nodes[n], n, tx.op.req))
    && (!locking ==> tx.todo == [] && tx.held == {})
    && (locking ==> forall n :: n in tx.seen ==>
          Lock(NodeRow(n), ForUpdate) in tx.held && tx.seen[n] == nodes[n] && nodes[n].Fits(tx.op.req.amount))
  }

  ghost predicate UpdateOk(locking: bool, nodes: seq<Node>, tx: Tx, n: nat) {
    && tx.op.Reserve? && tx.port.None? && n < |nodes| && Eligible(nodes[n], n, tx.op.req)
    && (forall l :: l in tx.held ==> l.row.NodeRow?)
    && (tx.todo == [] ==> tx.Owns(NodeRow(n)))
    && (tx.todo != [] ==> tx.todo == [Lock(NodeRow(n), NoKeyUpdate)] && tx.held == {})
    && (locking ==> tx.todo == [] && nodes[n].Fits(tx.op.req.amount))
  }

  ghost predicate ApplyOk(nodes: seq<Node>, ports: seq<Slot>, tx: Tx, n: nat) {
    && tx.op.Reserve? && tx.Owns(NodeRow(n)) && Candidate(nodes, n, tx.op.req) && PortOk(ports, tx)
    && var last := tx.op.Last();
    && (forall l :: l in tx.held ==> l.row.NodeRow? || l.row.PortRow? || l == last)
    && (tx.todo == [] || (tx.todo == [last] && last !in tx.held))
    && (tx.op.claims.Some? && tx.port.None? ==> tx.todo == [] && last !in tx.held)
    && (tx.op.claims.Some? && tx.port.Some? ==> tx.todo == [] ==> last in tx.held)
    && (tx.op.claims.None? ==> tx.port.None? && (tx.todo == [] ==> last in tx.held))
  }

  ghost predicate ClaimOk(ports: seq<Slot>, tx: Tx) {
    && tx.op.ClaimPort? && PortOk(ports, tx)
    && (tx.port.None? ==> tx.todo == [] && tx.held == {})
    && (tx.todo == [] || tx.todo == [Lock(ServerRow(tx.op.sid), KeyShare)])
    && (forall l :: l in tx.held ==> l.row.PortRow? || l == Lock(ServerRow(tx.op.sid), KeyShare))
    && (tx.todo != [] ==> forall l :: l in tx.held ==> l.row.PortRow?)
  }

  /** A release holds or is about to ask for the lock on the counters it will lower. */
  ghost predicate LetOk(tx: Tx) {
    && tx.op.Releases() && tx.port.None?
    && (Lock(NodeRow(tx.op.Released()), NoKeyUpdate) in tx.held || Lock(NodeRow(tx.op.Released()), NoKeyUpdate) in tx.todo)
  }

  ghost predicate PhaseOk(locking: bool, nodes: seq<Node>, ports: seq<Slot>, tx: Tx) {
    match tx.phase
    case Fresh => tx.todo == [] && tx.held == {} && tx.seen == map[] && tx.port.None?
    case Scanning => ScanOk(locking, nodes, tx)
    case Updating(n) => UpdateOk(locking, nodes, tx, n)
    case Applied(n) => ApplyOk(nodes, ports, tx, n)
    case Claiming => ClaimOk(ports, tx)
    case Letting => LetOk(tx)
    case Finished => tx.todo == [] && tx.held == {} && !tx.op.Reserve?
    case _ => tx.todo == [] && tx.held == {}
  }

  ghost predicate TxOk(locking: bool, nodes: seq<Node>, ports: seq<Slot>, tx: Tx) {
    OpOk(tx.op, |nodes|) && PhaseOk(locking, nodes, ports, tx)
  }

  /** No two transactions hold conflicting locks on a row. */
  ghost predicate Exclusive(txs: seq<Tx>) {
    forall t, u :: 0 <= t < |txs| && 0 <= u < |txs| && t != u ==> Coexist(txs[t], txs[u])
  }

  ghost predicate Coexist(a: Tx, b: Tx) {
    forall l :: l in a.held ==> Compatible(b, l)
  }

  ghost predicate Roomy(nodes: seq<Node>) {
    && Plausible(nodes)
    && forall n :: 0 <= n < |nodes| ==> nodes[n].reserved.Leq(nodes[n].Capacity())
  }

  ghost predicate Inv(s: State) {
    && Roomy(s.nodes)
    && Exclusive(s.txs)
    && forall t :: 0 <= t < |s.txs| ==> TxOk(s.locking, s.nodes, s.ports, s.txs[t])
  }

  // ---------- Every step keeps it ----------

  lemma {:induction false} ScanFinds(nodes: seq<Node>, req: Request, k: nat)
    requires k <= |nodes|
    ensures forall n :: 0 <= n < k && Candidate(nodes, n, req) ==> Lock(NodeRow(n), ForUpdate) in Scan(nodes, req, k)
  {
    if k != 0 {
      ScanFinds(nodes, req, k - 1);
    }
  }

  /** Of two transactions one at most may write a row. */
  lemma OneOwner(a: Tx, b: Tx, r: Row)
    requires Coexist(a, b) && a.Owns(r)
    ensures !b.Owns(r)
  {
    assert Lock(r, ForUpdate) in a.held ==> Compatible(b, Lock(r, ForUpdate));
    assert Lock(r, NoKeyUpdate) in a.held ==> Compatible(b, Lock(r, NoKeyUpdate));
  }

  /** Rows a transaction may write are changed by nobody else, so what it knows stays true. */
  lemma TxFrame(s: State, u: State, tx: Tx)
    requires TxOk(s.locking, s.nodes, s.ports, tx) && u.locking == s.locking
    requires |u.nodes| == |s.nodes| && |u.ports| == |s.ports|
    requires forall n :: 0 <= n < |s.nodes| ==> u.nodes[n] == s.nodes[n].(reserved := u.nodes[n].reserved)
    requires forall n :: 0 <= n < |s.nodes| && tx.Owns(NodeRow(n)) ==> u.nodes[n] == s.nodes[n]
    requires forall p :: 0 <= p < |s.ports| && tx.Owns(PortRow(p)) ==> u.ports[p] == s.ports[p]
    ensures TxOk(u.locking, u.nodes, u.ports, tx)
  {
  }

  lemma KeepsExclusive(s: State, t: nat, tx: Tx)
    requires Exclusive(s.txs) && t < |s.txs|
    requires forall l :: l in tx.held && l !in s.txs[t].held ==> Available(s, t, l)
    ensures Exclusive(s.txs[t := tx])
  {
    forall v | 0 <= v < |s.txs| && v != t ensures Coexist(tx, s.txs[v]) && Coexist(s.txs[v], tx) {
      assert Coexist(s.txs[t], s.txs[v]) && Coexist(s.txs[v], s.txs[t]);
      forall l, h | l in s.txs[v].held && h in tx.held && h.row == l.row ensures !h.mode.Conflicts(l.mode) {
        assert h in s.txs[t].held || Compatible(s.txs[v], h);
      }
    }
  }

  /** Acts other than commits lock only what is available, and change no table. */
  lemma QuietStep(s: State, a: Act)
    requires Inv(s) && Enabled(s, a) && !a.Commit?
    requires TxOk(s.locking, s.nodes, s.ports, Step(s, a).txs[a.t])
    ensures Step(s, a).nodes == s.nodes && Step(s, a).ports == s.ports && Inv(Step(s, a))
  {
    KeepsExclusive(s, a.t, Step(s, a).txs[a.t]);
  }

  lemma BeginOk(s: State, t: nat)
    requires Inv(s) && Enabled(s, Begin(t))
    ensures TxOk(s.locking, s.nodes, s.ports, Step(s, Begin(t)).txs[t])
  {
    assert TxOk(s.locking, s.nodes, s.ports, s.txs[t]);
  }

  lemma AcquireOk(s: State, t: nat)
    requires Inv(s) && Enabled(s, Acquire(t))
    ensures TxOk(s.locking, s.nodes, s.ports, Step(s, Acquire(t)).txs[t])
  {
    var tx := s.txs[t];
    assert TxOk(s.locking, s.nodes, s.ports, tx);
    assert tx.todo == [tx.todo[0]] + tx.todo[1..];
  }

  lemma EndsOk(s: State, a: Act)
    requires Inv(s) && Enabled(s, a) && (a.Refuse? || a.Abort?)
    ensures TxOk(s.locking, s.nodes, s.ports, Step(s, a).txs[a.t])
  {
    assert TxOk(s.locking, s.nodes, s.ports, s.txs[a.t]);
  }

  lemma OthersOk(s: State, a: Act)
    requires Inv(s) && Enabled(s, a) && (a.Choose? || a.Update? || a.TakePort?)
    ensures TxOk(s.locking, s.nodes, s.ports, Step(s, a).txs[a.t])
  {
    assert TxOk(s.locking, s.nodes, s.ports, s.txs[a.t]);
  }

  /** A commit that touches only rows the transaction may write. */
  lemma CommitFrame(s: State, u: State, t: nat)
    requires Inv(s) && t < |s.txs| && u.locking == s.locking
    requires |u.txs| == |s.txs| && u.txs == s.txs[t := u.txs[t]]
    requires u.txs[t].held == {} && OpOk(u.txs[t].op, |u.nodes|) && u.txs[t].todo == [] && u.txs[t].phase.Done()
    requires u.txs[t].phase.Finished? ==> !u.txs[t].op.Reserve?
    requires |u.nodes| == |s.nodes| && |u.ports| == |s.ports| && Roomy(u.nodes)
    requires forall n :: 0 <= n < |s.nodes| ==> u.nodes[n] == s.nodes[n].(reserved := u.nodes[n].reserved)
    requires forall n :: 0 <= n < |s.nodes| && !s.txs[t].Owns(NodeRow(n)) ==> u.nodes[n] == s.nodes[n]
    requires forall p :: 0 <= p < |s.ports| && !s.txs[t].Owns(PortRow(p)) ==> u.ports[p] == s.ports[p]
    ensures Inv(u)
  {
    KeepsExclusive(s, t, u.txs[t]);
    forall v | 0 <= v < |s.txs| && v != t ensures TxOk(u.locking, u.nodes, u.ports, u.txs[v]) {
      assert TxOk(s.locking, s.nodes, s.ports, s.txs[v]) && Coexist(s.txs[v], s.txs[t]);
      forall r: Row | s.txs[v].Owns(r) ensures !s.txs[t].Owns(r) {
        OneOwner(s.txs[v], s.txs[t], r);
      }
      TxFrame(s, u, s.txs[v]);
    }
  }

  lemma CommitKeepsInv(s: State, t: nat)
    requires Inv(s) && Enabled(s, Commit(t))
    ensures Inv(Step(s, Commit(t)))
  {
    assert TxOk(s.locking, s.nodes, s.ports, s.txs[t]);
    CommitWrites(s, t);
    CommitIsRoomy(s, t);
    CommitFrame(s, Step(s, Commit(t)), t);
  }

  /** A commit writes rows the transaction may write. */
  lemma CommitWrites(s: State, t: nat)
    requires Enabled(s, Commit(t)) && TxOk(s.locking, s.nodes, s.ports, s.txs[t])
    ensures var u := Step(s, Commit(t));
      && |u.nodes| == |s.nodes| && |u.ports| == |s.ports|
      && (forall n :: 0 <= n < |s.nodes| ==> u.nodes[n] == s.nodes[n].(reserved := u.nodes[n].reserved))
      && (forall n :: 0 <= n < |s.nodes| && !s.txs[t].Owns(NodeRow(n)) ==> u.nodes[n] == s.nodes[n])
      && (forall p :: 0 <= p < |s.ports| && !s.txs[t].Owns(PortRow(p)) ==> u.ports[p] == s.ports[p])
  {
  }

  /** And it leaves every node within its capacity. */
  lemma CommitIsRoomy(s: State, t: nat)
    requires Roomy(s.nodes) && Enabled(s, Commit(t)) && TxOk(s.locking, s.nodes, s.ports, s.txs[t])
    ensures Roomy(Step(s, Commit(t)).nodes)
  {
  }

  lemma StepKeepsInv(s: State, a: Act)
    requires Inv(s) && Enabled(s, a)
    ensures Inv(Step(s, a))
  {
    match a
    case Begin(t) => BeginOk(s, t); QuietStep(s, a);
    case Acquire(t) => AcquireOk(s, t); QuietStep(s, a);
    case Commit(t) => CommitKeepsInv(s, t);
    case _ =>
      if a.Refuse? || a.Abort? { EndsOk(s, a); } else { OthersOk(s, a); }
      QuietStep(s, a);
  }
}
