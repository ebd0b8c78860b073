/** What row locking guarantees for any set of concurrent transactions. */
module LockTheorems {
  import opened Wrappers
  import opened Resources
  import opened Scheduler
  import opened RowLocks

  /** No transaction has begun, and no node is oversold. */
  ghost predicate Opening(s: State) {
    && Roomy(s.nodes)
    && forall t :: 0 <= t < |s.txs| ==>
         && OpOk(s.txs[t].op, |s.nodes|) && s.txs[t].phase.Fresh?
         && s.txs[t].todo == [] && s.txs[t].held == {} && s.txs[t].seen == map[] && s.txs[t].port.None?
  }

  ghost predicate Reaches(s: State, acts: seq<Act>, u: State)
    decreases |acts|
  {
    if acts == [] then u == s
    else Enabled(s, acts[0]) && Reaches(Step(s, acts[0]), acts[1..], u)
  }

  lemma {:induction false} RunKeepsInv(s: State, acts: seq<Act>, u: State)
    requires Inv(s) && Reaches(s, acts, u)
    ensures Inv(u) && u.locking == s.locking && |u.txs| == |s.txs|
    decreases |acts|
  {
    if acts != [] {
      StepKeepsInv(s, acts[0]);
      RunKeepsInv(Step(s, acts[0]), acts[1..], u);
    }
  }

  // ---------- Capacity ----------

  /**
   With or without the candidate locks, whatever the interleaving, no node is ever oversold:
   the WHERE clause of the UPDATE alone sees to it.
   */
  lemma NoOversell(s: State, acts: seq<Act>, u: State, n: nat)
    requires Opening(s) && Reaches(s, acts, u) && n < |u.nodes|
    ensures u.nodes[n].reserved.Leq(u.nodes[n].Capacity())
  {
    RunKeepsInv(s, acts, u);
  }

  /** With the candidate locks the UPDATE always finds room, so its own refusal is unreachable. */
  lemma GuardNeverFails(s: State, acts: seq<Act>, u: State, t: nat)
    requires Opening(s) && s.locking && Reaches(s, acts, u) && Enabled(u, Update(t))
    ensures Step(u, Update(t)).txs[t].phase == Applied(u.txs[t].phase.choice)
  {
    RunKeepsInv(s, acts, u);
    assert TxOk(u.locking, u.nodes, u.ports, u.txs[t]);
  }

  // ---------- Ports ----------

  /** A port that a transaction hands over at commit is nobody's until that commit. */
  lemma PortsAreNotShared(s: State, acts: seq<Act>, u: State, t: nat, p: nat)
    requires Opening(s) && Reaches(s, acts, u) && t < |u.txs| && !u.txs[t].phase.Done()
    requires u.txs[t].port == Some(p)
    ensures p < |u.ports| && u.ports[p].owner.None?
    ensures forall v :: 0 <= v < |u.txs| && v != t && !u.txs[v].phase.Done() ==> u.txs[v].port != Some(p)
  {
    RunKeepsInv(s, acts, u);
    assert TxOk(u.locking, u.nodes, u.ports, u.txs[t]);
    assert u.txs[t].Owns(PortRow(p));
    forall v | 0 <= v < |u.txs| && v != t && !u.txs[v].phase.Done() ensures u.txs[v].port != Some(p) {
      assert TxOk(u.locking, u.nodes, u.ports, u.txs[v]) && Coexist(u.txs[t], u.txs[v]);
      OneOwner(u.txs[t], u.txs[v], PortRow(p));
    }
  }

  /** A reservation commits as one step that was possible there and then: a candidate node, a free port. */
  lemma GrantIsAtomic(s: State, acts: seq<Act>, u: State, t: nat)
    requires Opening(s) && Reaches(s, acts, u) && Enabled(u, Commit(t)) && u.txs[t].phase.Applied?
    ensures var tx, after := u.txs[t], Step(u, Commit(t));
      && Candidate(u.nodes, tx.phase.choice, tx.op.req)
      && after.nodes == Charged(u.nodes, tx.phase.choice, tx.op.req.amount)
      && (tx.op.claims.Some? ==>
            tx.port.Some? && tx.port.value < |u.ports| && u.ports[tx.port.value].owner.None?
            && after.ports == u.ports[tx.port.value := u.ports[tx.port.value].(owner := tx.op.claims)])
      && (tx.op.claims.None? ==> after.ports == u.ports)
  {
    RunKeepsInv(s, acts, u);
    assert TxOk(u.locking, u.nodes, u.ports, u.txs[t]);
  }

  // ---------- Termination ----------

  /** An upper bound on the acts a transaction has left. */
  function Left(nodes: nat, ports: nat, tx: Tx): nat {
    match tx.phase
    case Fresh => nodes + ports + 8
    case Scanning => |tx.todo| + 7
    case Updating(_) => |tx.todo| + 5
    case Applied(_) => if tx.op.Reserve? && tx.op.claims.Some? && tx.port.None? then 4 else |tx.todo| + 2
    case Claiming => if tx.port.None? then 3 else |tx.todo| + 1
    case Letting => |tx.todo| + 1
    case _ => 0
  }

  function TotalLeft(s: State, k: nat): nat
    requires k <= |s.txs|
  {
    if k == 0 then 0 else TotalLeft(s, k - 1) + Left(|s.nodes|, |s.ports|, s.txs[k - 1])
  }

  lemma ActUsesUp(s: State, a: Act)
    requires Inv(s) && Enabled(s, a)
    ensures var u := Step(s, a);
      && |u.nodes| == |s.nodes| && |u.ports| == |s.ports| && |u.txs| == |s.txs|
      && (forall v :: 0 <= v < |s.txs| && v != a.t ==> u.txs[v] == s.txs[v])
      && Left(|s.nodes|, |s.ports|, u.txs[a.t]) < Left(|s.nodes|, |s.ports|, s.txs[a.t])
  {
    OneChanges(s, a);
    LeftFalls(s, a);
  }

  /** An act changes its own transaction, and at commit what rows hold but not how many there are. */
  lemma OneChanges(s: State, a: Act)
    requires Enabled(s, a)
    ensures var u := Step(s, a);
      && |u.nodes| == |s.nodes| && |u.ports| == |s.ports|
      && |u.txs| == |s.txs| && u.txs == s.txs[a.t := u.txs[a.t]] && u.txs[a.t].op == s.txs[a.t].op
  {
  }

  lemma LeftFalls(s: State, a: Act)
    requires Inv(s) && Enabled(s, a)
    ensures Left(|s.nodes|, |s.ports|, Step(s, a).txs[a.t]) < Left(|s.nodes|, |s.ports|, s.txs[a.t])
  {
    assert TxOk(s.locking, s.nodes, s.ports, s.txs[a.t]);
  }

  lemma {:induction false} TotalUsesUp(s: State, u: State, t: nat, k: nat)
    requires |u.nodes| == |s.nodes| && |u.ports| == |s.ports|
    requires |u.txs| == |s.txs| && t < |s.txs| && k <= |s.txs|
    requires forall v :: 0 <= v < |s.txs| && v != t ==> u.txs[v] == s.txs[v]
    requires Left(|s.nodes|, |s.ports|, u.txs[t]) < Left(|s.nodes|, |s.ports|, s.txs[t])
    ensures if t < k then TotalLeft(u, k) < TotalLeft(s, k) else TotalLeft(u, k) == TotalLeft(s, k)
  {
    if k != 0 {
      TotalUsesUp(s, u, t, k - 1);
    }
  }

  /** Every run is finite: no run is longer than what its transactions had left at the start. */
  lemma {:induction false} RunsEnd(s: State, acts: seq<Act>, u: State)
    requires Inv(s) && Reaches(s, acts, u)
    ensures |u.txs| == |s.txs| && |acts| + TotalLeft(u, |u.txs|) <= TotalLeft(s, |s.txs|)
    decreases |acts|
  {
    if acts != [] {
      var next := Step(s, acts[0]);
      StepKeepsInv(s, acts[0]);
      ActUsesUp(s, acts[0]);
      TotalUsesUp(s, next, acts[0].t, |s.txs|);
      RunsEnd(next, acts[1..], u);
    }
  }

  lemma {:induction false} ReachesThen(s: State, acts: seq<Act>, u: State, a: Act)
    requires Reaches(s, acts, u) && Enabled(u, a)
    ensures Reaches(s, acts + [a], Step(u, a))
    decreases |acts|
  {
    if acts == [] {
      assert Reaches(Step(u, a), [], Step(u, a));
    } else {
      ReachesThen(Step(s, acts[0]), acts[1..], u, a);
      assert (acts + [a])[1..] == acts[1..] + [a];
    }
  }
}
