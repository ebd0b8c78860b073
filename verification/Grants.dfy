/** How many of a set of identical concurrent reservations succeed. */
module Grants {
  import opened Division
  import opened Wrappers
  import opened Resources
  import opened Scheduler
  import opened RowLocks
  import opened LockTheorems

  /** How many times `amount` fits into `free`. */
  function Slots(free: Res, amount: Res): nat
    requires amount.Positive()
    decreases if free.mem < 0 then 0 else free.mem
  {
    if amount.Leq(free) then 1 + Slots(free.Minus(amount), amount) else 0
  }

  function Min(a: int, b: int): int {
    if a < b then a else b
  }

  lemma QuotientStep(x: int, y: int)
    requires y > 0
    ensures (x - y) / y == x / y - 1
  {
    var p, r := x / y, x % y;
    assert x == p * y + r && 0 <= r < y;
    assert (p - 1) * y == p * y - y;
    DivUnique(x - y, y, p - 1);
  }

  lemma ZeroFactor(p: real, y: real)
    requires p * y == 0.0 && y > 0.0
    ensures p == 0.0
  {
  }

  lemma RealQuotientStep(x: real, y: real)
    requires y > 0.0
    ensures ((x - y) / y).Floor == (x / y).Floor - 1
  {
    var a, b := x / y, (x - y) / y;
    assert a * y == x && b * y == x - y;
    assert (b - (a - 1.0)) * y == b * y - a * y + y;
    ZeroFactor(b - (a - 1.0), y);
  }

  lemma RealMultiple(a: real, y: real)
    requires y > 0.0
    ensures (a >= 1.0 ==> a * y >= y) && (a < 0.0 ==> a * y < 0.0)
  {
    if a >= 1.0 {
      assert (a - 1.0) * y >= 0.0;
    }
  }

  lemma RealQuotientBounds(x: real, y: real)
    requires 0.0 <= x && 0.0 < y
    ensures 0.0 <= x / y && (x < y ==> x / y < 1.0)
  {
    var a := x / y;
    assert a * y == x;
    RealMultiple(a, y);
    assert x < y ==> !(a >= 1.0);
  }

  /** The number of slots is the least of the quotients, dimension by dimension, rounded down. */
  lemma {:induction false} SlotsAreQuotients(free: Res, amount: Res)
    requires amount.Positive() && free.NonNeg()
    ensures Slots(free, amount)
         == Min(Min(free.mem / amount.mem, free.disk / amount.disk), (free.cpu / amount.cpu).Floor)
    decreases free.mem
  {
    if amount.Leq(free) {
      SlotsAreQuotients(free.Minus(amount), amount);
      QuotientStep(free.mem, amount.mem);
      QuotientStep(free.disk, amount.disk);
      RealQuotientStep(free.cpu, amount.cpu);
    } else {
      QuotientBelow(free, amount);
    }
  }

  lemma QuotientBelow(free: Res, amount: Res)
    requires amount.Positive() && free.NonNeg() && !amount.Leq(free)
    ensures Min(Min(free.mem / amount.mem, free.disk / amount.disk), (free.cpu / amount.cpu).Floor) == 0
  {
    RealQuotientBounds(free.cpu, amount.cpu);
    if free.mem < amount.mem { DivUnique(free.mem, amount.mem, 0); }
    if free.disk < amount.disk { DivUnique(free.disk, amount.disk, 0); }
    assert free.mem / amount.mem >= 0 && free.disk / amount.disk >= 0;
  }

  /** Slots on the first `k` nodes that are eligible for the request. */
  function SlotsUpto(nodes: seq<Node>, req: Request, k: nat): nat
    requires k <= |nodes| && req.amount.Positive()
  {
    if k == 0 then 0
    else SlotsUpto(nodes, req, k - 1)
         + (if Eligible(nodes[k - 1], k - 1, req) then Slots(nodes[k - 1].Free(), req.amount) else 0)
  }

  function TotalSlots(nodes: seq<Node>, req: Request): nat
    requires req.amount.Positive()
  {
    SlotsUpto(nodes, req, |nodes|)
  }

  function GrantsUpto(txs: seq<Tx>, k: nat): nat
    requires k <= |txs|
  {
    if k == 0 then 0 else GrantsUpto(txs, k - 1) + (if txs[k - 1].phase.Granted? then 1 else 0)
  }

  /** All transactions reserve the same thing; they may prefer different locations. */
  ghost predicate SameDemand(s: State, req: Request) {
    forall t :: 0 <= t < |s.txs| ==>
      s.txs[t].op.Reserve? && s.txs[t].op.req == req.(preferred := s.txs[t].op.req.preferred)
  }

  /** An eligible node that a searching transaction has not turned down still has room, or is yet to be locked. */
  ghost predicate Searching(s: State, tx: Tx) {
    tx.phase.Scanning? && tx.op.Reserve? ==>
      forall n :: 0 <= n < |s.nodes| && Candidate(s.nodes, n, tx.op.req) ==> Lock(NodeRow(n), ForUpdate) in tx.todo || n in tx.seen
  }

  ghost predicate Counting(s: State, req: Request, all: nat)
    requires req.amount.Positive()
  {
    && s.locking && SameDemand(s, req)
    && TotalSlots(s.nodes, req) + GrantsUpto(s.txs, |s.txs|) == all
    && (forall t :: 0 <= t < |s.txs| ==> Searching(s, s.txs[t]))
    && ((exists t :: 0 <= t < |s.txs| && s.txs[t].phase.Refused?) ==> TotalSlots(s.nodes, req) == 0)
  }

  lemma {:induction false} SlotsAfterGrant(nodes: seq<Node>, req: Request, n: nat, k: nat)
    requires req.amount.Positive() && k <= |nodes| && Candidate(nodes, n, req)
    ensures |Charged(nodes, n, req.amount)| == |nodes|
    ensures SlotsUpto(Charged(nodes, n, req.amount), req, k) == SlotsUpto(nodes, req, k) - (if n < k then 1 else 0)
  {
    if k != 0 {
      SlotsAfterGrant(nodes, req, n, k - 1);
      if n == k - 1 {
        assert Charged(nodes, n, req.amount)[n].Free() == nodes[n].Free().Minus(req.amount);
      }
    }
  }

  lemma {:induction false} NoCandidateNoSlots(nodes: seq<Node>, req: Request, k: nat)
    requires req.amount.Positive() && k <= |nodes|
    requires forall n :: 0 <= n < k ==> !Candidate(nodes, n, req)
    ensures SlotsUpto(nodes, req, k) == 0
  {
    if k != 0 {
      NoCandidateNoSlots(nodes, req, k - 1);
      assert !Candidate(nodes, k - 1, req);
    }
  }

  lemma {:induction false} GrantsFrame(txs: seq<Tx>, t: nat, tx: Tx, k: nat)
    requires t < |txs| && k <= |txs| && !txs[t].phase.Granted?
    ensures GrantsUpto(txs[t := tx], k) == GrantsUpto(txs, k) + (if t < k && tx.phase.Granted? then 1 else 0)
  {
    if k != 0 {
      GrantsFrame(txs, t, tx, k - 1);
    }
  }

  lemma FreshIsCounting(s: State, req: Request)
    requires Opening(s) && s.locking && req.amount.Positive() && SameDemand(s, req)
    ensures Counting(s, req, TotalSlots(s.nodes, req))
  {
    NoGrantsYet(s.txs, |s.txs|);
  }

  lemma {:induction false} NoGrantsYet(txs: seq<Tx>, k: nat)
    requires k <= |txs| && forall t :: 0 <= t < |txs| ==> txs[t].phase.Fresh?
    ensures GrantsUpto(txs, k) == 0
  {
    if k != 0 {
      NoGrantsYet(txs, k - 1);
    }
  }

  /** A transaction that begins plans to lock every candidate; one that locks a row looks at it again. */
  lemma SearchGoesOn(s: State, a: Act)
    requires Inv(s) && Enabled(s, a) && !a.Commit? && s.locking && Searching(s, s.txs[a.t])
    ensures Searching(s, Step(s, a).txs[a.t])
  {
    var tx := s.txs[a.t];
    assert TxOk(s.locking, s.nodes, s.ports, tx);
    if a.Begin? && tx.op.Reserve? {
      ScanFinds(s.nodes, tx.op.req, |s.nodes|);
    } else if a.Acquire? {
      assert tx.todo == [tx.todo[0]] + tx.todo[1..];
    }
  }

  /** A transaction that is refused has looked at every eligible node and found it full. */
  lemma RefusedMeansFull(s: State, a: Act, req: Request, all: nat)
    requires Inv(s) && Enabled(s, a) && req.amount.Positive() && Counting(s, req, all)
    requires !a.Commit? && Step(s, a).txs[a.t].phase.Refused?
    ensures TotalSlots(s.nodes, req) == 0
  {
    var tx := s.txs[a.t];
    assert TxOk(s.locking, s.nodes, s.ports, tx);
    assert Searching(s, tx) && a.Refuse?;
    forall n | 0 <= n < |s.nodes| ensures !Candidate(s.nodes, n, req) {
      assert Candidate(s.nodes, n, req) == Candidate(s.nodes, n, tx.op.req);
    }
    NoCandidateNoSlots(s.nodes, req, |s.nodes|);
  }

  lemma QuietAct(s: State, a: Act)
    requires Enabled(s, a) && !a.Commit?
    ensures var u := Step(s, a);
      && u.nodes == s.nodes && u.locking == s.locking && u.txs == s.txs[a.t := u.txs[a.t]]
      && u.txs[a.t].op == s.txs[a.t].op && !u.txs[a.t].phase.Granted? && !s.txs[a.t].phase.Granted?
  {
  }

  /** Acts other than commits change neither the nodes nor the grants. */
  lemma QuietCounting(s: State, a: Act, req: Request, all: nat)
    requires Inv(s) && Enabled(s, a) && !a.Commit? && req.amount.Positive() && Counting(s, req, all)
    ensures Counting(Step(s, a), req, all)
  {
    var u := Step(s, a);
    QuietAct(s, a);
    GrantsFrame(s.txs, a.t, u.txs[a.t], |s.txs|);
    SearchGoesOn(s, a);
    forall v | 0 <= v < |u.txs| ensures Searching(u, u.txs[v]) {
      assert v == a.t || Searching(s, s.txs[v]);
    }
    if u.txs[a.t].phase.Refused? {
      RefusedMeansFull(s, a, req, all);
    }
  }

  lemma GrantCounting(s: State, t: nat, req: Request, all: nat)
    requires Inv(s) && Enabled(s, Commit(t)) && req.amount.Positive() && Counting(s, req, all)
    ensures Counting(Step(s, Commit(t)), req, all)
  {
    var u, tx := Step(s, Commit(t)), s.txs[t];
    assert TxOk(s.locking, s.nodes, s.ports, tx);
    var n := tx.phase.choice;
    assert Candidate(s.nodes, n, req);
    SlotsAfterGrant(s.nodes, req, n, |s.nodes|);
    GrantsFrame(s.txs, t, u.txs[t], |s.txs|);
    forall v | 0 <= v < |u.txs| ensures Searching(u, u.txs[v]) {
      assert Searching(s, s.txs[v]);
    }
  }

  lemma {:induction false} RunCounting(s: State, acts: seq<Act>, u: State, req: Request, all: nat)
    requires Inv(s) && Reaches(s, acts, u) && req.amount.Positive() && Counting(s, req, all)
    ensures Inv(u) && Counting(u, req, all) && |u.txs| == |s.txs|
    decreases |acts|
  {
    if acts != [] {
      StepKeepsInv(s, acts[0]);
      if acts[0].Commit? {
        GrantCounting(s, acts[0].t, req, all);
      } else {
        QuietCounting(s, acts[0], req, all);
      }
      RunCounting(Step(s, acts[0]), acts[1..], u, req, all);
    }
  }

  lemma {:induction false} AllGranted(txs: seq<Tx>, k: nat)
    requires k <= |txs|
    ensures GrantsUpto(txs, k) <= k
    ensures (forall t :: 0 <= t < k ==> txs[t].phase.Granted?) ==> GrantsUpto(txs, k) == k
  {
    if k != 0 {
      AllGranted(txs, k - 1);
    }
  }

  /**
   When identical reservations have all ended, and none was rolled back by its caller, exactly as
   many were granted as there are slots, or all of them; the others were refused for want of capacity.
   */
  lemma ExactGrants(s: State, acts: seq<Act>, u: State, req: Request)
    requires Opening(s) && s.locking && req.amount.Positive() && SameDemand(s, req) && Reaches(s, acts, u)
    requires forall t :: 0 <= t < |u.txs| ==> u.txs[t].phase.Done() && !u.txs[t].phase.RolledBack?
    ensures |u.txs| == |s.txs|
    ensures GrantsUpto(u.txs, |u.txs|) == Min(|s.txs|, TotalSlots(s.nodes, req))
    ensures forall t :: 0 <= t < |u.txs| && !u.txs[t].phase.Granted? ==> u.txs[t].phase.Refused?
  {
    FreshIsCounting(s, req);
    RunCounting(s, acts, u, req, TotalSlots(s.nodes, req));
    AllGranted(u.txs, |u.txs|);
    UngrantedAreRefused(u, req);
  }

  lemma UngrantedAreRefused(u: State, req: Request)
    requires Inv(u) && SameDemand(u, req)
    requires forall t :: 0 <= t < |u.txs| ==> u.txs[t].phase.Done() && !u.txs[t].phase.RolledBack?
    ensures forall t :: 0 <= t < |u.txs| && !u.txs[t].phase.Granted? ==> u.txs[t].phase.Refused?
  {
    forall t | 0 <= t < |u.txs| && !u.txs[t].phase.Granted? ensures u.txs[t].phase.Refused? {
      assert u.txs[t].op.Reserve? && TxOk(u.locking, u.nodes, u.ports, u.txs[t]);
    }
  }

  /** The repository's own test: ten 2 GB purchases on one 16 GB node, exactly eight of which fit. */
  lemma TenIntoEight(s: State, acts: seq<Act>, u: State, req: Request)
    requires Opening(s) && s.locking && SameDemand(s, req) && Reaches(s, acts, u)
    requires req.amount == Res(2048, 1024, 1.0) && |s.txs| == 10 && |s.nodes| == 1
    requires Eligible(s.nodes[0], 0, req) && s.nodes[0].Free() == Res(16384, 500000, 32.0)
    requires forall t :: 0 <= t < |u.txs| ==> u.txs[t].phase.Done() && !u.txs[t].phase.RolledBack?
    ensures GrantsUpto(u.txs, |u.txs|) == 8
  {
    ExactGrants(s, acts, u, req);
    SlotsAreQuotients(s.nodes[0].Free(), req.amount);
    assert SlotsUpto(s.nodes, req, 0) == 0;
  }
}
