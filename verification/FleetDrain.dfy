/** A drain beside any other operations, and what it reports. */
module FleetDrain {
  // It goes through the servers it found on the node, one migration after the other, and records how
  // each ended.

  import opened Wrappers
  import opened Resources
  import opened Ledger
  import opened Fleet
  import opened FleetSafety
  import opened FleetTheorems

  /** The migration under way: its process, its job and its server, and whether it has switched. */
  datatype Current = Current(p: nat, job: nat, sid: nat, switched: bool)

  datatype Result = Result(sid: nat, moved: bool)

  /** `took` says of each result whether that migration took its switch. */
  datatype Drain = Drain(
    node: nat, todo: seq<nat>, current: Option<Current>, results: seq<Result>, took: seq<bool>)

  /** The drain starts its next migration or notes how it ended; all else is done by others and by that migration. */
  datatype Action = Next | Collect | Others(e: Event)

  /** The first `k` server rows that are on the node, in id order. */
  function Residents(servers: seq<Option<Server>>, n: nat, k: nat): (r: seq<nat>)
    requires k <= |servers|
    ensures forall sid: nat :: sid in r <==> sid < k && servers[sid].Some? && servers[sid].value.node == n
    ensures forall i, j :: 0 <= i < j < |r| ==> r[i] < r[j] < k
    ensures forall i :: 0 <= i < |r| ==> r[i] < k
  {
    if k == 0 then []
    else Residents(servers, n, k - 1)
         + (if servers[k - 1].Some? && servers[k - 1].value.node == n then [k - 1] else [])
  }

  /** A server that is gone makes the migration fail at once; one that is busy is waited for. */
  ghost predicate CanAct(s: State, d: Drain, a: Action) {
    match a
    case Next => d.current.None? && d.todo != [] && (Idle(s, d.todo[0]) || !s.db.Live(d.todo[0]))
    case Collect => d.current.Some? && d.current.value.p < |s.procs| && s.procs[d.current.value.p].Done?
                    && d.current.value.job < |s.db.jobs|
    case Others(e) => Enabled(s, e) && !Reenables(e, d.node)
  }

  function StateAfter(s: State, d: Drain, a: Action): State
    requires ProcsOk(s) && BusyOk(s) && CanAct(s, d, a)
  {
    match a
    case Next => if s.db.Live(d.todo[0]) then Step(s, Go(StartMigration(d.todo[0]))) else s
    case Collect => s
    case Others(e) => Step(s, e)
  }

  /** The switch of the migration under way is noted. */
  function Noting(c: Current, e: Event): Current {
    if e == Go(Switched(c.p)) then c.(switched := true) else c
  }

  predicate Late(c: Proc) {
    c.Migrating? && (c.phase.CleaningUp? || c.phase.Completing?)
  }

  function DrainAfter(s: State, d: Drain, a: Action): Drain
    requires CanAct(s, d, a)
  {
    match a
    case Next =>
      var sid := d.todo[0];
      if s.db.Live(sid) then d.(todo := d.todo[1..], current := Some(Current(|s.procs|, |s.db.jobs|, sid, false)))
      else d.(todo := d.todo[1..], results := d.results + [Result(sid, false)], took := d.took + [false])
    case Collect =>
      var c := d.current.value;
      d.(current := None, results := d.results + [Result(c.sid, s.db.jobs[c.job].status.Completed?)],
         took := d.took + [c.switched])
    case Others(e) => if d.current.Some? then d.(current := Some(Noting(d.current.value, e))) else d
  }

  ghost predicate DrainReaches(s: State, d: Drain, acts: seq<Action>, t: State, u: Drain)
    decreases |acts|
  {
    if acts == [] then t == s && u == d
    else
      && ProcsOk(s) && BusyOk(s) && CanAct(s, d, acts[0])
      && DrainReaches(StateAfter(s, d, acts[0]), DrainAfter(s, d, acts[0]), acts[1..], t, u)
  }

  // ---------- The migration under way ----------

  ghost predicate OnlyUser(procs: seq<Proc>, p: nat, job: nat) {
    forall q :: 0 <= q < |procs| && q != p && procs[q].Migrating? ==> procs[q].job != job
  }

  /** Once it has switched its server is not on the node, and only then does it end as completed. */
  ghost predicate CurrentOk(s: State, n: nat, c: Current) {
    && c.p < |s.procs| && c.job < |s.db.jobs| && OnlyUser(s.procs, c.p, c.job)
    && (c.switched ==> !On(s, c.sid, n))
    && (|| (s.procs[c.p].Migrating? && s.procs[c.p].job == c.job && s.procs[c.p].sid == c.sid
            && (Late(s.procs[c.p]) <==> c.switched))
        || (s.procs[c.p].Done? && (s.db.jobs[c.job].status.Completed? <==> c.switched)))
  }

  /** `n` is disabled and nobody is heading for it. */
  ghost predicate Closed(s: State, n: nat) {
    n < |s.db.nodes| && !s.db.nodes[n].enabled && NoneHeadingTo(s, n)
  }

  /** A step of another process leaves the migration's process and job alone. */
  ghost predicate Leaves(s: State, t: State, c: Current)
    requires c.p < |s.procs| && c.job < |s.db.jobs|
  {
    && c.p < |t.procs| && c.job < |t.db.jobs| && t.procs[c.p] == s.procs[c.p]
    && t.db.jobs[c.job].status == s.db.jobs[c.job].status && OnlyUser(t.procs, c.p, c.job)
  }

  lemma LeavingKeepsCurrent(s: State, t: State, n: nat, c: Current)
    requires CurrentOk(s, n, c) && Leaves(s, t, c) && TakesNobody(s, t, n)
    ensures CurrentOk(t, n, c)
  {
  }

  lemma BuyLeaves(s: State, e: Purchase, n: nat, c: Current)
    requires ProcsOk(s) && BusyOk(s) && CanBuy(s, e) && CurrentOk(s, n, c)
    ensures Leaves(s, BuyStep(s, e), c)
  {
  }

  lemma DelLeaves(s: State, e: Deletion, n: nat, c: Current)
    requires ProcsOk(s) && BusyOk(s) && CanDel(s, e) && CurrentOk(s, n, c)
    ensures Leaves(s, DelStep(s, e), c)
  {
  }

  /** Process `p`, a migration, goes on; its job row is the only one that changes. */
  ghost predicate GoesOn(s: State, t: State, p: nat)
    requires p < |s.procs| && s.procs[p].Migrating?
  {
    && |t.procs| == |s.procs| && |t.db.jobs| == |s.db.jobs|
    && (forall q :: 0 <= q < |s.procs| && q != p ==> t.procs[q] == s.procs[q])
    && (forall j :: 0 <= j < |s.db.jobs| && j != s.procs[p].job ==> t.db.jobs[j] == s.db.jobs[j])
    && (|| t.procs[p].Done?
        || (t.procs[p].Migrating? && t.procs[p].job == s.procs[p].job && t.procs[p].sid == s.procs[p].sid))
  }

  lemma AdvanceGoesOn(s: State, e: Move)
    requires ProcsOk(s) && BusyOk(s) && CanGo(s, e) && !e.StartMigration?
    ensures GoesOn(s, GoStep(s, e), e.p)
  {
    assert ProcOk(s.db, s.procs[e.p]);
  }

  lemma UnwindGoesOn(s: State, e: Retreat)
    requires ProcsOk(s) && BusyOk(s) && CanRetreat(s, e)
    ensures GoesOn(s, RetreatStep(s, e), e.p)
  {
    assert ProcOk(s.db, s.procs[e.p]);
  }

  lemma GoingOnLeaves(s: State, t: State, p: nat, n: nat, c: Current)
    requires p < |s.procs| && s.procs[p].Migrating? && GoesOn(s, t, p) && CurrentOk(s, n, c) && p != c.p
    ensures Leaves(s, t, c)
  {
  }

  lemma StartLeaves(s: State, sid: nat, n: nat, c: Current)
    requires ProcsOk(s) && BusyOk(s) && CanGo(s, StartMigration(sid)) && CurrentOk(s, n, c)
    ensures Leaves(s, GoStep(s, StartMigration(sid)), c)
  {
  }

  /** What the drain's own migration does at its next step. */
  lemma OwnStepKeepsCurrent(s: State, e: Move, n: nat, c: Current)
    requires Inv(s) && CanGo(s, e) && CurrentOk(s, n, c) && !e.StartMigration? && e.p == c.p && Closed(s, n)
    requires TakesNobody(s, GoStep(s, e), n) && !e.Switched?
    ensures CurrentOk(GoStep(s, e), n, c)
  {
    AdvanceGoesOn(s, e);
    assert ProcOk(s.db, s.procs[e.p]);
  }

  /** The switch takes the server to a node that is not being drained. */
  lemma SwitchKeepsCurrent(s: State, e: Move, n: nat, c: Current)
    requires Inv(s) && CanGo(s, e) && CurrentOk(s, n, c) && e.Switched? && e.p == c.p && Closed(s, n)
    ensures CurrentOk(GoStep(s, e), n, c.(switched := true))
  {
    AdvanceGoesOn(s, e);
    assert ProcOk(s.db, s.procs[e.p]);
    assert s.procs[c.p].InFlight() == Charge(s.procs[c.p].to, s.procs[c.p].amount);
  }

  lemma GoKeepsCurrent(s: State, e: Move, n: nat, c: Current)
    requires Inv(s) && CanGo(s, e) && CurrentOk(s, n, c) && Closed(s, n) && TakesNobody(s, GoStep(s, e), n)
    ensures CurrentOk(GoStep(s, e), n, Noting(c, Go(e)))
  {
    if e.StartMigration? {
      StartLeaves(s, e.sid, n, c);
      LeavingKeepsCurrent(s, GoStep(s, e), n, c);
    } else if e.p != c.p {
      AdvanceGoesOn(s, e);
      GoingOnLeaves(s, GoStep(s, e), e.p, n, c);
      LeavingKeepsCurrent(s, GoStep(s, e), n, c);
    } else if e.Switched? {
      SwitchKeepsCurrent(s, e, n, c);
    } else {
      OwnStepKeepsCurrent(s, e, n, c);
    }
  }

  lemma RetreatKeepsCurrent(s: State, e: Retreat, n: nat, c: Current)
    requires Inv(s) && CanRetreat(s, e) && CurrentOk(s, n, c) && e.p == c.p
    ensures CurrentOk(RetreatStep(s, e), n, c)
  {
    assert ProcOk(s.db, s.procs[e.p]);
  }

  lemma BackKeepsCurrent(s: State, e: Retreat, n: nat, c: Current)
    requires Inv(s) && CanRetreat(s, e) && CurrentOk(s, n, c) && TakesNobody(s, RetreatStep(s, e), n)
    ensures CurrentOk(RetreatStep(s, e), n, c)
  {
    if e.p != c.p {
      UnwindGoesOn(s, e);
      GoingOnLeaves(s, RetreatStep(s, e), e.p, n, c);
      LeavingKeepsCurrent(s, RetreatStep(s, e), n, c);
    } else {
      RetreatKeepsCurrent(s, e, n, c);
    }
  }

  lemma QuietKeepsCurrent(s: State, e: Event, n: nat, c: Current)
    requires Inv(s) && Enabled(s, e) && (e.Buy? || e.Del? || e.Out?) && CurrentOk(s, n, c)
    requires TakesNobody(s, Step(s, e), n)
    ensures CurrentOk(Step(s, e), n, c)
  {
    match e {
      case Buy(b) => BuyLeaves(s, b, n, c);
      case Del(d) => DelLeaves(s, d, n, c);
      case Out(_) =>
    }
    LeavingKeepsCurrent(s, Step(s, e), n, c);
  }

  lemma OthersKeepCurrent(s: State, e: Event, n: nat, c: Current)
    requires Inv(s) && Enabled(s, e) && Closed(s, n) && !Reenables(e, n) && CurrentOk(s, n, c)
    ensures CurrentOk(Step(s, e), n, Noting(c, e))
  {
    StepWhileDisabled(s, e, n);
    match e {
      case Go(m) => GoKeepsCurrent(s, m, n, c);
      case Back(r) => BackKeepsCurrent(s, r, n, c);
      case _ => QuietKeepsCurrent(s, e, n, c);
    }
  }

  // ---------- The results ----------

  function Names(results: seq<Result>): seq<nat> {
    seq(|results|, k requires 0 <= k < |results| => results[k].sid)
  }

  /** The servers without a result: the one whose migration is under way, and those to come. */
  function Ahead(d: Drain): seq<nat> {
    if d.current.Some? then [d.current.value.sid] + d.todo else d.todo
  }

  ghost predicate Reported(results: seq<Result>, sid: nat, moved: bool) {
    exists k :: 0 <= k < |results| && results[k] == Result(sid, moved)
  }

  /**
   Who is still on the node is still to come or reported as not moved; who is reported as moved is not
   on it; and exactly those are reported as moved whose migration took its switch.
   */
  ghost predicate ResultsOk(s: State, d: Drain) {
    && (forall sid: nat :: On(s, sid, d.node) ==> sid in Ahead(d) || Reported(d.results, sid, false))
    && (forall k :: 0 <= k < |d.results| && d.results[k].moved ==> !On(s, d.results[k].sid, d.node))
    && |d.took| == |d.results| && forall k :: 0 <= k < |d.results| ==> d.results[k].moved == d.took[k]
  }

  ghost predicate DrainOk(s: State, d: Drain, listed: seq<nat>) {
    && Inv(s) && Closed(s, d.node) && Names(d.results) + Ahead(d) == listed
    && (d.current.Some? ==> CurrentOk(s, d.node, d.current.value)) && ResultsOk(s, d)
  }

  lemma StepKeepsResults(s: State, t: State, d: Drain, u: Drain)
    requires ResultsOk(s, d) && TakesNobody(s, t, d.node) && u.node == d.node && u.results == d.results
    requires u.took == d.took && Ahead(u) == Ahead(d)
    ensures ResultsOk(t, u)
  {
  }

  lemma OthersKeepDrain(s: State, d: Drain, e: Event, listed: seq<nat>)
    requires DrainOk(s, d, listed) && CanAct(s, d, Others(e))
    ensures DrainOk(Step(s, e), DrainAfter(s, d, Others(e)), listed)
  {
    StepWhileDisabled(s, e, d.node);
    StepKeepsInv(s, e);
    StepKeepsResults(s, Step(s, e), d, DrainAfter(s, d, Others(e)));
    if d.current.Some? {
      OthersKeepCurrent(s, e, d.node, d.current.value);
    }
  }

  /** A result moves its server from what is ahead to what is reported. */
  lemma NamesAppend(results: seq<Result>, r: Result, rest: seq<nat>)
    ensures Names(results + [r]) + rest == Names(results) + ([r.sid] + rest)
  {
    assert Names(results + [r]) == Names(results) + [r.sid];
  }

  lemma ReportedAppend(results: seq<Result>, r: Result)
    ensures forall sid: nat, moved: bool ::
      Reported(results + [r], sid, moved) <==> Reported(results, sid, moved) || r == Result(sid, moved)
  {
    forall sid: nat, moved: bool | Reported(results, sid, moved) ensures Reported(results + [r], sid, moved) {
      var k :| 0 <= k < |results| && results[k] == Result(sid, moved);
      assert (results + [r])[k] == Result(sid, moved);
    }
    assert (results + [r])[|results|] == r;
  }

  lemma StartKeepsAhead(d: Drain, u: Drain)
    requires d.todo != [] && d.current.None? && u.todo == d.todo[1..]
    requires u.current.Some? && u.current.value.sid == d.todo[0]
    ensures Ahead(u) == Ahead(d)
  {
    assert [d.todo[0]] + d.todo[1..] == d.todo;
  }

  lemma StartKeepsDrain(s: State, d: Drain, listed: seq<nat>)
    requires DrainOk(s, d, listed) && CanAct(s, d, Next) && s.db.Live(d.todo[0])
    ensures DrainOk(StateAfter(s, d, Next), DrainAfter(s, d, Next), listed)
  {
    var e := Go(StartMigration(d.todo[0]));
    StepWhileDisabled(s, e, d.node);
    StepKeepsInv(s, e);
    var u := DrainAfter(s, d, Next);
    StartKeepsAhead(d, u);
    NewJobIsFresh(s, d.todo[0], d.node);
    StepKeepsResults(s, StateAfter(s, d, Next), d, u);
  }

  lemma NewJobIsFresh(s: State, sid: nat, n: nat)
    requires ProcsOk(s) && BusyOk(s) && CanGo(s, StartMigration(sid))
    ensures CurrentOk(GoStep(s, StartMigration(sid)), n, Current(|s.procs|, |s.db.jobs|, sid, false))
  {
    forall q | 0 <= q < |s.procs| && s.procs[q].Migrating? ensures s.procs[q].job < |s.db.jobs| {
      assert ProcOk(s.db, s.procs[q]);
    }
  }

  /** A server that is gone is reported as not moved. */
  lemma SkipKeepsDrain(s: State, d: Drain, listed: seq<nat>)
    requires DrainOk(s, d, listed) && CanAct(s, d, Next) && !s.db.Live(d.todo[0])
    ensures DrainOk(s, DrainAfter(s, d, Next), listed)
  {
    NamesAppend(d.results, Result(d.todo[0], false), d.todo[1..]);
    ReportedAppend(d.results, Result(d.todo[0], false));
    assert d.todo == [d.todo[0]] + d.todo[1..];
  }

  lemma CollectKeepsDrain(s: State, d: Drain, listed: seq<nat>)
    requires DrainOk(s, d, listed) && CanAct(s, d, Collect)
    ensures DrainOk(s, DrainAfter(s, d, Collect), listed)
  {
    var c := d.current.value;
    var r := Result(c.sid, s.db.jobs[c.job].status.Completed?);
    NamesAppend(d.results, r, d.todo);
    ReportedAppend(d.results, r);
  }

  lemma {:induction false} DrainKeepsOk(s: State, d: Drain, acts: seq<Action>, t: State, u: Drain, listed: seq<nat>)
    requires DrainOk(s, d, listed) && DrainReaches(s, d, acts, t, u)
    ensures DrainOk(t, u, listed)
    decreases |acts|
  {
    if acts != [] {
      match acts[0] {
        case Next =>
          if s.db.Live(d.todo[0]) { StartKeepsDrain(s, d, listed); } else { SkipKeepsDrain(s, d, listed); }
        case Collect => CollectKeepsDrain(s, d, listed);
        case Others(e) => OthersKeepDrain(s, d, e, listed);
      }
      DrainKeepsOk(StateAfter(s, d, acts[0]), DrainAfter(s, d, acts[0]), acts[1..], t, u, listed);
    }
  }

  /**
   A drain of a disabled node to which no migration was under way, amid any other operations that do
   not enable it again.  At its end each server it found there has one result, in order: a move if
   and only if its migration took the switch.  Those reported as moved are not on the node, those
   still on it are reported as not moved, and its counters are the sum of these: zero if every
   result is a move.
   */
  lemma DrainReports(s: State, n: nat, acts: seq<Action>, t: State, u: Drain)
    requires Reachable(s) && n < |s.db.nodes| && !s.db.nodes[n].enabled && NoneHeadingTo(s, n)
    requires DrainReaches(s, Drain(n, Residents(s.db.servers, n, |s.db.servers|), None, [], []), acts, t, u)
    requires u.todo == [] && u.current.None?
    ensures Names(u.results) == Residents(s.db.servers, n, |s.db.servers|)
    ensures |u.took| == |u.results| && forall k :: 0 <= k < |u.results| ==> (u.results[k].moved <==> u.took[k])
    ensures forall k :: 0 <= k < |u.results| && u.results[k].moved ==> !On(t, u.results[k].sid, n)
    ensures forall sid: nat :: On(t, sid, n) ==> Reported(u.results, sid, false)
    ensures n < |t.db.nodes| && t.db.nodes[n].reserved == Placed(t.db.servers, n)
    ensures (forall k :: 0 <= k < |u.results| ==> u.results[k].moved) ==> t.db.nodes[n].reserved == ZERO
  {
    var listed := Residents(s.db.servers, n, |s.db.servers|);
    var d := Drain(n, listed, None, [], []);
    BeginsOk(s, n);
    DrainKeepsOk(s, d, acts, t, u, listed);
    NodeStays(s, d, acts, t, u);
    NothingLeftToDo(t, u, listed);
    LeftOnNode(t, n);
  }

  /** What the results say once there is nothing left to do. */
  lemma NothingLeftToDo(t: State, u: Drain, listed: seq<nat>)
    requires ResultsOk(t, u) && Names(u.results) + Ahead(u) == listed
    requires u.todo == [] && u.current.None?
    ensures Names(u.results) == listed
    ensures forall sid: nat :: On(t, sid, u.node) ==> Reported(u.results, sid, false)
    ensures (forall k :: 0 <= k < |u.results| ==> u.results[k].moved) ==> forall sid: nat :: !On(t, sid, u.node)
  {
    assert Names(u.results) + [] == Names(u.results);
  }

  lemma BeginsOk(s: State, n: nat)
    requires Reachable(s) && Closed(s, n)
    ensures var listed := Residents(s.db.servers, n, |s.db.servers|); DrainOk(s, Drain(n, listed, None, [], []), listed)
  {
    var listed := Residents(s.db.servers, n, |s.db.servers|);
    ReachableHasInv(s);
    assert Names([]) + listed == listed;
  }

  lemma LeftOnNode(t: State, n: nat)
    requires Books(t.db, InFlights(t.procs)) && Closed(t, n)
    ensures t.db.nodes[n].reserved == Placed(t.db.servers, n)
    ensures t.db.nodes[n].reserved == ZERO <==> forall sid: nat :: !On(t, sid, n)
  {
    assert NobodyOn(InFlights(t.procs), n);
    ZeroIffEmpty(t.db, InFlights(t.procs), n);
    assert forall sid: nat :: On(t, sid, n) <==> OnNode(t.db, sid, n);
  }

  lemma {:induction false} NodeStays(s: State, d: Drain, acts: seq<Action>, t: State, u: Drain)
    requires DrainReaches(s, d, acts, t, u)
    ensures u.node == d.node
    decreases |acts|
  {
    if acts != [] {
      NodeStays(StateAfter(s, d, acts[0]), DrainAfter(s, d, acts[0]), acts[1..], t, u);
    }
  }
}
