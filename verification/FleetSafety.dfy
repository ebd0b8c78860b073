/**
 Every step keeps the invariant, so every reachable state satisfies it.  There is one lemma for each
 conjunct and each kind of step: a step changes its own process and the rows that process holds, and
 the rest of the tables is framed.
 */
module FleetSafety {
  import opened Wrappers
  import opened Resources
  import opened Scheduler
  import opened Ledger
  import opened Fleet

  // ---------- The books ----------

  ghost predicate Accounted(s: State) {
    Books(s.db, InFlights(s.procs)) && BusyOk(s) && ProcsOk(s)
  }

  ghost predicate SameRows(servers: seq<Option<Server>>, later: seq<Option<Server>>) {
    && |servers| == |later|
    && forall i :: 0 <= i < |servers| ==>
         ChargeOf(later[i]) == ChargeOf(servers[i]) && (later[i].Some? <==> servers[i].Some?)
  }

  /** Steps that move no charge keep the books. */
  lemma SameBooks(db: Db, inFlight: seq<Charge>, later: Db, laterInFlight: seq<Charge>)
    requires Books(db, inFlight) && later.nodes == db.nodes && SameRows(db.servers, later.servers)
    requires laterInFlight == inFlight || laterInFlight == inFlight + [FREE]
    ensures Books(later, laterInFlight)
  {
    assert Charges(later.servers) == Charges(db.servers);
    forall n: nat ensures Total(laterInFlight, n) == Total(inFlight, n) {
      TotalAppend(inFlight, FREE, n);
    }
    forall sid: nat | later.Live(sid)
      ensures later.servers[sid].value.node < |db.nodes| && later.servers[sid].value.amount.Positive()
    {
      assert db.Live(sid) && ChargeOf(later.servers[sid]) == ChargeOf(db.servers[sid]);
    }
  }

  lemma InFlightsPut(procs: seq<Proc>, p: nat, proc: Proc)
    requires p < |procs|
    ensures InFlights(procs[p := proc]) == InFlights(procs)[p := proc.InFlight()]
    ensures proc.InFlight() == procs[p].InFlight() ==> InFlights(procs[p := proc]) == InFlights(procs)
  {
  }

  lemma InFlightsAdd(procs: seq<Proc>, proc: Proc)
    ensures InFlights(procs + [proc]) == InFlights(procs) + [proc.InFlight()]
  {
  }

  lemma RollBackKeepsBooks(s: State, p: nat)
    requires Accounted(s) && CanBuy(s, RollBackPurchase(p))
    ensures var t := BuyStep(s, RollBackPurchase(p)); Books(t.db, InFlights(t.procs))
  {
    var t, fs, c := BuyStep(s, RollBackPurchase(p)), InFlights(s.procs), s.procs[p];
    assert ProcOk(s.db, c);
    InFlightsPut(s.procs, p, t.procs[p]);
    EraseKeepsBooks(s.db, fs, c.sid);
    SameBooks(Erase(s.db, c.sid, c.node, c.plan.amount), fs, t.db, fs);
  }

  lemma BuyKeepsBooks(s: State, e: Purchase)
    requires Accounted(s) && CanBuy(s, e)
    ensures var t := BuyStep(s, e); Books(t.db, InFlights(t.procs))
  {
    var t, fs := BuyStep(s, e), InFlights(s.procs);
    match e
    case StartPurchase(o, plan) =>
      InFlightsAdd(s.procs, Placing(o, plan, [], 0));
      SameBooks(s.db, fs, t.db, InFlights(t.procs));
    case PlaceOn(p, n, port, _) =>
      InFlightsPut(s.procs, p, t.procs[p]);
      PlaceKeepsBooks(s.db, fs, n, s.procs[p].plan, port, s.procs[p].order);
    case RollBackPurchase(p) => RollBackKeepsBooks(s, p);
    case _ =>
      InFlightsPut(s.procs, e.p, t.procs[e.p]);
      SameBooks(s.db, fs, t.db, InFlights(t.procs));
  }

  lemma DelKeepsBooks(s: State, e: Deletion)
    requires Accounted(s) && CanDel(s, e)
    ensures var t := DelStep(s, e); Books(t.db, InFlights(t.procs))
  {
    var t, fs := DelStep(s, e), InFlights(s.procs);
    match e
    case StartDelete(_) =>
      InFlightsAdd(s.procs, t.procs[|s.procs|]);
      SameBooks(s.db, fs, t.db, InFlights(t.procs));
    case AgentDelete(p, _) =>
      InFlightsPut(s.procs, p, t.procs[p]);
    case FinishDelete(p) =>
      InFlightsPut(s.procs, p, t.procs[p]);
      assert ProcOk(s.db, s.procs[p]);
      EraseKeepsBooks(s.db, fs, s.procs[p].sid);
  }

  lemma TargetTakenKeepsBooks(s: State, p: nat, n: nat, req: Request)
    requires Accounted(s) && CanGo(s, TargetTaken(p, n, req))
    ensures var t := GoStep(s, TargetTaken(p, n, req)); Books(t.db, InFlights(t.procs))
  {
    var c, fs := s.procs[p], InFlights(s.procs);
    assert ProcOk(s.db, c) && s.db.Live(c.sid);
    var taken, proc := TakeTarget(s.db, c.job, n, c.amount), c.(phase := Stopping, to := n);
    InFlightsPut(s.procs, p, proc);
    TakeTargetKeepsBooks(s.db, fs, p, c.job, n, c.amount);
    SameBooks(taken, fs[p := Charge(n, c.amount)], SetJob(taken, c.job, BackingUp), InFlights(s.procs[p := proc]));
  }

  lemma SwitchedKeepsBooks(db: Db, procs: seq<Proc>, p: nat)
    requires Books(db, InFlights(procs)) && p < |procs|
    requires procs[p].Migrating? && procs[p].phase.Handover? && ProcOk(db, procs[p])
    ensures var c := procs[p];
      Books(SwitchOver(db, c.sid, c.from, c.to, c.amount), InFlights(procs[p := c.(phase := CleaningUp)]))
  {
    var c, fs := procs[p], InFlights(procs);
    assert fs[p] == Charge(c.to, c.amount);
    SwitchKeepsBooks(db, fs, p, c.sid);
    InFlightsPut(procs, p, c.(phase := CleaningUp));
  }

  lemma QuietGoKeepsBooks(s: State, e: Move)
    requires Accounted(s) && CanGo(s, e) && !e.StartMigration? && !e.TargetTaken? && !e.Switched?
    ensures var t := GoStep(s, e); Books(t.db, InFlights(t.procs))
  {
    var t, fs := GoStep(s, e), InFlights(s.procs);
    QuietGoFrame(s, e);
    QuietGoOwn(s, e);
    InFlightsPut(s.procs, e.p, t.procs[e.p]);
    SameBooks(s.db, fs, t.db, InFlights(t.procs));
  }

  lemma GoKeepsBooks(s: State, e: Move)
    requires Accounted(s) && CanGo(s, e)
    ensures var t := GoStep(s, e); Books(t.db, InFlights(t.procs))
  {
    var fs := InFlights(s.procs);
    match e
    case StartMigration(_) =>
      var t := GoStep(s, e);
      InFlightsAdd(s.procs, t.procs[|s.procs|]);
      SameBooks(s.db, fs, t.db, InFlights(t.procs));
    case TargetTaken(p, n, req) => TargetTakenKeepsBooks(s, p, n, req);
    case Switched(p) => SwitchedKeepsBooks(s.db, s.procs, p);
    case _ => QuietGoKeepsBooks(s, e);
  }

  lemma TargetReleasedKeepsBooks(s: State, p: nat)
    requires Accounted(s) && CanRetreat(s, TargetReleased(p))
    ensures var t := RetreatStep(s, TargetReleased(p)); Books(t.db, InFlights(t.procs))
  {
    var c := s.procs[p];
    assert ProcOk(s.db, c);
    InFlightsPut(s.procs, p, c.(phase := WipingTarget));
    DischargeKeepsBooks(s.db, InFlights(s.procs), p);
  }

  lemma RetreatKeepsBooks(s: State, e: Retreat)
    requires Accounted(s) && CanRetreat(s, e)
    ensures var t := RetreatStep(s, e); Books(t.db, InFlights(t.procs))
  {
    if e.TargetReleased? {
      TargetReleasedKeepsBooks(s, e.p);
    } else {
      var t, fs := RetreatStep(s, e), InFlights(s.procs);
      assert ProcOk(s.db, s.procs[e.p]);
      InFlightsPut(s.procs, e.p, t.procs[e.p]);
      SameBooks(s.db, fs, t.db, InFlights(t.procs));
    }
  }

  lemma OutKeepsBooks(s: State, e: Outside)
    requires Accounted(s) && CanOut(s, e)
    ensures var t := OutStep(s, e); Books(t.db, InFlights(t.procs))
  {
    var t, fs := OutStep(s, e), InFlights(s.procs);
    match e
    case NodeChanges(n, _, _, _) =>
      assert forall sid: nat :: t.db.Live(sid) ==> s.db.Live(sid);
    case StatusSeen(_, _) => SameBooks(s.db, fs, t.db, fs);
  }

  // ---------- Processes ----------

  lemma BusySame(s: State, t: State, p: nat)
    requires BusyOk(s) && p < |s.procs| && t.busy == s.busy && |t.db.servers| == |s.db.servers|
    requires |t.procs| == |s.procs| && t.procs == s.procs[p := t.procs[p]]
    requires t.procs[p].Holds() == s.procs[p].Holds()
    ensures BusyOk(t)
  {
  }

  lemma BusyDrop(s: State, t: State, p: nat)
    requires BusyOk(s) && p < |s.procs| && |t.db.servers| == |s.db.servers| && s.procs[p].Holds().Some?
    requires t.busy == s.busy[s.procs[p].sid := None]
    requires |t.procs| == |s.procs| && t.procs == s.procs[p := t.procs[p]] && t.procs[p].Holds().None?
    ensures BusyOk(t)
  {
  }

  lemma BusyTake(s: State, t: State, sid: nat)
    requires BusyOk(s) && sid < |s.busy| && s.busy[sid].None? && |t.db.servers| == |s.db.servers|
    requires t.busy == s.busy[sid := Some(|s.procs|)]
    requires |t.procs| == |s.procs| + 1 && t.procs == s.procs + [t.procs[|s.procs|]]
    requires t.procs[|s.procs|].Holds() == Some(sid)
    ensures BusyOk(t)
  {
  }

  lemma BusyJoin(s: State, t: State)
    requires BusyOk(s) && t.busy == s.busy && |t.db.servers| == |s.db.servers|
    requires |t.procs| == |s.procs| + 1 && t.procs == s.procs + [t.procs[|s.procs|]]
    requires t.procs[|s.procs|].Holds().None?
    ensures BusyOk(t)
  {
  }

  lemma BusyPlace(s: State, t: State, p: nat)
    requires BusyOk(s) && p < |s.procs| && |t.db.servers| == |s.db.servers| + 1
    requires s.procs[p].Holds().None? && t.busy == s.busy + [Some(p)]
    requires |t.procs| == |s.procs| && t.procs == s.procs[p := t.procs[p]]
    requires t.procs[p].Holds() == Some(|s.db.servers|)
    ensures BusyOk(t)
  {
  }

  lemma BuyKeepsBusy(s: State, e: Purchase)
    requires Accounted(s) && CanBuy(s, e)
    ensures BusyOk(BuyStep(s, e))
  {
    var t := BuyStep(s, e);
    match e
    case StartPurchase(_, _) => BusyJoin(s, t);
    case PlaceOn(p, _, _, _) => BusyPlace(s, t, p);
    case BuildOk(p) => BusyDrop(s, t, p);
    case RollBackPurchase(p) => BusyDrop(s, t, p);
    case _ => BusySame(s, t, e.p);
  }

  lemma DelKeepsBusy(s: State, e: Deletion)
    requires Accounted(s) && CanDel(s, e)
    ensures BusyOk(DelStep(s, e))
  {
    var t := DelStep(s, e);
    match e
    case StartDelete(sid) => BusyTake(s, t, sid);
    case AgentDelete(p, _) => BusySame(s, t, p);
    case FinishDelete(p) => BusyDrop(s, t, p);
  }

  lemma GoKeepsBusy(s: State, e: Move)
    requires Accounted(s) && CanGo(s, e)
    ensures BusyOk(GoStep(s, e))
  {
    var t := GoStep(s, e);
    match e
    case StartMigration(sid) => BusyTake(s, t, sid);
    case MoveCompleted(p) => BusyDrop(s, t, p);
    case _ => BusySame(s, t, e.p);
  }

  lemma RetreatKeepsBusy(s: State, e: Retreat)
    requires Accounted(s) && CanRetreat(s, e)
    ensures BusyOk(RetreatStep(s, e))
  {
    var t := RetreatStep(s, e);
    match e
    case MoveRolledBack(p) => BusyDrop(s, t, p);
    case _ => BusySame(s, t, e.p);
  }

  /** What a process remembers stays true when its own rows are left alone. */
  lemma ProcFrame(db: Db, later: Db, c: Proc)
    requires ProcOk(db, c)
    requires |later.nodes| == |db.nodes| && |later.orders| == |db.orders|
    requires |later.servers| >= |db.servers| && |later.jobs| >= |db.jobs|
    requires c.Holds().Some? ==>
               later.Live(c.sid) && ChargeOf(later.servers[c.sid]) == ChargeOf(db.servers[c.sid])
    requires c.Migrating? ==> later.jobs[c.job] == db.jobs[c.job]
    requires c.Bought? && later.Live(c.sid) ==>
               db.Live(c.sid) && later.servers[c.sid].value.amount == db.servers[c.sid].value.amount
    ensures ProcOk(later, c)
  {
  }

  /** A step of process `p` that leaves the rows of every other process alone. */
  lemma OthersKeep(s: State, t: State, p: nat)
    requires Accounted(s) && p < |s.procs|
    requires |t.procs| == |s.procs| && t.procs == s.procs[p := t.procs[p]]
    requires |t.db.nodes| == |s.db.nodes| && |t.db.orders| == |s.db.orders|
    requires |t.db.servers| >= |s.db.servers| && |t.db.jobs| == |s.db.jobs|
    requires forall i :: 0 <= i < |s.db.servers| && s.procs[p].Holds() != Some(i) ==>
               t.db.servers[i] == s.db.servers[i]
    requires forall i :: 0 <= i < |s.db.servers| && t.db.Live(i) ==>
               s.db.Live(i) && t.db.servers[i].value.amount == s.db.servers[i].value.amount
    requires forall j :: 0 <= j < |s.db.jobs| && (s.procs[p].Migrating? ==> j != s.procs[p].job) ==>
               t.db.jobs[j] == s.db.jobs[j]
    requires ProcOk(t.db, t.procs[p])
    requires t.procs[p].Migrating? ==> s.procs[p].Migrating? && t.procs[p].job == s.procs[p].job
    ensures ProcsOk(t)
  {
    forall q | 0 <= q < |s.procs| && q != p ensures ProcOk(t.db, t.procs[q]) {
      assert ProcOk(s.db, s.procs[q]);
      ProcFrame(s.db, t.db, s.procs[q]);
    }
  }

  /** A new process joins; server rows change in status only. */
  lemma JoinKeepsProcs(s: State, t: State)
    requires Accounted(s) && |t.procs| == |s.procs| + 1 && t.procs == s.procs + [t.procs[|s.procs|]]
    requires t.db.nodes == s.db.nodes && t.db.orders == s.db.orders && SameRows(s.db.servers, t.db.servers)
    requires s.db.jobs <= t.db.jobs
    requires ProcOk(t.db, t.procs[|s.procs|])
    requires t.procs[|s.procs|].Migrating? ==> t.procs[|s.procs|].job == |s.db.jobs|
    ensures ProcsOk(t)
  {
    forall q | 0 <= q < |s.procs| ensures ProcOk(t.db, t.procs[q]) {
      assert ProcOk(s.db, s.procs[q]);
      var c := s.procs[q];
      if c.Bought? { assert ChargeOf(t.db.servers[c.sid]) == ChargeOf(s.db.servers[c.sid]); }
      ProcFrame(s.db, t.db, c);
    }
  }

  lemma BuyKeepsProcs(s: State, e: Purchase)
    requires Accounted(s) && CanBuy(s, e)
    ensures ProcsOk(BuyStep(s, e))
  {
    var t := BuyStep(s, e);
    if e.StartPurchase? {
      JoinKeepsProcs(s, t);
    } else {
      assert ProcOk(s.db, s.procs[e.p]);
      BuyerGoesOn(s, e);
      OthersKeep(s, t, e.p);
    }
  }

  lemma BuyerGoesOn(s: State, e: Purchase)
    requires ProcsOk(s) && BusyOk(s) && CanBuy(s, e) && !e.StartPurchase?
    ensures ProcOk(BuyStep(s, e).db, BuyStep(s, e).procs[e.p]) && !BuyStep(s, e).procs[e.p].Migrating?
  {
    assert ProcOk(s.db, s.procs[e.p]);
  }

  lemma DelKeepsProcs(s: State, e: Deletion)
    requires Accounted(s) && CanDel(s, e)
    ensures ProcsOk(DelStep(s, e))
  {
    var t := DelStep(s, e);
    if e.StartDelete? {
      JoinKeepsProcs(s, t);
    } else {
      assert ProcOk(s.db, s.procs[e.p]);
      OthersKeep(s, t, e.p);
    }
  }

  lemma RowsMovedKeepsProcs(s: State, e: Move)
    requires Accounted(s) && CanGo(s, e) && (e.TargetTaken? || e.Switched?)
    ensures ProcsOk(GoStep(s, e))
  {
    assert ProcOk(s.db, s.procs[e.p]);
    OthersKeep(s, GoStep(s, e), e.p);
  }

  lemma QuietGoKeepsProcs(s: State, e: Move)
    requires Accounted(s) && CanGo(s, e) && !e.StartMigration? && !e.TargetTaken? && !e.Switched?
    ensures ProcsOk(GoStep(s, e))
  {
    assert ProcOk(s.db, s.procs[e.p]);
    QuietGoFrame(s, e);
    QuietGoOwn(s, e);
    OthersKeep(s, GoStep(s, e), e.p);
  }

  /** Between reservation and switch a migration writes no node row and no server row. */
  lemma QuietGoFrame(s: State, e: Move)
    requires ProcsOk(s) && BusyOk(s) && CanGo(s, e) && !e.StartMigration? && !e.TargetTaken? && !e.Switched?
    ensures var t := GoStep(s, e);
      && t.db.servers == s.db.servers && t.db.nodes == s.db.nodes && t.db.orders == s.db.orders
      && |t.procs| == |s.procs| && t.procs == s.procs[e.p := t.procs[e.p]]
      && |t.db.jobs| == |s.db.jobs|
      && (forall j :: 0 <= j < |s.db.jobs| && j != s.procs[e.p].job ==> t.db.jobs[j] == s.db.jobs[j])
  {
    assert ProcOk(s.db, s.procs[e.p]);
  }

  predicate Late(phase: Phase) {
    phase.CleaningUp? || phase.Completing?
  }

  /** The phase goes on within its side of the switch. */
  predicate Forward(from: Phase, to: Phase) {
    && !from.Starting? && !to.Starting? && Before(to) == Before(from) && Late(to) == Late(from)
    && !to.Catching? && !to.RollingBack? && !to.Freeing? && !to.Discharging?
    && !from.Catching? && !from.RollingBack? && !from.Freeing? && !from.Discharging?
  }

  /** The migration's process is done, or has gone forward in its phase alone. */
  ghost predicate StepsForward(c: Proc, d: Proc) {
    && c.Migrating?
    && (|| (d.Done? && c.phase.Completing?)
        || (d.Migrating? && d == c.(phase := d.phase) && Forward(c.phase, d.phase)))
  }

  lemma BeforeSwitchForward(s: State, e: Move)
    requires ProcsOk(s) && BusyOk(s) && CanGo(s, e) && (e.SourceStopped? || e.Archived? || e.TargetClaimed?)
    ensures StepsForward(s.procs[e.p], GoStep(s, e).procs[e.p])
  {
  }

  lemma OnTargetForward(s: State, e: Move)
    requires ProcsOk(s) && BusyOk(s) && CanGo(s, e) && (e.TargetCreated? || e.TargetRestored?)
    ensures StepsForward(s.procs[e.p], GoStep(s, e).procs[e.p])
  {
  }

  lemma AfterSwitchForward(s: State, e: Move)
    requires ProcsOk(s) && BusyOk(s) && CanGo(s, e) && (e.SourceWiped? || e.MoveCompleted?)
    ensures StepsForward(s.procs[e.p], GoStep(s, e).procs[e.p])
  {
  }

  lemma QuietGoPhase(s: State, e: Move)
    requires ProcsOk(s) && BusyOk(s) && CanGo(s, e) && !e.StartMigration? && !e.TargetTaken? && !e.Switched?
    ensures StepsForward(s.procs[e.p], GoStep(s, e).procs[e.p])
  {
    if e.SourceStopped? || e.Archived? || e.TargetClaimed? {
      BeforeSwitchForward(s, e);
    } else if e.TargetCreated? || e.TargetRestored? {
      OnTargetForward(s, e);
    } else {
      AfterSwitchForward(s, e);
    }
  }

  lemma QuietGoJob(s: State, e: Move)
    requires ProcsOk(s) && BusyOk(s) && CanGo(s, e) && !e.StartMigration? && !e.TargetTaken? && !e.Switched?
    ensures var (j, t) := (s.procs[e.p].job, GoStep(s, e));
      j < |s.db.jobs| == |t.db.jobs| && t.db.jobs[j].from == s.db.jobs[j].from && t.db.jobs[j].to == s.db.jobs[j].to
  {
    assert ProcOk(s.db, s.procs[e.p]);
  }

  lemma ForwardKeepsOk(db: Db, later: Db, c: Proc, phase: Phase)
    requires ProcOk(db, c) && c.Migrating? && Forward(c.phase, phase)
    requires later.servers == db.servers && later.nodes == db.nodes && |later.jobs| == |db.jobs|
    requires later.jobs[c.job].from == db.jobs[c.job].from && later.jobs[c.job].to == db.jobs[c.job].to
    ensures ProcOk(later, c.(phase := phase)) && c.(phase := phase).InFlight() == c.InFlight()
  {
  }

  lemma QuietGoOwn(s: State, e: Move)
    requires ProcsOk(s) && BusyOk(s) && CanGo(s, e) && !e.StartMigration? && !e.TargetTaken? && !e.Switched?
    ensures var t := GoStep(s, e);
      && ProcOk(t.db, t.procs[e.p]) && t.procs[e.p].InFlight() == s.procs[e.p].InFlight()
      && (t.procs[e.p].Migrating? ==> t.procs[e.p].job == s.procs[e.p].job)
  {
    var t, c := GoStep(s, e), s.procs[e.p];
    assert ProcOk(s.db, c);
    QuietGoFrame(s, e);
    QuietGoPhase(s, e);
    QuietGoJob(s, e);
    if !t.procs[e.p].Done? {
      ForwardKeepsOk(s.db, t.db, c, t.procs[e.p].phase);
    }
  }

  lemma GoKeepsProcs(s: State, e: Move)
    requires Accounted(s) && CanGo(s, e)
    ensures ProcsOk(GoStep(s, e))
  {
    if e.StartMigration? {
      JoinKeepsProcs(s, GoStep(s, e));
    } else if e.TargetTaken? || e.Switched? {
      RowsMovedKeepsProcs(s, e);
    } else {
      QuietGoKeepsProcs(s, e);
    }
  }

  lemma RetreatKeepsProcs(s: State, e: Retreat)
    requires Accounted(s) && CanRetreat(s, e)
    ensures ProcsOk(RetreatStep(s, e))
  {
    var t := RetreatStep(s, e);
    assert ProcOk(s.db, s.procs[e.p]);
    OthersKeep(s, t, e.p);
  }

  lemma OutKeepsProcs(s: State, e: Outside)
    requires Accounted(s) && CanOut(s, e)
    ensures ProcsOk(OutStep(s, e))
  {
    var t := OutStep(s, e);
    forall q | 0 <= q < |t.procs| ensures ProcOk(t.db, t.procs[q]) {
      assert ProcOk(s.db, s.procs[q]);
      ProcFrame(s.db, t.db, s.procs[q]);
    }
  }

  // ---------- Migration steps that leave server rows and ports alone ----------

  predicate Loud(e: Move) {
    e.StartMigration? || e.TargetClaimed? || e.Switched?
  }

  /** What the quiet steps of a migration have in common. */
  ghost predicate Quiet(s: State, t: State, p: nat) {
    && p < |s.procs| && s.procs[p].Migrating? && |t.procs| == |s.procs|
    && t.procs == s.procs[p := t.procs[p]]
    && t.db.servers == s.db.servers && t.db.ports == s.db.ports && t.makers == s.makers
    && var c, d := s.procs[p], t.procs[p];
    && (d.Migrating? || d.Done?)
    && (d.Migrating? ==> d.sid == c.sid && t.busy == s.busy)
    && (d.Done? ==> !c.MayHavePort() && c.sid < |s.busy| && t.busy == s.busy[c.sid := None])
    && (d.HasPort() ==> c.HasPort() && d.to == c.to)
    && (c.MayHavePort() ==> d.MayHavePort() && d.to == c.to)
    && (d.Migrating? && d.phase.Handover? ==> (d.to, d.sid) in t.worlds)
    && (forall n: nat, sid: nat ::
          ((n, sid) in s.worlds && (sid == c.sid && s.db.Live(sid) ==> n == s.db.servers[sid].value.node)) ==>
            (n, sid) in t.worlds)
  }

  lemma EarlyIsQuiet(s: State, e: Move)
    requires Accounted(s) && CanGo(s, e) && (e.TargetTaken? || e.SourceStopped? || e.Archived?)
    ensures Quiet(s, GoStep(s, e), e.p)
  {
    assert ProcOk(s.db, s.procs[e.p]);
  }

  lemma LateIsQuiet(s: State, e: Move)
    requires Accounted(s) && CanGo(s, e)
    requires e.TargetCreated? || e.TargetRestored? || e.SourceWiped? || e.MoveCompleted?
    ensures Quiet(s, GoStep(s, e), e.p)
  {
    assert ProcOk(s.db, s.procs[e.p]);
  }

  lemma GoIsQuiet(s: State, e: Move)
    requires Accounted(s) && CanGo(s, e) && !Loud(e)
    ensures Quiet(s, GoStep(s, e), e.p)
  {
    if e.TargetTaken? || e.SourceStopped? || e.Archived? {
      EarlyIsQuiet(s, e);
    } else {
      LateIsQuiet(s, e);
    }
  }

  lemma RetreatIsQuiet(s: State, e: Retreat)
    requires Accounted(s) && CanRetreat(s, e) && !e.TargetFreed?
    ensures Quiet(s, RetreatStep(s, e), e.p)
  {
    assert ProcOk(s.db, s.procs[e.p]);
  }

  lemma QuietKeepsPorts(s: State, t: State, p: nat)
    requires Quiet(s, t, p) && BusyOk(s) && BusyOk(t) && PortsOk(s)
    ensures PortsOk(t)
  {
  }

  lemma QuietKeepsWhole(s: State, t: State, p: nat)
    requires Quiet(s, t, p) && BusyOk(s) && BusyOk(t) && Whole(s)
    ensures Whole(t)
  {
  }

  lemma QuietKeepsMakers(s: State, t: State, p: nat)
    requires Quiet(s, t, p) && MakersOk(s)
    ensures MakersOk(t)
  {
  }

  // ---------- Ports ----------

  /** Steps that touch no port, no server's place and no migration that may own one. */
  lemma PortsFrame(s: State, t: State)
    requires BusyOk(s) && BusyOk(t) && PortsOk(s)
    requires t.db.ports == s.db.ports && SameRows(s.db.servers, t.db.servers)
    requires forall sid: nat, n: nat :: sid < |s.busy| && Heading(s, sid, n) ==> Heading(t, sid, n)
    requires forall p :: 0 <= p < |t.procs| && t.procs[p].HasPort() ==> p < |s.procs| && t.procs[p] == s.procs[p]
    ensures PortsOk(t)
  {
    forall sid: nat | t.db.Live(sid) ensures Owns(t.db.ports, sid, t.db.servers[sid].value.node) {
      assert ChargeOf(t.db.servers[sid]) == ChargeOf(s.db.servers[sid]);
    }
    forall p | 0 <= p < |t.db.ports| && t.db.ports[p].owner.Some?
      ensures var (sid, n) := (t.db.ports[p].owner.value, t.db.ports[p].node);
        t.db.Live(sid) && (n == t.db.servers[sid].value.node || Heading(t, sid, n))
    {
      var sid := t.db.ports[p].owner.value;
      assert ChargeOf(t.db.servers[sid]) == ChargeOf(s.db.servers[sid]);
    }
  }

  lemma PlaceOnKeepsPorts(s: State, t: State, p: nat, port: nat, row: Server)
    requires BusyOk(s) && PortsOk(s) && BusyOk(t)
    requires p < |s.procs| && s.procs[p].Placing? && FreePort(s.db.ports, port, row.node)
    requires t.db.servers == s.db.servers + [Some(row)] && t.db.ports == Claim(s.db.ports, port, |s.db.servers|)
    requires |t.procs| == |s.procs| && t.procs == s.procs[p := t.procs[p]] && t.procs[p].Building?
    requires t.busy == s.busy + [Some(p)]
    ensures PortsOk(t)
  {
    forall sid: nat | t.db.Live(sid) ensures Owns(t.db.ports, sid, t.db.servers[sid].value.node) {
      if sid < |s.db.servers| {
        assert s.db.Live(sid);
        OwnsFrame(s.db.ports, t.db.ports, sid, t.db.servers[sid].value.node);
      } else {
        assert t.db.ports[port].owner == Some(sid);
      }
    }
    forall q | 0 <= q < |t.procs| && t.procs[q].HasPort() ensures Owns(t.db.ports, t.procs[q].sid, t.procs[q].to) {
      assert t.procs[q] == s.procs[q];
      OwnsFrame(s.db.ports, t.db.ports, t.procs[q].sid, t.procs[q].to);
    }
  }

  lemma GivingBackFrees(ports: seq<Port>, sid: nat, on: Option<nat>)
    requires PrimaryIffOwned(ports) && OnePerNode(ports)
    ensures PrimaryIffOwned(GiveBack(ports, sid, on)) && OnePerNode(GiveBack(ports, sid, on))
  {
  }

  /** A server gives back its ports, or those on one node, and what it keeps is on its own node. */
  lemma GiveBackKeepsPorts(s: State, t: State, sid: nat, on: Option<nat>)
    requires BusyOk(s) && BusyOk(t) && PortsOk(s) && |t.db.servers| == |s.db.servers|
    requires t.db.ports == GiveBack(s.db.ports, sid, on)
    requires forall i: nat :: i < |s.db.servers| && i != sid ==> t.db.servers[i] == s.db.servers[i]
    requires forall i: nat, n: nat :: i < |s.busy| && i != sid && Heading(s, i, n) ==> Heading(t, i, n)
    requires forall p :: 0 <= p < |t.procs| && t.procs[p].HasPort() ==>
               p < |s.procs| && t.procs[p] == s.procs[p] && t.procs[p].sid != sid
    requires forall p :: 0 <= p < |t.db.ports| && t.db.ports[p].owner == Some(sid) ==>
               t.db.Live(sid) && t.db.ports[p].node == t.db.servers[sid].value.node
    requires t.db.Live(sid) ==>
      on.Some? && t.db.servers[sid].value.node != on.value && Owns(s.db.ports, sid, t.db.servers[sid].value.node)
    ensures PortsOk(t)
  {
    GivingBackFrees(s.db.ports, sid, on);
    forall i: nat | t.db.Live(i) ensures Owns(t.db.ports, i, t.db.servers[i].value.node) {
      OwnsFrame(s.db.ports, t.db.ports, i, t.db.servers[i].value.node);
    }
    forall q | 0 <= q < |t.procs| && t.procs[q].HasPort() ensures Owns(t.db.ports, t.procs[q].sid, t.procs[q].to) {
      OwnsFrame(s.db.ports, t.db.ports, t.procs[q].sid, t.procs[q].to);
    }
  }

  /** The process of a deleted server gives all its ports back. */
  lemma EraseKeepsPorts(s: State, t: State, p: nat)
    requires BusyOk(s) && PortsOk(s) && BusyOk(t)
    requires p < |s.procs| && (s.procs[p].Unplacing? || s.procs[p].Erasing?)
    requires var c := s.procs[p];
      && c.sid < |s.db.servers| && t.db.ports == GiveBack(s.db.ports, c.sid, None)
      && t.db.servers == s.db.servers[c.sid := None] && c.sid < |s.busy| && t.busy == s.busy[c.sid := None]
    requires |t.procs| == |s.procs| && t.procs == s.procs[p := t.procs[p]] && !t.procs[p].Migrating?
    ensures PortsOk(t)
  {
    GiveBackKeepsPorts(s, t, s.procs[p].sid, None);
  }

  lemma QuietBuyKeepsPorts(s: State, e: Purchase)
    requires Accounted(s) && PortsOk(s) && CanBuy(s, e) && BusyOk(BuyStep(s, e))
    requires !e.PlaceOn? && !e.RollBackPurchase?
    ensures PortsOk(BuyStep(s, e))
  {
    QuietBuyFrame(s, e);
    QuietBuyHeads(s, e);
    PortsFrame(s, BuyStep(s, e));
  }

  lemma QuietBuyHeads(s: State, e: Purchase)
    requires ProcsOk(s) && BusyOk(s) && CanBuy(s, e) && BusyOk(BuyStep(s, e)) && !e.PlaceOn? && !e.RollBackPurchase?
    ensures var t := BuyStep(s, e);
      forall sid: nat, n: nat :: sid < |s.busy| && Heading(s, sid, n) ==> sid < |t.busy| && Heading(t, sid, n)
  {
  }

  lemma QuietBuyFrame(s: State, e: Purchase)
    requires ProcsOk(s) && BusyOk(s) && CanBuy(s, e) && BusyOk(BuyStep(s, e)) && !e.PlaceOn? && !e.RollBackPurchase?
    ensures var t := BuyStep(s, e);
      && t.db.ports == s.db.ports && SameRows(s.db.servers, t.db.servers)
      && forall p :: 0 <= p < |t.procs| && t.procs[p].HasPort() ==> p < |s.procs| && t.procs[p] == s.procs[p]
  {
  }

  lemma BuyKeepsPorts(s: State, e: Purchase)
    requires Accounted(s) && PortsOk(s) && CanBuy(s, e) && BusyOk(BuyStep(s, e))
    ensures PortsOk(BuyStep(s, e))
  {
    match e
    case PlaceOn(p, n, port, _) =>
      var plan := s.procs[p].plan;
      PlaceOnKeepsPorts(s, BuyStep(s, e), p, port, Server(n, plan.amount, plan.template, Provisioning));
    case RollBackPurchase(p) => EraseKeepsPorts(s, BuyStep(s, e), p);
    case _ => QuietBuyKeepsPorts(s, e);
  }

  lemma DelKeepsPorts(s: State, e: Deletion)
    requires Accounted(s) && PortsOk(s) && CanDel(s, e) && BusyOk(DelStep(s, e))
    ensures PortsOk(DelStep(s, e))
  {
    if e.FinishDelete? {
      EraseKeepsPorts(s, DelStep(s, e), e.p);
    } else {
      PortsFrame(s, DelStep(s, e));
    }
  }

  /** What the migration steps that move ports have in common. */
  ghost predicate Moves(s: State, t: State, p: nat) {
    && p < |s.procs| && s.procs[p].Migrating? && |t.procs| == |s.procs|
    && t.procs == s.procs[p := t.procs[p]] && t.busy == s.busy
    && var c, d := s.procs[p], t.procs[p];
    && d.Migrating? && d.sid == c.sid && d.to == c.to && c.to != c.from && s.db.Live(c.sid)
    && s.db.servers[c.sid].value.node == c.from
  }

  /** The claim lands on a free port of a node where the server has none yet. */
  lemma TargetClaimedKeepsPorts(s: State, t: State, p: nat, port: nat)
    requires BusyOk(s) && PortsOk(s) && BusyOk(t) && Moves(s, t, p)
    requires s.procs[p].phase.Claiming? && t.procs[p].phase.Creating? && FreePort(s.db.ports, port, s.procs[p].to)
    requires t.db.ports == Claim(s.db.ports, port, s.procs[p].sid) && t.db.servers == s.db.servers
    ensures PortsOk(t)
  {
    var c := s.procs[p];
    assert t.db.ports[port].owner == Some(c.sid) && t.db.ports[port].node == c.to;
    assert OnePerNode(t.db.ports) by {
      assert !Heading(s, c.sid, c.to);
      assert forall q :: 0 <= q < |s.db.ports| && s.db.ports[q].owner == Some(c.sid) ==> s.db.ports[q].node != c.to;
    }
    forall sid: nat | t.db.Live(sid) ensures Owns(t.db.ports, sid, t.db.servers[sid].value.node) {
      assert s.db.Live(sid);
      OwnsFrame(s.db.ports, t.db.ports, sid, t.db.servers[sid].value.node);
    }
    forall q | 0 <= q < |t.procs| && t.procs[q].HasPort() ensures Owns(t.db.ports, t.procs[q].sid, t.procs[q].to) {
      if q != p {
        assert t.procs[q] == s.procs[q];
        OwnsFrame(s.db.ports, t.db.ports, t.procs[q].sid, t.procs[q].to);
      }
    }
  }

  /** After the switch the target port is the server's own and the source port is free. */
  lemma SwitchedKeepsPorts(s: State, t: State, p: nat)
    requires BusyOk(s) && PortsOk(s) && BusyOk(t) && Moves(s, t, p)
    requires s.procs[p].phase.Handover? && t.procs[p].phase.CleaningUp?
    requires var c := s.procs[p];
      && t.db.ports == GiveBack(s.db.ports, c.sid, Some(c.from))
      && t.db.servers == s.db.servers[c.sid := t.db.servers[c.sid]]
      && t.db.servers[c.sid].Some? && t.db.servers[c.sid].value.node == c.to
    ensures PortsOk(t)
  {
    GiveBackKeepsPorts(s, t, s.procs[p].sid, Some(s.procs[p].from));
  }

  /** The catch block gives the target port back. */
  lemma TargetFreedKeepsPorts(s: State, t: State, p: nat)
    requires BusyOk(s) && PortsOk(s) && BusyOk(t) && Moves(s, t, p)
    requires s.procs[p].phase.Freeing? && t.procs[p].phase.Discharging?
    requires t.db.ports == GiveBack(s.db.ports, s.procs[p].sid, Some(s.procs[p].to))
    requires t.db.servers == s.db.servers
    ensures PortsOk(t)
  {
    GiveBackKeepsPorts(s, t, s.procs[p].sid, Some(s.procs[p].to));
  }

  lemma ClaimedOrSwitchedKeepsPorts(s: State, e: Move)
    requires Accounted(s) && PortsOk(s) && CanGo(s, e) && BusyOk(GoStep(s, e))
    requires e.TargetClaimed? || e.Switched?
    ensures PortsOk(GoStep(s, e))
  {
    assert ProcOk(s.db, s.procs[e.p]);
    if e.Switched? {
      SwitchedKeepsPorts(s, GoStep(s, e), e.p);
    } else {
      TargetClaimedKeepsPorts(s, GoStep(s, e), e.p, e.port);
    }
  }

  lemma LoudKeepsPorts(s: State, e: Move)
    requires Accounted(s) && PortsOk(s) && CanGo(s, e) && Loud(e) && BusyOk(GoStep(s, e))
    ensures PortsOk(GoStep(s, e))
  {
    if e.StartMigration? {
      PortsFrame(s, GoStep(s, e));
    } else {
      ClaimedOrSwitchedKeepsPorts(s, e);
    }
  }

  lemma GoKeepsPorts(s: State, e: Move)
    requires Accounted(s) && PortsOk(s) && CanGo(s, e) && BusyOk(GoStep(s, e))
    ensures PortsOk(GoStep(s, e))
  {
    if Loud(e) {
      LoudKeepsPorts(s, e);
    } else {
      GoIsQuiet(s, e);
      QuietKeepsPorts(s, GoStep(s, e), e.p);
    }
  }

  lemma RetreatKeepsPorts(s: State, e: Retreat)
    requires Accounted(s) && PortsOk(s) && CanRetreat(s, e) && BusyOk(RetreatStep(s, e))
    ensures PortsOk(RetreatStep(s, e))
  {
    if e.TargetFreed? {
      assert ProcOk(s.db, s.procs[e.p]);
      TargetFreedKeepsPorts(s, RetreatStep(s, e), e.p);
    } else {
      RetreatIsQuiet(s, e);
      QuietKeepsPorts(s, RetreatStep(s, e), e.p);
    }
  }

  lemma OutKeepsPorts(s: State, e: Outside)
    requires Accounted(s) && PortsOk(s) && CanOut(s, e) && BusyOk(OutStep(s, e))
    ensures PortsOk(OutStep(s, e))
  {
    PortsFrame(s, OutStep(s, e));
  }

  // ---------- Worlds ----------

  lemma BuyKeepsWhole(s: State, e: Purchase)
    requires Accounted(s) && Whole(s) && CanBuy(s, e) && BusyOk(BuyStep(s, e))
    ensures Whole(BuyStep(s, e))
  {
    if e.PlaceOn? {
      PlaceOnKeepsWhole(s, e.p, e.n, e.port, e.req);
    } else if e.BuildOk? || e.RollBackPurchase? {
      BuildKeepsWhole(s, e);
    }
  }

  lemma PlaceOnKeepsWhole(s: State, p: nat, n: nat, port: nat, req: Request)
    requires var e := PlaceOn(p, n, port, req); Accounted(s) && Whole(s) && CanBuy(s, e) && BusyOk(BuyStep(s, e))
    ensures Whole(BuyStep(s, PlaceOn(p, n, port, req)))
  {
  }

  lemma RollBackKeepsWhole(s: State, p: nat)
    requires Accounted(s) && Whole(s) && CanBuy(s, RollBackPurchase(p)) && BusyOk(BuyStep(s, RollBackPurchase(p)))
    ensures Whole(BuyStep(s, RollBackPurchase(p)))
  {
  }

  lemma BuildOkKeepsWhole(s: State, p: nat)
    requires Accounted(s) && Whole(s) && CanBuy(s, BuildOk(p)) && BusyOk(BuyStep(s, BuildOk(p)))
    ensures Whole(BuyStep(s, BuildOk(p)))
  {
  }

  lemma BuildKeepsWhole(s: State, e: Purchase)
    requires Accounted(s) && Whole(s) && CanBuy(s, e) && BusyOk(BuyStep(s, e)) && (e.BuildOk? || e.RollBackPurchase?)
    ensures Whole(BuyStep(s, e))
  {
    if e.BuildOk? { BuildOkKeepsWhole(s, e.p); } else { RollBackKeepsWhole(s, e.p); }
  }

  lemma DelKeepsWhole(s: State, e: Deletion)
    requires Accounted(s) && Whole(s) && CanDel(s, e) && BusyOk(DelStep(s, e))
    ensures Whole(DelStep(s, e))
  {
    if !e.StartDelete? {
      assert ProcOk(s.db, s.procs[e.p]);
    }
  }

  lemma LoudKeepsWhole(s: State, e: Move)
    requires Accounted(s) && Whole(s) && CanGo(s, e) && Loud(e) && BusyOk(GoStep(s, e))
    ensures Whole(GoStep(s, e))
  {
    if e.Switched? {
      assert ProcOk(s.db, s.procs[e.p]);
    }
  }

  lemma GoKeepsWhole(s: State, e: Move)
    requires Accounted(s) && Whole(s) && CanGo(s, e) && BusyOk(GoStep(s, e))
    ensures Whole(GoStep(s, e))
  {
    if Loud(e) {
      LoudKeepsWhole(s, e);
    } else {
      GoIsQuiet(s, e);
      QuietKeepsWhole(s, GoStep(s, e), e.p);
    }
  }

  lemma RetreatKeepsWhole(s: State, e: Retreat)
    requires Accounted(s) && Whole(s) && CanRetreat(s, e) && BusyOk(RetreatStep(s, e))
    ensures Whole(RetreatStep(s, e))
  {
    if !e.TargetFreed? {
      RetreatIsQuiet(s, e);
      QuietKeepsWhole(s, RetreatStep(s, e), e.p);
    }
  }

  lemma OutKeepsWhole(s: State, e: Outside)
    requires Accounted(s) && Whole(s) && CanOut(s, e) && BusyOk(OutStep(s, e))
    ensures Whole(OutStep(s, e))
  {
  }

  // ---------- Makers ----------

  /** A purchase that has written its row goes on with it, or takes it out again. */
  ghost predicate KeepsItsRow(s: State, t: State, p: nat) {
    && p < |s.procs| && |t.procs| == |s.procs| && t.procs == s.procs[p := t.procs[p]]
    && |t.db.servers| == |s.db.servers| && t.makers == s.makers
    && (forall sid: nat :: t.db.Live(sid) ==> s.db.Live(sid))
    && (forall sid: nat :: t.db.Live(sid) && Made(s, sid, p) ==> Made(t, sid, p))
    && (t.procs[p].Building? || t.procs[p].Unplacing? ==> s.procs[p].Building? && t.procs[p].sid == s.procs[p].sid)
  }

  lemma MakersFrame(s: State, t: State, p: nat)
    requires MakersOk(s) && KeepsItsRow(s, t, p)
    ensures MakersOk(t)
  {
  }

  lemma BuildKeepsItsRow(s: State, e: Purchase)
    requires Accounted(s) && CanBuy(s, e) && (e.BuildOk? || e.BuildFails? || e.RollBackPurchase?)
    ensures KeepsItsRow(s, BuyStep(s, e), e.p)
  {
    assert ProcOk(s.db, s.procs[e.p]);
  }

  lemma TryKeepsItsRow(s: State, e: Purchase)
    requires Accounted(s) && CanBuy(s, e) && (e.PlaceFails? || e.NoCapacity? || e.GiveUp?)
    ensures KeepsItsRow(s, BuyStep(s, e), e.p)
  {
  }

  lemma NewRowKeepsMakers(s: State, t: State, p: nat)
    requires MakersOk(s) && p < |s.procs| && s.procs[p].Placing?
    requires |t.procs| == |s.procs| && t.procs == s.procs[p := t.procs[p]]
    requires t.procs[p].Building? && t.procs[p].sid == |s.db.servers|
    requires |t.db.servers| == |s.db.servers| + 1 && t.makers == s.makers + [Some(p)]
    requires forall sid: nat :: sid < |s.db.servers| ==> t.db.servers[sid] == s.db.servers[sid]
    ensures MakersOk(t)
  {
  }

  lemma JoinKeepsMakers(s: State, t: State)
    requires MakersOk(s) && |t.procs| == |s.procs| + 1 && t.procs == s.procs + [t.procs[|s.procs|]]
    requires !t.procs[|s.procs|].Building? && !t.procs[|s.procs|].Unplacing?
    requires |t.db.servers| == |s.db.servers| && t.makers == s.makers
    requires forall sid: nat :: t.db.Live(sid) ==> s.db.Live(sid)
    ensures MakersOk(t)
  {
  }

  lemma BuyKeepsMakers(s: State, e: Purchase)
    requires Accounted(s) && MakersOk(s) && CanBuy(s, e)
    ensures MakersOk(BuyStep(s, e))
  {
    var t := BuyStep(s, e);
    if e.StartPurchase? {
      JoinKeepsMakers(s, t);
    } else if e.PlaceOn? {
      NewRowKeepsMakers(s, t, e.p);
    } else {
      if e.BuildOk? || e.BuildFails? || e.RollBackPurchase? {
        BuildKeepsItsRow(s, e);
      } else {
        TryKeepsItsRow(s, e);
      }
      MakersFrame(s, t, e.p);
    }
  }

  lemma DelKeepsMakers(s: State, e: Deletion)
    requires Accounted(s) && MakersOk(s) && CanDel(s, e)
    ensures MakersOk(DelStep(s, e))
  {
    var t := DelStep(s, e);
    if e.StartDelete? {
      JoinKeepsMakers(s, t);
    } else {
      assert ProcOk(s.db, s.procs[e.p]);
      MakersFrame(s, t, e.p);
    }
  }

  lemma LoudKeepsItsRow(s: State, e: Move)
    requires Accounted(s) && CanGo(s, e) && (e.TargetClaimed? || e.Switched?)
    ensures KeepsItsRow(s, GoStep(s, e), e.p)
  {
    assert ProcOk(s.db, s.procs[e.p]);
  }

  lemma GoKeepsMakers(s: State, e: Move)
    requires Accounted(s) && MakersOk(s) && CanGo(s, e)
    ensures MakersOk(GoStep(s, e))
  {
    if e.StartMigration? {
      JoinKeepsMakers(s, GoStep(s, e));
    } else if Loud(e) {
      LoudKeepsItsRow(s, e);
      MakersFrame(s, GoStep(s, e), e.p);
    } else {
      GoIsQuiet(s, e);
      QuietKeepsMakers(s, GoStep(s, e), e.p);
    }
  }

  lemma RetreatKeepsMakers(s: State, e: Retreat)
    requires Accounted(s) && MakersOk(s) && CanRetreat(s, e)
    ensures MakersOk(RetreatStep(s, e))
  {
    if !e.TargetFreed? {
      RetreatIsQuiet(s, e);
      QuietKeepsMakers(s, RetreatStep(s, e), e.p);
    }
  }

  lemma OutKeepsMakers(s: State, e: Outside)
    requires Accounted(s) && MakersOk(s) && CanOut(s, e)
    ensures MakersOk(OutStep(s, e))
  {
  }

  // ---------- Runs ----------

  /** The invariant is inductive. */
  lemma StepKeepsInv(s: State, e: Event)
    requires Inv(s) && Enabled(s, e)
    ensures Inv(Step(s, e))
  {
    match e
    case Buy(b) =>
      BuyKeepsBooks(s, b); BuyKeepsBusy(s, b); BuyKeepsProcs(s, b);
      BuyKeepsPorts(s, b); BuyKeepsWhole(s, b); BuyKeepsMakers(s, b);
    case Del(d) =>
      DelKeepsBooks(s, d); DelKeepsBusy(s, d); DelKeepsProcs(s, d);
      DelKeepsPorts(s, d); DelKeepsWhole(s, d); DelKeepsMakers(s, d);
    case Go(m) =>
      GoKeepsBooks(s, m); GoKeepsBusy(s, m); GoKeepsProcs(s, m);
      GoKeepsPorts(s, m); GoKeepsWhole(s, m); GoKeepsMakers(s, m);
    case Back(r) =>
      RetreatKeepsBooks(s, r); RetreatKeepsBusy(s, r); RetreatKeepsProcs(s, r);
      RetreatKeepsPorts(s, r); RetreatKeepsWhole(s, r); RetreatKeepsMakers(s, r);
    case Out(x) =>
      OutKeepsBooks(s, x); OutKeepsProcs(s, x);
      OutKeepsPorts(s, x); OutKeepsWhole(s, x); OutKeepsMakers(s, x);
  }
}
