/** Every interleaving of purchases, deletions and migrations. */
module Fleet {
  // Each step is one committed database transaction or one agent call, which may fail; a failed call may
  // still have had its effect.  Steps of different processes interleave freely; two processes never work
  // on the same server at once.

  import opened Wrappers
  import opened Resources
  import opened Scheduler
  import opened Ledger

  /** Where a migration stands; from `Catching` on it is in the catch block. */
  datatype Phase =
    | Starting | Stopping | Archiving | Claiming | Creating | Filling | Handover
    | CleaningUp | Completing
    | Catching | Freeing | Discharging | WipingTarget | RollingBack

  datatype Proc =
    | Placing(order: nat, plan: Plan, tried: seq<nat>, attempt: nat)
    | Building(order: nat, plan: Plan, tried: seq<nat>, attempt: nat, sid: nat, node: nat)
    | Unplacing(order: nat, plan: Plan, tried: seq<nat>, attempt: nat, sid: nat, node: nat)
    | Bought(order: nat, plan: Plan, sid: nat)
    | NotBought(order: nat)
    | Deleting(sid: nat, node: nat, amount: Res)
    | Erasing(sid: nat, node: nat, amount: Res)
    | Migrating(phase: Phase, job: nat, sid: nat, from: nat, to: nat, amount: Res)
    | Done
  {
    /** The server this process is working on. */
    function Holds(): Option<nat> {
      if Building? || Unplacing? || Deleting? || Erasing? || Migrating? then Some(sid) else None
    }

    /** The target reservation a migration holds until it switches over or releases it. */
    function InFlight(): Charge {
      if Migrating? && to != from && (Before(phase) || phase.Catching? || phase.Freeing? || phase.Discharging?)
      then Charge(to, amount) else FREE
    }

    /** The target port has been claimed and not given back. */
    predicate HasPort() {
      Migrating? && (phase.Creating? || phase.Filling? || phase.Handover?)
    }

    predicate MayHavePort() {
      HasPort() || (Migrating? && (phase.Catching? || phase.Freeing?) && to != from)
    }

    /** The server's world is being built or torn down. */
    predicate Unsettled() {
      Building? || Unplacing? || Deleting? || Erasing?
    }
  }

  /** The phases up to the switch. */
  predicate Before(phase: Phase) {
    || phase.Starting? || phase.Stopping? || phase.Archiving? || phase.Claiming?
    || phase.Creating? || phase.Filling? || phase.Handover?
  }

  /**
   `worlds` holds (node, server) when the node's disk has a complete copy of that server's world.
   `busy` says which process is working on each server row, `makers` which purchase wrote it.
   */
  datatype State = State(
    db: Db,
    procs: seq<Proc>,
    worlds: set<(nat, nat)>,
    busy: seq<Option<nat>>,
    makers: seq<Option<nat>>)

  datatype Purchase =
    | StartPurchase(o: nat, plan: Plan)
    | PlaceOn(p: nat, n: nat, port: nat, req: Request)
    | PlaceFails(p: nat)
    | NoCapacity(p: nat)
    | GiveUp(p: nat)
    | BuildOk(p: nat)
    | BuildFails(p: nat, partial: bool)
    | RollBackPurchase(p: nat)

  datatype Deletion =
    | StartDelete(sid: nat)
    | AgentDelete(p: nat, wiped: bool)
    | FinishDelete(p: nat)

  /** A migration going forward. */
  datatype Move =
    | StartMigration(sid: nat)
    | TargetTaken(p: nat, n: nat, req: Request)
    | SourceStopped(p: nat)
    | Archived(p: nat)
    | TargetClaimed(p: nat, port: nat)
    | TargetCreated(p: nat)
    | TargetRestored(p: nat)
    | Switched(p: nat)
    | SourceWiped(p: nat, wiped: bool)
    | MoveCompleted(p: nat)

  /** A migration failing before its switch, and the catch block. */
  datatype Retreat =
    | Fails(p: nat, partial: bool)
    | Caught(p: nat)
    | TargetFreed(p: nat)
    | TargetReleased(p: nat)
    | TargetWiped(p: nat, wiped: bool)
    | MoveRolledBack(p: nat)

  /** What others change: node flags and observed container states. */
  datatype Outside =
    | NodeChanges(n: nat, enabled: bool, online: bool, heartbeat: Option<int>)
    | StatusSeen(sid: nat, status: Status)

  datatype Event = Buy(b: Purchase) | Del(d: Deletion) | Go(m: Move) | Back(r: Retreat) | Out(x: Outside)

  // ---------- Steps ----------

  predicate Idle(s: State, sid: nat) {
    s.db.Live(sid) && sid < |s.busy| && s.busy[sid].None?
  }

  predicate At(s: State, p: nat, phase: Phase) {
    p < |s.procs| && s.procs[p].Migrating? && s.procs[p].phase == phase
  }

  predicate Trying(s: State, p: nat) {
    p < |s.procs| && s.procs[p].Placing? && s.procs[p].attempt < 3
  }

  function Put(s: State, p: nat, proc: Proc): State
    requires p < |s.procs|
  {
    s.(procs := s.procs[p := proc])
  }

  predicate CanBuy(s: State, e: Purchase) {
    match e
    case StartPurchase(o, plan) => o < |s.db.orders| && s.db.orders[o].server.None? && plan.amount.Positive()
    case PlaceOn(p, n, port, req) =>
      && Trying(s, p)
      && req.amount == s.procs[p].plan.amount && req.template == s.procs[p].plan.template
      && req.exclude == (set x | x in s.procs[p].tried)
      && Candidate(s.db.nodes, n, req) && FreePort(s.db.ports, port, n)
    case PlaceFails(p) => Trying(s, p)
    case NoCapacity(p) => Trying(s, p)
    case GiveUp(p) => p < |s.procs| && s.procs[p].Placing? && s.procs[p].attempt == 3
    case BuildOk(p) => p < |s.procs| && s.procs[p].Building?
    case BuildFails(p, _) => p < |s.procs| && s.procs[p].Building?
    case RollBackPurchase(p) => p < |s.procs| && s.procs[p].Unplacing?
  }

  function BuyStep(s: State, e: Purchase): State
    requires ProcsOk(s) && BusyOk(s) && CanBuy(s, e)
  {
    match e
    case StartPurchase(o, plan) => s.(procs := s.procs + [Placing(o, plan, [], 0)])
    case PlaceOn(p, n, port, _) =>
      var c := s.procs[p];
      Put(s, p, Building(c.order, c.plan, c.tried + [n], c.attempt, |s.db.servers|, n))
      .(db := Place(s.db, n, c.plan, port, c.order), busy := s.busy + [Some(p)], makers := s.makers + [Some(p)])
    case PlaceFails(p) => Put(s, p, s.procs[p].(attempt := s.procs[p].attempt + 1))
    case NoCapacity(p) => Put(s, p, NotBought(s.procs[p].order))
    case GiveUp(p) =>
      var c := s.procs[p];
      Put(s, p, NotBought(c.order)).(db := s.db.(orders := s.db.orders[c.order := s.db.orders[c.order].(status := Failed)]))
    case BuildOk(p) =>
      var c := s.procs[p];
      Put(s, p, Bought(c.order, c.plan, c.sid))
      .(db := SetStatus(s.db, c.sid, Offline), worlds := s.worlds + {(c.node, c.sid)}, busy := s.busy[c.sid := None])
    case BuildFails(p, partial) =>
      var c := s.procs[p];
      Put(s, p, Unplacing(c.order, c.plan, c.tried, c.attempt, c.sid, c.node))
      .(worlds := if partial then s.worlds + {(c.node, c.sid)} else s.worlds)
    case RollBackPurchase(p) =>
      var c := s.procs[p];
      Put(s, p, Placing(c.order, c.plan, c.tried, c.attempt + 1))
      .(db := Unplace(s.db, c.sid, c.node, c.plan.amount, c.order), busy := s.busy[c.sid := None])
  }

  predicate CanDel(s: State, e: Deletion) {
    match e
    case StartDelete(sid) => Idle(s, sid)
    case AgentDelete(p, _) => p < |s.procs| && s.procs[p].Deleting?
    case FinishDelete(p) => p < |s.procs| && s.procs[p].Erasing?
  }

  function DelStep(s: State, e: Deletion): State
    requires ProcsOk(s) && BusyOk(s) && CanDel(s, e)
  {
    match e
    case StartDelete(sid) =>
      var row := s.db.servers[sid].value;
      s.(procs := s.procs + [Deleting(sid, row.node, row.amount)],
        db := SetStatus(s.db, sid, Removing),
        busy := s.busy[sid := Some(|s.procs|)])
    case AgentDelete(p, wiped) =>
      var c := s.procs[p];
      Put(s, p, Erasing(c.sid, c.node, c.amount))
      .(worlds := if wiped then s.worlds - {(c.node, c.sid)} else s.worlds)
    case FinishDelete(p) =>
      var c := s.procs[p];
      Put(s, p, Done).(db := Erase(s.db, c.sid, c.node, c.amount), busy := s.busy[c.sid := None])
  }

  predicate CanGo(s: State, e: Move) {
    match e
    case StartMigration(sid) => Idle(s, sid)
    case TargetTaken(p, n, req) =>
      && At(s, p, Starting)
      && req.amount == s.procs[p].amount && req.exclude == {s.procs[p].from}
      && Candidate(s.db.nodes, n, req)
    case SourceStopped(p) => At(s, p, Stopping)
    case Archived(p) => At(s, p, Archiving)
    case TargetClaimed(p, port) => At(s, p, Claiming) && FreePort(s.db.ports, port, s.procs[p].to)
    case TargetCreated(p) => At(s, p, Creating)
    case TargetRestored(p) => At(s, p, Filling)
    case Switched(p) => At(s, p, Handover)
    case SourceWiped(p, _) => At(s, p, CleaningUp)
    case MoveCompleted(p) => At(s, p, Completing)
  }

  /** The process and its job row move on; the other tables change with them at the steps below. */
  function GoStep(s: State, e: Move): State
    requires ProcsOk(s) && BusyOk(s) && CanGo(s, e)
  {
    if e.StartMigration? then
      var row := s.db.servers[e.sid].value;
      s.(procs := s.procs + [Migrating(Starting, |s.db.jobs|, e.sid, row.node, row.node, row.amount)],
        db := s.db.(jobs := s.db.jobs + [Job(e.sid, row.node, row.node, Queued)]),
        busy := s.busy[e.sid := Some(|s.procs|)])
    else
      assert ProcOk(s.db, s.procs[e.p]);
      Advance(s, e.p, s.procs[e.p], e)
  }

  function Advance(s: State, p: nat, c: Proc, e: Move): State
    requires p < |s.procs| && s.procs[p] == c && c.Migrating? && ProcOk(s.db, c) && c.sid < |s.busy|
    requires !e.StartMigration? && CanGo(s, e)
  {
    match e
    case TargetTaken(_, n, _) =>
      Put(s, p, c.(phase := Stopping, to := n))
      .(db := SetJob(TakeTarget(s.db, c.job, n, c.amount), c.job, BackingUp))
    case SourceStopped(_) => Put(s, p, c.(phase := Archiving))
    case Archived(_) => Put(s, p, c.(phase := Claiming)).(db := SetJob(s.db, c.job, Transferring))
    case TargetClaimed(_, port) =>
      Put(s, p, c.(phase := Creating)).(db := s.db.(ports := Claim(s.db.ports, port, c.sid)))
    case TargetCreated(_) =>
      Put(s, p, c.(phase := Filling))
      .(db := SetJob(s.db, c.job, Restoring), worlds := s.worlds - {(c.to, c.sid)})
    case TargetRestored(_) =>
      Put(s, p, c.(phase := Handover))
      .(db := SetJob(s.db, c.job, Switching), worlds := s.worlds + {(c.to, c.sid)})
    case Switched(_) =>
      Put(s, p, c.(phase := CleaningUp)).(db := SwitchOver(s.db, c.sid, c.from, c.to, c.amount))
    case SourceWiped(_, wiped) =>
      Put(s, p, c.(phase := Completing))
      .(worlds := if wiped then s.worlds - {(c.from, c.sid)} else s.worlds)
    case MoveCompleted(_) =>
      Put(s, p, Done).(db := SetJob(s.db, c.job, Completed), busy := s.busy[c.sid := None])
  }

  predicate CanRetreat(s: State, e: Retreat) {
    match e
    case Fails(p, _) => p < |s.procs| && s.procs[p].Migrating? && Before(s.procs[p].phase)
    case Caught(p) => At(s, p, Catching)
    case TargetFreed(p) => At(s, p, Freeing)
    case TargetReleased(p) => At(s, p, Discharging)
    case TargetWiped(p, _) => At(s, p, WipingTarget)
    case MoveRolledBack(p) => At(s, p, RollingBack)
  }

  function RetreatStep(s: State, e: Retreat): State
    requires ProcsOk(s) && BusyOk(s) && CanRetreat(s, e)
  {
    assert ProcOk(s.db, s.procs[e.p]);
    Unwind(s, e.p, s.procs[e.p], s.db.jobs[s.procs[e.p].job], e)
  }

  /** The catch block trusts only the job row: it unwinds the target if the row names one. */
  function Unwind(s: State, p: nat, c: Proc, job: Job, e: Retreat): State
    requires p < |s.procs| && s.procs[p] == c && c.Migrating? && ProcOk(s.db, c) && c.sid < |s.busy|
    requires c.job < |s.db.jobs| && s.db.jobs[c.job] == job && CanRetreat(s, e)
  {
    match e
    case Fails(_, partial) =>
      Put(s, p, c.(phase := Catching))
      .(worlds := if partial && c.to != c.from then s.worlds - {(c.to, c.sid)} else s.worlds)
    case Caught(_) => Put(s, p, c.(phase := if job.to != job.from then Freeing else RollingBack))
    case TargetFreed(_) =>
      Put(s, p, c.(phase := Discharging)).(db := s.db.(ports := GiveBack(s.db.ports, c.sid, Some(job.to))))
    case TargetReleased(_) =>
      Put(s, p, c.(phase := WipingTarget)).(db := s.db.(nodes := Release(s.db.nodes, job.to, c.amount)))
    case TargetWiped(_, wiped) =>
      Put(s, p, c.(phase := RollingBack))
      .(worlds := if wiped then s.worlds - {(job.to, c.sid)} else s.worlds)
    case MoveRolledBack(_) =>
      Put(s, p, Done).(db := SetJob(s.db, c.job, RolledBack), busy := s.busy[c.sid := None])
  }

  predicate CanOut(s: State, e: Outside) {
    match e
    case NodeChanges(n, _, _, _) => n < |s.db.nodes|
    case StatusSeen(sid, _) => s.db.Live(sid)
  }

  function OutStep(s: State, e: Outside): State
    requires CanOut(s, e)
  {
    match e
    case NodeChanges(n, enabled, online, heartbeat) =>
      var node := s.db.nodes[n].(enabled := enabled, online := online, heartbeat := heartbeat);
      s.(db := s.db.(nodes := s.db.nodes[n := node]))
    case StatusSeen(sid, status) => s.(db := SetStatus(s.db, sid, status))
  }

  predicate Enabled(s: State, e: Event) {
    match e
    case Buy(b) => CanBuy(s, b)
    case Del(d) => CanDel(s, d)
    case Go(m) => CanGo(s, m)
    case Back(r) => CanRetreat(s, r)
    case Out(x) => CanOut(s, x)
  }

  function Step(s: State, e: Event): State
    requires ProcsOk(s) && BusyOk(s) && Enabled(s, e)
  {
    match e
    case Buy(b) => BuyStep(s, b)
    case Del(d) => DelStep(s, d)
    case Go(m) => GoStep(s, m)
    case Back(r) => RetreatStep(s, r)
    case Out(x) => OutStep(s, x)
  }

  // ---------- The invariant ----------

  function InFlights(procs: seq<Proc>): (cs: seq<Charge>)
    ensures |cs| == |procs|
  {
    seq(|procs|, i requires 0 <= i < |procs| => procs[i].InFlight())
  }

  /** `busy` is the process working on a server, so no two processes work on the same one. */
  ghost predicate BusyOk(s: State) {
    && |s.busy| == |s.db.servers|
    && (forall p :: 0 <= p < |s.procs| && s.procs[p].Holds().Some? ==>
          s.procs[p].sid < |s.busy| && s.busy[s.procs[p].sid] == Some(p))
    && (forall sid :: 0 <= sid < |s.busy| && s.busy[sid].Some? ==>
          s.busy[sid].value < |s.procs| && s.procs[s.busy[sid].value].Holds() == Some(sid))
  }

  ghost predicate Distinct(xs: seq<nat>) {
    forall i, j :: 0 <= i < j < |xs| ==> xs[i] != xs[j]
  }

  /** What a process remembers about its rows is still what the rows say. */
  ghost predicate ProcOk(db: Db, proc: Proc) {
    match proc
    case Placing(o, plan, tried, attempt) =>
      o < |db.orders| && plan.amount.Positive() && Distinct(tried) && |tried| <= attempt <= 3
    case Building(o, plan, tried, attempt, sid, node) => PlacedOk(db, o, plan, tried, attempt, sid, node)
    case Unplacing(o, plan, tried, attempt, sid, node) => PlacedOk(db, o, plan, tried, attempt, sid, node)
    case Bought(o, plan, sid) => sid < |db.servers| && (db.Live(sid) ==> db.servers[sid].value.amount == plan.amount)
    case NotBought(_) => true
    case Deleting(sid, node, amount) =>
      node < |db.nodes| && db.Live(sid) && db.servers[sid].value.node == node && db.servers[sid].value.amount == amount
    case Erasing(sid, node, amount) =>
      node < |db.nodes| && db.Live(sid) && db.servers[sid].value.node == node && db.servers[sid].value.amount == amount
    case Migrating(phase, job, sid, from, to, amount) =>
      && db.Live(sid) && db.servers[sid].value.amount == amount
      && db.servers[sid].value.node == (if phase.CleaningUp? || phase.Completing? then to else from)
      && from < |db.nodes| && to < |db.nodes|
      && job < |db.jobs| && db.jobs[job].from == from && db.jobs[job].to == to
      && (phase == Starting ==> to == from)
      && (!phase.Starting? && !phase.Catching? && !phase.RollingBack? ==> to != from)
    case Done => true
  }

  ghost predicate PlacedOk(db: Db, o: nat, plan: Plan, tried: seq<nat>, attempt: nat, sid: nat, node: nat) {
    && o < |db.orders| && plan.amount.Positive()
    && Distinct(tried) && node in tried && |tried| <= attempt + 1 <= 3
    && node < |db.nodes| && db.Live(sid) && db.servers[sid].value.node == node && db.servers[sid].value.amount == plan.amount
  }

  ghost predicate ProcsOk(s: State) {
    && (forall p :: 0 <= p < |s.procs| ==> ProcOk(s.db, s.procs[p]))
    && (forall p, q :: 0 <= p < q < |s.procs| && s.procs[p].Migrating? && s.procs[q].Migrating? ==>
          s.procs[p].job != s.procs[q].job)
  }

  /** The process working on `sid` is a migration that may have a port on `n`. */
  ghost predicate Heading(s: State, sid: nat, n: nat)
    requires BusyOk(s) && sid < |s.busy|
  {
    s.busy[sid].Some? && s.procs[s.busy[sid].value].MayHavePort() && s.procs[s.busy[sid].value].to == n
  }

  /**
   A port is primary iff it is owned; an owner is a live server that sits on the port's node
   or is on its way there; every live server has a port on its own node, never two on one.
   */
  ghost predicate PortsOk(s: State)
    requires BusyOk(s)
  {
    && PrimaryIffOwned(s.db.ports)
    && OnePerNode(s.db.ports)
    && (forall p :: 0 <= p < |s.db.ports| && s.db.ports[p].owner.Some? ==>
          var (sid, n) := (s.db.ports[p].owner.value, s.db.ports[p].node);
          s.db.Live(sid) && (n == s.db.servers[sid].value.node || Heading(s, sid, n)))
    && (forall sid: nat :: s.db.Live(sid) ==> Owns(s.db.ports, sid, s.db.servers[sid].value.node))
    && (forall p :: 0 <= p < |s.procs| && s.procs[p].HasPort() ==>
          Owns(s.db.ports, s.procs[p].sid, s.procs[p].to))
  }

  ghost predicate Unsettled(s: State, sid: nat)
    requires BusyOk(s) && sid < |s.busy|
  {
    s.busy[sid].Some? && s.procs[s.busy[sid].value].Unsettled()
  }

  /** Unless it is being built or deleted, a server's node has a complete copy of its world. */
  ghost predicate Whole(s: State)
    requires BusyOk(s)
  {
    && (forall sid: nat :: s.db.Live(sid) ==>
          Unsettled(s, sid) || (s.db.servers[sid].value.node, sid) in s.worlds)
    && (forall p :: 0 <= p < |s.procs| && s.procs[p].Migrating? && s.procs[p].phase.Handover? ==>
          (s.procs[p].to, s.procs[p].sid) in s.worlds)
  }

  ghost predicate Made(s: State, sid: nat, p: nat) {
    && p < |s.procs|
    && (s.procs[p].Building? || s.procs[p].Unplacing? || s.procs[p].Bought?)
    && s.procs[p].sid == sid
  }

  /** A server row written by a purchase exists only while that purchase is building it or has delivered it. */
  ghost predicate MakersOk(s: State) {
    && |s.makers| == |s.db.servers|
    && (forall sid: nat :: s.db.Live(sid) && s.makers[sid].Some? ==> Made(s, sid, s.makers[sid].value))
    && (forall p :: 0 <= p < |s.procs| && (s.procs[p].Building? || s.procs[p].Unplacing?) ==>
          s.procs[p].sid < |s.makers| && s.makers[s.procs[p].sid] == Some(p))
  }

  ghost predicate Inv(s: State) {
    && Books(s.db, InFlights(s.procs))
    && BusyOk(s)
    && ProcsOk(s)
    && PortsOk(s)
    && Whole(s)
    && MakersOk(s)
  }
}
