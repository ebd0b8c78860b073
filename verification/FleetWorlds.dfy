/**
 Copies of a server's world: where they may be while processes work on the server, and that none is
 left behind on runs on which no clean-up call fails and no failed build has had its effect.
 */
module FleetWorlds {
  import opened Wrappers
  import opened Ledger
  import opened Fleet
  import opened FleetSafety
  import opened FleetTheorems

  /** No delete call to an agent fails in this step, and no build that fails has had its effect. */
  predicate Clean(e: Event) {
    match e
    case Buy(b) => b.BuildFails? ==> !b.partial
    case Del(d) => d.AgentDelete? ==> d.wiped
    case Go(m) => m.SourceWiped? ==> m.wiped
    case Back(r) => r.TargetWiped? ==> r.wiped
    case Out(_) => true
  }

  /** Node `n` may have a copy while process `c` works on the server, whose row names `home`. */
  predicate MayHaveCopy(c: Proc, n: nat, home: nat) {
    match c
    case Deleting(_, _, _) => n == home
    case Migrating(phase, _, _, from, to, _) =>
      || n == home
      || (n == to && (phase.Handover? || phase.Catching? || phase.Freeing? || phase.Discharging?
                      || phase.WipingTarget?))
      || (n == from && phase.CleaningUp?)
    case _ => false
  }

  ghost predicate Belongs(s: State, n: nat, sid: nat)
    requires BusyOk(s)
  {
    s.db.Live(sid) &&
      var home := s.db.servers[sid].value.node;
      if s.busy[sid].None? then n == home else MayHaveCopy(s.procs[s.busy[sid].value], n, home)
  }

  ghost predicate NoLeftovers(s: State)
    requires BusyOk(s)
  {
    forall n: nat, sid: nat :: (n, sid) in s.worlds ==> Belongs(s, n, sid)
  }

  /** A step of process `p` on one server changes nothing that matters to the copies of others. */
  ghost predicate OnlyTouches(s: State, t: State, sid: nat, p: nat)
    requires BusyOk(s)
  {
    && (p < |s.procs| ==> s.procs[p].Holds().None? || s.procs[p].Holds() == Some(sid))
    && |s.procs| <= |t.procs| && (forall q :: 0 <= q < |s.procs| && q != p ==> t.procs[q] == s.procs[q])
    && |s.busy| <= |t.busy| && (forall r :: 0 <= r < |s.busy| && r != sid ==> t.busy[r] == s.busy[r])
    && |s.busy| <= |t.db.servers|
    && (forall r :: 0 <= r < |s.busy| && r != sid ==> SameHome(s.db.servers[r], t.db.servers[r]))
    && (forall n: nat, r: nat :: r != sid && (n, r) in t.worlds ==> (n, r) in s.worlds)
  }

  predicate SameHome(a: Option<Server>, b: Option<Server>) {
    (a.Some? <==> b.Some?) && (a.Some? ==> a.value.node == b.value.node)
  }

  ghost predicate OwnBelong(t: State, sid: nat)
    requires BusyOk(t)
  {
    forall n: nat :: (n, sid) in t.worlds ==> Belongs(t, n, sid)
  }

  lemma OthersBelong(s: State, t: State, sid: nat, p: nat)
    requires BusyOk(s) && BusyOk(t) && NoLeftovers(s) && OnlyTouches(s, t, sid, p) && OwnBelong(t, sid)
    ensures NoLeftovers(t)
  {
    forall n: nat, r: nat | (n, r) in t.worlds && r != sid ensures Belongs(t, n, r) {
      assert Belongs(s, n, r);
    }
  }

  lemma BuyLeavesNone(s: State, e: Purchase)
    requires ProcsOk(s) && BusyOk(s) && NoLeftovers(s) && CanBuy(s, e) && Clean(Buy(e)) && BusyOk(BuyStep(s, e))
    ensures NoLeftovers(BuyStep(s, e))
  {
    var t := BuyStep(s, e);
    if e.StartPurchase? {
      OthersBelong(s, t, |s.busy|, |s.procs|);
    } else if s.procs[e.p].Placing? {
      OthersBelong(s, t, |s.busy|, e.p);
    } else {
      BuildLeavesNone(s, e);
    }
  }

  lemma BuildLeavesNone(s: State, e: Purchase)
    requires ProcsOk(s) && BusyOk(s) && NoLeftovers(s) && CanBuy(s, e) && Clean(Buy(e)) && BusyOk(BuyStep(s, e))
    requires e.BuildOk? || e.BuildFails? || e.RollBackPurchase?
    ensures NoLeftovers(BuyStep(s, e))
  {
    assert ProcOk(s.db, s.procs[e.p]);
    OthersBelong(s, BuyStep(s, e), s.procs[e.p].sid, e.p);
  }

  lemma DelLeavesNone(s: State, e: Deletion)
    requires ProcsOk(s) && BusyOk(s) && NoLeftovers(s) && CanDel(s, e) && Clean(Del(e)) && BusyOk(DelStep(s, e))
    ensures NoLeftovers(DelStep(s, e))
  {
    if e.StartDelete? {
      OthersBelong(s, DelStep(s, e), e.sid, |s.procs|);
    } else {
      assert ProcOk(s.db, s.procs[e.p]);
      OthersBelong(s, DelStep(s, e), s.procs[e.p].sid, e.p);
    }
  }

  /** The steps of a migration from the restored target on. */
  predicate Late(e: Move) {
    e.TargetRestored? || e.Switched? || e.SourceWiped? || e.MoveCompleted?
  }

  lemma EarlyTouches(s: State, e: Move)
    requires ProcsOk(s) && BusyOk(s) && CanGo(s, e) && !e.StartMigration? && !Late(e)
    ensures OnlyTouches(s, GoStep(s, e), s.procs[e.p].sid, e.p)
  {
    assert ProcOk(s.db, s.procs[e.p]);
  }

  lemma LateTouches(s: State, e: Move)
    requires ProcsOk(s) && BusyOk(s) && CanGo(s, e) && Late(e)
    ensures OnlyTouches(s, GoStep(s, e), s.procs[e.p].sid, e.p)
  {
    assert ProcOk(s.db, s.procs[e.p]);
  }

  lemma EarlyBelongs(s: State, e: Move, n: nat)
    requires ProcsOk(s) && BusyOk(s) && CanGo(s, e) && BusyOk(GoStep(s, e))
    requires !e.StartMigration? && !Late(e)
    requires (n, s.procs[e.p].sid) in s.worlds ==> Belongs(s, n, s.procs[e.p].sid)
    requires (n, s.procs[e.p].sid) in GoStep(s, e).worlds
    ensures Belongs(GoStep(s, e), n, s.procs[e.p].sid)
  {
    assert ProcOk(s.db, s.procs[e.p]) && s.busy[s.procs[e.p].sid] == Some(e.p);
  }

  lemma LateBelongs(s: State, e: Move, n: nat)
    requires ProcsOk(s) && BusyOk(s) && CanGo(s, e) && Clean(Go(e)) && BusyOk(GoStep(s, e))
    requires Late(e)
    requires (n, s.procs[e.p].sid) in s.worlds ==> Belongs(s, n, s.procs[e.p].sid)
    requires (n, s.procs[e.p].sid) in GoStep(s, e).worlds
    ensures Belongs(GoStep(s, e), n, s.procs[e.p].sid)
  {
    assert ProcOk(s.db, s.procs[e.p]) && s.busy[s.procs[e.p].sid] == Some(e.p);
  }

  lemma GoLeavesNone(s: State, e: Move)
    requires ProcsOk(s) && BusyOk(s) && NoLeftovers(s) && CanGo(s, e) && Clean(Go(e)) && BusyOk(GoStep(s, e))
    ensures NoLeftovers(GoStep(s, e))
  {
    if e.StartMigration? {
      OthersBelong(s, GoStep(s, e), e.sid, |s.procs|);
    } else {
      if Late(e) { LateTouches(s, e); } else { EarlyTouches(s, e); }
      forall n: nat | (n, s.procs[e.p].sid) in GoStep(s, e).worlds
        ensures Belongs(GoStep(s, e), n, s.procs[e.p].sid)
      {
        if Late(e) { LateBelongs(s, e, n); } else { EarlyBelongs(s, e, n); }
      }
      OthersBelong(s, GoStep(s, e), s.procs[e.p].sid, e.p);
    }
  }

  lemma RetreatTouches(s: State, e: Retreat)
    requires ProcsOk(s) && BusyOk(s) && CanRetreat(s, e)
    ensures OnlyTouches(s, RetreatStep(s, e), s.procs[e.p].sid, e.p)
  {
    assert ProcOk(s.db, s.procs[e.p]);
  }

  lemma RetreatBelongs(s: State, e: Retreat, n: nat)
    requires ProcsOk(s) && BusyOk(s) && CanRetreat(s, e) && Clean(Back(e)) && BusyOk(RetreatStep(s, e))
    requires (n, s.procs[e.p].sid) in s.worlds ==> Belongs(s, n, s.procs[e.p].sid)
    requires (n, s.procs[e.p].sid) in RetreatStep(s, e).worlds
    ensures Belongs(RetreatStep(s, e), n, s.procs[e.p].sid)
  {
    assert ProcOk(s.db, s.procs[e.p]) && s.busy[s.procs[e.p].sid] == Some(e.p);
  }

  lemma RetreatLeavesNone(s: State, e: Retreat)
    requires ProcsOk(s) && BusyOk(s) && NoLeftovers(s) && CanRetreat(s, e) && Clean(Back(e))
    requires BusyOk(RetreatStep(s, e))
    ensures NoLeftovers(RetreatStep(s, e))
  {
    RetreatTouches(s, e);
    forall n: nat | (n, s.procs[e.p].sid) in RetreatStep(s, e).worlds
      ensures Belongs(RetreatStep(s, e), n, s.procs[e.p].sid)
    {
      RetreatBelongs(s, e, n);
    }
    OthersBelong(s, RetreatStep(s, e), s.procs[e.p].sid, e.p);
  }

  lemma StepLeavesNone(s: State, e: Event)
    requires Inv(s) && NoLeftovers(s) && Enabled(s, e) && Clean(e)
    ensures BusyOk(Step(s, e)) && NoLeftovers(Step(s, e))
  {
    StepKeepsInv(s, e);
    match e
    case Buy(b) => BuyLeavesNone(s, b);
    case Del(d) => DelLeavesNone(s, d);
    case Go(m) => GoLeavesNone(s, m);
    case Back(r) => RetreatLeavesNone(s, r);
    case Out(x) => OthersBelong(s, Step(s, e), |s.busy|, |s.procs|);
  }

  lemma {:induction false} RunLeavesNone(s: State, es: seq<Event>, t: State)
    requires Inv(s) && NoLeftovers(s) && Reaches(s, es, t) && forall i :: 0 <= i < |es| ==> Clean(es[i])
    ensures Inv(t) && NoLeftovers(t)
    decreases |es|
  {
    if es != [] {
      StepLeavesNone(s, es[0]);
      StepKeepsInv(s, es[0]);
      RunLeavesNone(Step(s, es[0]), es[1..], t);
    }
  }

  /**
   On every run that starts with each world on the node of its row, and on which every clean-up call
   works: a server nobody is working on has its world on the node of its row and nowhere else, and a
   row that is gone has left none.
   */
  lemma WorldsFollowRows(s: State, es: seq<Event>, t: State, n: nat, sid: nat)
    requires Opening(s) && Reaches(s, es, t) && forall i :: 0 <= i < |es| ==> Clean(es[i])
    requires forall m: nat, r: nat :: (m, r) in s.worlds ==> OnNode(s.db, r, m)
    requires sid < |t.busy| ==> t.busy[sid].None?
    ensures (n, sid) in t.worlds <==> OnNode(t.db, sid, n)
  {
    OpeningHasInv(s);
    RunLeavesNone(s, es, t);
  }

  /** A build whose call fails after it had its effect leaves a copy behind that no row stands for. */
  lemma BuildLeavesCopy(s: State, p: nat)
    requires Inv(s) && p < |s.procs| && s.procs[p].Building?
    ensures var t := BuyStep(s, BuildFails(p, true));
      && ProcsOk(t) && BusyOk(t) && CanBuy(t, RollBackPurchase(p))
      && var (c, u) := (s.procs[p], BuyStep(t, RollBackPurchase(p)));
        (c.node, c.sid) in u.worlds && !u.db.Live(c.sid)
  {
    StepKeepsInv(s, Buy(BuildFails(p, true)));
  }
}
