/**
 The job row of a migration: what status it shows at every step, forward and in the catch block, that
 nobody else writes it, and how it ends.
 */
module FleetJobs {
  import opened Wrappers
  import opened Ledger
  import opened Fleet
  import opened FleetSafety
  import opened FleetTheorems

  /** The status the job row shows in each phase; in the catch block it shows the one of the step that failed. */
  predicate Shows(phase: Phase, status: JobStatus) {
    match phase
    case Starting => status == Queued
    case Stopping => status == BackingUp
    case Archiving => status == BackingUp
    case Claiming => status == Transferring
    case Creating => status == Transferring
    case Filling => status == Restoring
    case Handover => status == Switching
    case CleaningUp => status == Switching
    case Completing => status == Switching
    case _ => status != Completed && status != RolledBack
  }

  ghost predicate JobOk(db: Db, c: Proc) {
    c.Migrating? ==>
      && c.job < |db.jobs| && db.jobs[c.job].server == c.sid && db.jobs[c.job].from == c.from
      && Shows(c.phase, db.jobs[c.job].status)
  }

  ghost predicate JobsOk(s: State) {
    forall p :: 0 <= p < |s.procs| ==> JobOk(s.db, s.procs[p])
  }

  /** A step of process `p` that writes at most its own job row keeps the others right. */
  lemma OneJobChanges(s: State, t: State, p: nat)
    requires ProcsOk(s) && JobsOk(s) && p < |s.procs| && |t.procs| == |s.procs| && |t.db.jobs| == |s.db.jobs|
    requires t.procs == s.procs[p := t.procs[p]] && JobOk(t.db, t.procs[p])
    requires forall j :: 0 <= j < |s.db.jobs| && t.db.jobs[j] != s.db.jobs[j] ==>
               s.procs[p].Migrating? && j == s.procs[p].job
    ensures JobsOk(t)
  {
    forall q | 0 <= q < |t.procs| && q != p ensures JobOk(t.db, t.procs[q]) {
      assert JobOk(s.db, s.procs[q]);
    }
  }

  lemma OneJoins(s: State, t: State)
    requires ProcsOk(s) && JobsOk(s) && |t.procs| == |s.procs| + 1 && t.procs == s.procs + [t.procs[|s.procs|]]
    requires s.db.jobs <= t.db.jobs && JobOk(t.db, t.procs[|s.procs|])
    ensures JobsOk(t)
  {
    forall q | 0 <= q < |s.procs| ensures JobOk(t.db, t.procs[q]) {
      assert JobOk(s.db, s.procs[q]);
    }
  }

  lemma BuyKeepsJobs(s: State, e: Purchase)
    requires ProcsOk(s) && BusyOk(s) && JobsOk(s) && CanBuy(s, e)
    ensures JobsOk(BuyStep(s, e))
  {
    if e.StartPurchase? { OneJoins(s, BuyStep(s, e)); } else { OneJobChanges(s, BuyStep(s, e), e.p); }
  }

  lemma DelKeepsJobs(s: State, e: Deletion)
    requires ProcsOk(s) && BusyOk(s) && JobsOk(s) && CanDel(s, e)
    ensures JobsOk(DelStep(s, e))
  {
    if e.StartDelete? { OneJoins(s, DelStep(s, e)); } else { OneJobChanges(s, DelStep(s, e), e.p); }
  }

  lemma OwnJobForward(s: State, e: Move)
    requires ProcsOk(s) && BusyOk(s) && CanGo(s, e) && !e.StartMigration? && JobOk(s.db, s.procs[e.p])
    ensures JobOk(GoStep(s, e).db, GoStep(s, e).procs[e.p])
  {
    assert ProcOk(s.db, s.procs[e.p]);
  }

  lemma GoWritesOwnJob(s: State, e: Move)
    requires ProcsOk(s) && BusyOk(s) && CanGo(s, e) && !e.StartMigration?
    ensures var t := GoStep(s, e);
      && |t.procs| == |s.procs| && t.procs == s.procs[e.p := t.procs[e.p]] && |t.db.jobs| == |s.db.jobs|
      && forall j :: 0 <= j < |s.db.jobs| && t.db.jobs[j] != s.db.jobs[j] ==> j == s.procs[e.p].job
  {
    assert ProcOk(s.db, s.procs[e.p]);
  }

  lemma GoKeepsJobs(s: State, e: Move)
    requires ProcsOk(s) && BusyOk(s) && JobsOk(s) && CanGo(s, e)
    ensures JobsOk(GoStep(s, e))
  {
    if e.StartMigration? {
      OneJoins(s, GoStep(s, e));
    } else {
      assert JobOk(s.db, s.procs[e.p]);
      OwnJobForward(s, e);
      GoWritesOwnJob(s, e);
      OneJobChanges(s, GoStep(s, e), e.p);
    }
  }

  lemma RetreatKeepsJobs(s: State, e: Retreat)
    requires ProcsOk(s) && BusyOk(s) && JobsOk(s) && CanRetreat(s, e)
    ensures JobsOk(RetreatStep(s, e))
  {
    assert ProcOk(s.db, s.procs[e.p]) && JobOk(s.db, s.procs[e.p]);
    OneJobChanges(s, RetreatStep(s, e), e.p);
  }

  lemma StepKeepsJobs(s: State, e: Event)
    requires ProcsOk(s) && BusyOk(s) && JobsOk(s) && Enabled(s, e)
    ensures JobsOk(Step(s, e))
  {
    match e
    case Buy(b) => BuyKeepsJobs(s, b);
    case Del(d) => DelKeepsJobs(s, d);
    case Go(m) => GoKeepsJobs(s, m);
    case Back(r) => RetreatKeepsJobs(s, r);
    case Out(x) =>
      forall q | 0 <= q < |s.procs| ensures JobOk(Step(s, e).db, s.procs[q]) {
        assert JobOk(s.db, s.procs[q]);
      }
  }

  lemma {:induction false} RunKeepsJobs(s: State, es: seq<Event>, t: State)
    requires JobsOk(s) && Reaches(s, es, t)
    ensures JobsOk(t)
    decreases |es|
  {
    if es != [] {
      StepKeepsJobs(s, es[0]);
      RunKeepsJobs(Step(s, es[0]), es[1..], t);
    }
  }

  /** In every reachable state the job row of a migration shows where it stands. */
  lemma JobShowsPhase(t: State, p: nat)
    requires Reachable(t) && p < |t.procs| && t.procs[p].Migrating?
    ensures var c := t.procs[p];
      && c.job < |t.db.jobs| && t.db.jobs[c.job].server == c.sid && t.db.jobs[c.job].from == c.from
      && Shows(c.phase, t.db.jobs[c.job].status)
  {
    var s, es :| Opening(s) && Reaches(s, es, t);
    RunKeepsJobs(s, es, t);
    assert JobOk(t.db, t.procs[p]);
  }

  /** It ends as completed or as rolled back, and no other job row changes with it. */
  lemma JobEnds(t: State, p: nat, e: Event)
    requires Reachable(t) && ProcsOk(t) && BusyOk(t) && Enabled(t, e)
    requires e == Go(MoveCompleted(p)) || e == Back(MoveRolledBack(p))
    ensures var (c, u) := (t.procs[p], Step(t, e));
      && u.procs[p].Done? && c.job < |t.db.jobs|
      && u.db.jobs == t.db.jobs[c.job := Job(c.sid, c.from, c.to, if e.Go? then Completed else RolledBack)]
  {
    JobShowsPhase(t, p);
    assert ProcOk(t.db, t.procs[p]);
  }
}
