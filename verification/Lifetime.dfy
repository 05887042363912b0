/**
 The protocol's theorems, read off the objects: a run driven by the engine's own ticks, with the
 API, the reconciler and the workflow in between, processes dying anywhere, and results handed
 over or lost in any order.
 */
module Lifetime {
  import opened Plans
  import opened Phases
  import opened Protocol
  import opened Outcomes
  import opened Snapshots
  import Budget
  import Publication
  import Engine

  /** Whatever happened so far, this is what the database row and the outside world show. */
  ghost predicate Trustworthy(e: Engine.Engine)
    reads e, e.db
  {
    && (e.db.status.Completed? ==> Certified(e.db.snap))
    && (PlanFrozen(e.db.snap.phase) ==> e.db.snap.plan.Some? && ValidPlan(e.db.snap.plan.value))
    && e.world.launches <= e.db.maxAttempts
    && (e.db.status.Completed? && e.db.requestPr ==>
          Request(e.db.snap.judge.value.commit, e.db.snap.prUrl) in e.world.requests)
    && (forall p, q :: p in e.world.pushes && q in e.world.pushes ==> p.target == q.target && ReadyAt(p.state, p.head))
  }

  method HandOver(e: Engine.Engine, a: Action)
    requires e.Valid() && Enabled(e.world, a) && (a == Attempt(AttemptAction.Leave) || a == Workflow(TakeResult))
    modifies e
    ensures e.Valid() && old(e.run.states) <= e.run.states
  {
    hide IsPath;
    OutsideStepRow(e.world, a);
    OutsideStepFrame(e.world, a);
    e.Record(a);
  }

  lemma OutsideIsEnabled(w: World, a: Action)
    requires OutsidePossible(w, a)
    ensures Enabled(w, a)
  {
    hide Permitted;
  }

  /** Others act, a result is handed over or lost, or an activity attempt gets the lock and ticks. */
  method Round(e: Engine.Engine)
    requires e.Valid() && IsRun(e.run)
    modifies e, e.db
    ensures e.Valid() && IsRun(e.run)
  {
    hide Effect, Enabled, StepAt;
    e.Interfere();
    var attach: bool := *;
    if OutsidePossible(e.world, Attempt(Acquire(attach))) {
      OutsideIsEnabled(e.world, Attempt(Acquire(attach)));
      var answers: Answers := *;
      var result := e.Tick(attach, answers);
    } else if OutsidePossible(e.world, Attempt(AttemptAction.Leave)) {
      OutsideIsEnabled(e.world, Attempt(AttemptAction.Leave));
      HandOver(e, Attempt(AttemptAction.Leave));
    } else if OutsidePossible(e.world, Workflow(TakeResult)) {
      OutsideIsEnabled(e.world, Workflow(TakeResult));
      HandOver(e, Workflow(TakeResult));
    }
  }

  lemma Witness(e: Engine.Engine)
    requires e.Valid() && IsRun(e.run)
    ensures Trustworthy(e)
  {
    hide Effect, Enabled, Certified, ReadyAt, TasksFit, EvidenceFits, InStep, ValidPlan;
    var last := |e.run.states| - 1;
    SnapshotInvAlways(e.run, last);
    Budget.LaunchesStayWithinBudget(e.run, last);
    Budget.AllPushesAgree(e.run, last);
    if e.db.status.Completed? && e.db.requestPr { Publication.RequestedPublicationHappened(e.run, last); }
  }

  method Live(attempts: nat, seconds: nat, requestPr: bool, base: Commit, disciplined: bool)
    returns (e: Engine.Engine)
    requires base.id != ""
    ensures e.Valid() && IsRun(e.run) && Trustworthy(e)
  {
    hide Effect, Enabled, Certified, ReadyAt, SnapshotFits, InStep;
    e := new Engine.Engine(attempts, seconds, requestPr, base, disciplined, false);
    var rounds: nat := *;
    while rounds > 0
      invariant e.Valid() && IsRun(e.run) && fresh(e) && fresh(e.db)
    {
      Round(e);
      rounds := rounds - 1;
    }
    Witness(e);
  }
}
