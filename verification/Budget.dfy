/**
 Write-ahead effects: the attempt counter is stored before every writable agent launch, and the
 publication target before every push, so neither a crash nor a retry can exceed the one or
 change the other.
 */
module Budget {
  import opened Prelude
  import opened Plans
  import opened Rows
  import opened Phases
  import opened Protocol
  import opened Snapshots

  // ----- Writable launches

  ghost predicate AttemptsFit(w: World, s: Snapshot) {
    w.launches <= s.attempts <= w.row.maxAttempts
  }

  ghost predicate BudgetInv(w: World) {
    && w.launches <= w.row.maxAttempts && w.row.snap.attempts <= w.row.maxAttempts
    && (!Terminal(w.row.status) ==> AttemptsFit(w, w.row.snap))
    && (Held(w.worker).Some? ==> AttemptsFit(w, Held(w.worker).value))
    && (w.worker.Resuming? ==> w.worker.max <= w.row.maxAttempts)
    && (w.worker.Owned? ==>
          && w.worker.o.max <= w.row.maxAttempts
          && (w.worker.o.charged && !w.worker.o.launched ==> w.launches < w.worker.o.mem.attempts))
  }

  ghost predicate TargetFits(s: Snapshot) {
    s.target.Some? ==> s.target.value.baseCommit == s.baseCommit && !s.phase.Prepare?
  }

  /** What a save may do to target and base. */
  ghost predicate KeepsTarget(d: Snapshot, s: Snapshot) {
    && (d.target.Some? ==> s.target == d.target)
    && (TargetFits(d) ==> TargetFits(s))
  }

  /** What any end of a tick may do to the attempt counter and to the publication target. */
  ghost predicate EndFrame(o: OwnedTick, s: Snapshot) {
    && (s.attempts == o.mem.attempts || (s.attempts == o.mem.attempts + 1 && s.attempts <= o.max))
    && KeepsTarget(o.mem, s)
  }

  lemma MidSaveFrame(o: OwnedTick, s: Snapshot, repo: Repo)
    requires MidSave(o, s, repo)
    ensures EndFrame(o, s)
  {
  }

  lemma PartialFrame(o: OwnedTick, s: Snapshot, repo: Repo)
    requires Partial(o, s, repo)
    ensures EndFrame(o, s)
  {
    hide CompletesTask, MidHead, MidEvidence;
  }

  lemma PlannedFrame(o: OwnedTick, s: Snapshot, st: Status, repo: Repo)
    requires Finished(o, s, st, repo) && !AllTasksDone(o.mem.phase)
    ensures EndFrame(o, s)
  {
    hide ValidPlan, Runnable, CompletesTask, MidHead, MidEvidence;
  }

  lemma CheckedFrame(o: OwnedTick, s: Snapshot, st: Status, repo: Repo)
    requires Finished(o, s, st, repo) && AllTasksDone(o.mem.phase)
    ensures EndFrame(o, s)
  {
    hide ValidPlan, Certified, JudgeReady, EvidenceSoFar, AllPassed, FailedIds, MidHead, MidEvidence;
  }

  lemma FinalSaveFrame(o: OwnedTick, s: Snapshot, st: Status, repo: Repo)
    requires FinalSave(o, s, st, repo)
    ensures EndFrame(o, s)
  {
    hide Partial, Finished, EndFrame;
    if Partial(o, s, repo) {
      PartialFrame(o, s, repo);
    } else if AllTasksDone(o.mem.phase) {
      CheckedFrame(o, s, st, repo);
    } else {
      PlannedFrame(o, s, st, repo);
    }
  }

  lemma TurnKeepsBudget(w: World, a: TurnAction)
    requires BudgetInv(w) && TurnPossible(w, a)
    ensures BudgetInv(TurnEffect(w, a))
  {
  }

  lemma PhaseKeepsBudget(w: World, a: PhaseAction)
    requires BudgetInv(w) && InStep(w) && PhasePossible(w, a)
    requires a.PollSave? ==> MidAttempts(w.worker.o, a.s)
    requires a.EndSave? || a.CancelSave? ==> EndFrame(w.worker.o, a.s)
    ensures BudgetInv(PhaseEffect(w, a))
  {
    hide KeepsTarget;
  }

  lemma StepKeepsBudget(w: World, a: Action)
    requires BudgetInv(w) && InStep(w) && Enabled(w, a)
    ensures BudgetInv(Effect(w, a))
  {
    hide FinalSave, Partial, MidHead, MidEvidence, MidPublication, MidAttempts, TurnEffect, PhaseEffect, ApiEffect,
      FlowEffect, AttemptEffect, EndFrame, InStep;
    match a
    case Turn(x) => TurnKeepsBudget(w, x);
    case InPhase(x) =>
      if x.EndSave? { FinalSaveFrame(w.worker.o, x.s, x.st, w.repo); }
      if x.CancelSave? { PartialFrame(w.worker.o, x.s, w.repo); }
      PhaseKeepsBudget(w, x);
    case _ => OutsideStepFrame(w, a);
  }

  lemma {:induction false} BudgetAlways(r: Run, i: nat)
    requires IsRun(r) && i < |r.states|
    ensures BudgetInv(r.states[i])
  {
    hide Effect, Enabled, SnapshotFits, Certified;
    if i > 0 {
      BudgetAlways(r, i - 1);
      SnapshotInvAlways(r, i - 1);
      assert StepAt(r, i - 1);
      StepKeepsBudget(r.states[i - 1], r.actions[i - 1]);
    }
  }

  /** The attempts added by the accepted commands of a run so far. */
  ghost function Granted(actions: seq<Action>): nat {
    if actions == [] then 0
    else
      var last := actions[|actions| - 1];
      Granted(actions[..|actions| - 1])
      + if last.Api? && last.api.AcceptCommand? && last.api.cmd.attempts > 0 then last.api.cmd.attempts else 0
  }

  lemma TurnKeepsLimit(w: World, a: TurnAction)
    requires TurnPossible(w, a)
    ensures TurnEffect(w, a).row.maxAttempts == w.row.maxAttempts
  {
    hide Decide, Begin;
  }

  lemma PhaseKeepsLimit(w: World, a: PhaseAction)
    requires PhasePossible(w, a)
    ensures PhaseEffect(w, a).row.maxAttempts == w.row.maxAttempts
  {
    hide Polled, AfterPoll;
  }

  lemma LimitStep(w: World, a: Action)
    requires Enabled(w, a)
    ensures
      var granted := if a.Api? && a.api.AcceptCommand? then a.api.cmd.attempts else 0;
      Effect(w, a).row.maxAttempts == w.row.maxAttempts + granted
    ensures a.Api? && a.api.AcceptCommand? ==> a.api.cmd.attempts >= 0
    ensures a.Api? && a.api.AcceptCommand? && !a.api.cmd.control.Resume? ==> a.api.cmd.attempts == 0
  {
    hide Permitted, TurnEffect, PhaseEffect, AttemptEffect, FlowEffect;
    match a
    case Turn(x) => TurnKeepsLimit(w, x);
    case InPhase(x) => PhaseKeepsLimit(w, x);
    case Workflow(_) => OutsideStepRow(w, a);
    case Attempt(_) => OutsideStepRow(w, a);
    case _ =>
  }

  /** How many of these actions started a writable agent. */
  ghost function Launched(actions: seq<Action>): nat {
    if actions == [] then 0
    else Launched(actions[..|actions| - 1]) + if actions[|actions| - 1] == InPhase(Launch) then 1 else 0
  }

  lemma PhaseLaunches(w: World, a: PhaseAction)
    requires PhasePossible(w, a)
    ensures PhaseEffect(w, a).launches == w.launches + if a.Launch? then 1 else 0
  {
    hide Fuel, SaveRow;
  }

  lemma TurnLaunches(w: World, a: TurnAction)
    requires TurnPossible(w, a)
    ensures TurnEffect(w, a).launches == w.launches
  {
    hide Fuel, SaveRow, Decide;
  }

  lemma {:induction false} LaunchesAreCounted(r: Run, i: nat)
    requires IsRun(r) && i < |r.states|
    ensures r.states[i].launches == Launched(r.actions[..i])
  {
    hide Permitted, PhaseEffect, TurnEffect, ApiEffect, FlowEffect, AttemptEffect;
    if i > 0 {
      LaunchesAreCounted(r, i - 1);
      assert StepAt(r, i - 1);
      assert r.actions[..i][..i - 1] == r.actions[..i - 1];
      match r.actions[i - 1]
      case Turn(x) => TurnLaunches(r.states[i - 1], x);
      case InPhase(x) => PhaseLaunches(r.states[i - 1], x);
      case _ => OutsideStepFrame(r.states[i - 1], r.actions[i - 1]);
    }
  }

  /**
   Over the whole run, crashes and resumes included, the writable agent launches stay within the
   attempt limit, and that limit is what the run started with plus what accepted resumes added.
   */
  lemma {:induction false} LaunchesStayWithinBudget(r: Run, i: nat)
    requires IsRun(r) && i < |r.states|
    ensures r.states[i].launches == Launched(r.actions[..i]) <= r.states[i].row.maxAttempts
    ensures r.states[i].row.maxAttempts == r.states[0].row.maxAttempts + Granted(r.actions[..i])
  {
    hide Effect, Enabled;
    BudgetAlways(r, i);
    LaunchesAreCounted(r, i);
    if i > 0 {
      LaunchesStayWithinBudget(r, i - 1);
      assert StepAt(r, i - 1);
      LimitStep(r.states[i - 1], r.actions[i - 1]);
      assert r.actions[..i][..i - 1] == r.actions[..i - 1];
    }
  }

  /** The charge is in the database before the agent starts, unless the run has already ended. */
  lemma LaunchIsPaidFor(r: Run, i: nat)
    requires IsRun(r) && i < |r.actions| && r.actions[i] == InPhase(Launch) && !Terminal(r.states[i].row.status)
    ensures r.states[i].launches < r.states[i].row.snap.attempts
  {
    hide SnapshotFits, Certified;
    BudgetAlways(r, i);
    SnapshotInvAlways(r, i);
    assert StepAt(r, i);
  }

  // ----- Publication

  ghost predicate PushesAgree(pushes: seq<Push>, t: Target) {
    forall p :: p in pushes ==> p.target == t && ReadyAt(p.state, p.head)
  }

  ghost predicate PublishInv(w: World) {
    && TargetFits(w.row.snap)
    && (Held(w.worker).Some? ==> TargetFits(Held(w.worker).value))
    && (w.pushes != [] ==>
          var t := w.pushes[0].target;
          && PushesAgree(w.pushes, t) && t.baseCommit == w.row.snap.baseCommit && !w.row.snap.phase.Prepare?
          && (!Terminal(w.row.status) ==> w.row.snap.target == Some(t))
          && (Held(w.worker).Some? ==> Held(w.worker).value.target == Some(t)))
  }

  lemma TurnKeepsPublication(w: World, a: TurnAction)
    requires PublishInv(w) && LineageInv(w) && InStep(w) && TurnPossible(w, a)
    ensures PublishInv(TurnEffect(w, a))
  {
    hide ReadyAt;
  }

  lemma PhaseKeepsPublication(w: World, a: PhaseAction)
    requires PublishInv(w) && LineageInv(w) && InStep(w) && PhasePossible(w, a)
    requires a.PollSave? || a.EndSave? || a.CancelSave? ==> KeepsTarget(w.worker.o.mem, a.s)
    requires a.PollSave? || a.EndSave? || a.CancelSave? ==> KeepsFrozenPlan(w.worker.o.mem, a.s)
    requires a.PushBranch? ==> ReadyAt(w.worker.o.mem, a.head)
    ensures PublishInv(PhaseEffect(w, a))
  {
    hide ReadyAt;
  }

  lemma SameLineageKeeps(a: Snapshot, b: Snapshot)
    requires SameLineage(a, b)
    ensures KeepsFrozenPlan(a, b)
  {
  }

  lemma StepKeepsPublication(w: World, a: Action)
    requires PublishInv(w) && LineageInv(w) && InStep(w) && Enabled(w, a)
    ensures PublishInv(Effect(w, a))
  {
    hide FinalSave, Partial, MidSave, ReadyAt, TurnEffect, PhaseEffect, ApiEffect, FlowEffect, AttemptEffect,
      KeepsTarget, KeepsFrozenPlan, InStep;
    match a
    case Turn(x) => TurnKeepsPublication(w, x);
    case InPhase(x) =>
      PhaseSavesKeepPlan(w, x);
      if x.EndSave? {
        FinalSaveFrame(w.worker.o, x.s, x.st, w.repo);
      } else if x.CancelSave? {
        PartialFrame(w.worker.o, x.s, w.repo);
      } else if x.PollSave? {
        MidSaveFrame(w.worker.o, x.s, w.repo);
        SameLineageKeeps(w.worker.o.mem, x.s);
      }
      PhaseKeepsPublication(w, x);
    case _ => OutsideStepFrame(w, a);
  }

  lemma {:induction false} PublishAlways(r: Run, i: nat)
    requires IsRun(r) && i < |r.states|
    ensures PublishInv(r.states[i])
  {
    hide Effect, Enabled, LineageInv, SnapshotFits, InStep, Certified;
    if i > 0 {
      PublishAlways(r, i - 1);
      LineageAlways(r, i - 1);
      SnapshotInvAlways(r, i - 1);
      assert StepAt(r, i - 1);
      StepKeepsPublication(r.states[i - 1], r.actions[i - 1]);
    }
  }

  /**
   Across every retry and crash all pushes of a run go to one target, made for the saved base
   commit, and each pushes a commit for which the completion predicate held.
   */
  lemma AllPushesAgree(r: Run, i: nat)
    requires IsRun(r) && i < |r.states|
    ensures
      forall p, q :: p in r.states[i].pushes && q in r.states[i].pushes ==>
        && p.target == q.target && p.target.baseCommit == r.states[i].row.snap.baseCommit
        && ReadyAt(p.state, p.head)
  {
    hide Effect, Enabled, ReadyAt;
    PublishAlways(r, i);
  }

  /** The target is in the database before the push starts, unless the run has already ended. */
  lemma PushIsWrittenAhead(r: Run, i: nat)
    requires IsRun(r) && i < |r.actions| && r.actions[i].InPhase? && r.actions[i].inner.PushBranch?
    requires !Terminal(r.states[i].row.status)
    ensures
      exists p :: r.states[i + 1].pushes == r.states[i].pushes + [p] && r.states[i].row.snap.target == Some(p.target)
  {
    hide SnapshotFits, Certified;
    SnapshotInvAlways(r, i);
    assert StepAt(r, i);
  }
}
