/**
 What every reachable snapshot satisfies: the plan is frozen, the completed tasks are a
 topological prefix, the evidence fits the phase, and a completed run proves itself.
 */
module Snapshots {
  import opened Prelude
  import opened Dependencies
  import opened Plans
  import opened Rows
  import opened Phases
  import opened Protocol
  import Commands

  predicate Reviewed(p: Phase) {
    p.JudgeWork? || p.Deliver?
  }

  predicate ChecksPassed(p: Phase) {
    p.ReviewWork? || Reviewed(p)
  }

  predicate AllTasksDone(p: Phase) {
    p.Verify? || p.Repair? || ChecksPassed(p)
  }

  predicate PlanFrozen(p: Phase) {
    p.Implement? || AllTasksDone(p)
  }

  // ----- The snapshot invariant

  ghost predicate PlanFits(s: Snapshot) {
    && !s.phase.Unrecognized?
    && (s.phase.ReviewPlan? || PlanFrozen(s.phase) ==>
          s.plan.Some? && ValidPlan(s.plan.value) && s.plan.value.clarification == "")
    && (PlanFrozen(s.phase) ==> ReviewPasses(s.planReview))
  }

  ghost predicate TasksFit(s: Snapshot)
    requires PlanFits(s)
  {
    && (!PlanFrozen(s.phase) ==> s.completed == [])
    && (PlanFrozen(s.phase) ==> IsPrefix(TaskGraph(s.plan.value.tasks), s.completed))
    && (AllTasksDone(s.phase) ==> Elems(s.completed) == Elems(TaskIds(s.plan.value)))
  }

  ghost predicate PassedAt(s: Snapshot, commit: Commit) {
    s.plan.Some? && EvidenceComplete(s.plan.value, s.evidence, commit) && AllPassed(s.evidence)
  }

  /** From review on: one passing entry per check, in plan order, all at one commit. */
  ghost predicate EvidenceFits(s: Snapshot)
    requires PlanFits(s)
  {
    && (ChecksPassed(s.phase) ==> exists c :: PassedAt(s, c))
    && (Reviewed(s.phase) ==> ReviewPasses(s.review))
    && (s.phase.Deliver? ==> s.judge.Some? && JudgeReady(s.plan.value, s.judge.value, s.judge.value.commit))
  }

  ghost predicate SnapshotFits(s: Snapshot) {
    PlanFits(s) && TasksFit(s) && EvidenceFits(s)
  }

  lemma ResumeFits(s: Snapshot, note: string)
    requires SnapshotFits(s)
    ensures SnapshotFits(ResumeEdit(s, note))
  {
    var r := ResumeEdit(s, note);
    if ChecksPassed(s.phase) {
      var c :| PassedAt(s, c);
      assert PassedAt(r, c);
    }
  }

  lemma MidSaveFits(o: OwnedTick, s: Snapshot, repo: Repo)
    requires SnapshotFits(o.mem) && MidSave(o, s, repo)
    ensures SnapshotFits(s)
  {
    if ChecksPassed(s.phase) {
      var c :| PassedAt(o.mem, c);
      assert PassedAt(s, c);
    }
  }

  lemma CompletesTaskFits(d: Snapshot, s: Snapshot)
    requires SnapshotFits(d) && d.phase.Implement? && s.phase.Implement?
    requires s.plan == d.plan && s.planReview == d.planReview
    requires s.completed == d.completed || CompletesTask(d, s)
    ensures SnapshotFits(s)
  {
    if s.completed != d.completed {
      var t :| t in d.plan.value.tasks && Runnable(t, d.completed) && s.completed == d.completed + [t.id];
      CompletingExtendsPrefix(d.plan.value, d.completed, t);
    }
  }

  lemma PartialFits(o: OwnedTick, s: Snapshot, repo: Repo)
    requires SnapshotFits(o.mem) && Partial(o, s, repo)
    ensures SnapshotFits(s)
  {
    if MidSave(o, s, repo) {
      MidSaveFits(o, s, repo);
    } else if o.mem.phase.Implement? {
      CompletesTaskFits(o.mem, s);
    }
  }

  lemma AllTasksCompleted(d: Snapshot)
    requires SnapshotFits(d) && d.phase.Implement?
    requires forall t :: t in d.plan.value.tasks ==> !Runnable(t, d.completed)
    ensures Elems(d.completed) == Elems(TaskIds(d.plan.value))
  {
    SchedulerNeverDeadlocks(d.plan.value, d.completed);
    TaskIdsAreKeys(d.plan.value);
    var g := TaskGraph(d.plan.value.tasks);
    forall n | n in d.completed
      ensures n in g
    {
      var k :| 0 <= k < |d.completed| && d.completed[k] == n;
    }
  }

  lemma PlanningFits(o: OwnedTick, s: Snapshot, st: Status, repo: Repo)
    requires SnapshotFits(o.mem)
    requires (PrepareDone(o.mem, s, st, repo) && o.mem.phase.Prepare?)
             || (PlanDone(o, s, st, repo) && o.mem.phase.MakePlan?)
             || (PlanReviewDone(o, s, st, repo) && o.mem.phase.ReviewPlan?)
    ensures SnapshotFits(s)
  {
  }

  lemma CodingFits(o: OwnedTick, s: Snapshot, st: Status, repo: Repo)
    requires SnapshotFits(o.mem)
    requires (o.mem.phase.Implement? && (NoTaskLeft(o, s, st, repo) || AttemptDone(o, s, st, repo)))
             || (RepairDone(o, s, st, repo) && o.mem.phase.Repair?)
    ensures SnapshotFits(s)
  {
    if o.mem.phase.Implement? {
      if s.phase.Verify? {
        AllTasksCompleted(o.mem);
      } else {
        CompletesTaskFits(o.mem, s);
      }
    }
  }

  lemma CheckingFits(o: OwnedTick, s: Snapshot, st: Status, repo: Repo)
    requires SnapshotFits(o.mem)
    requires (VerifyDone(o, s, st, repo) && o.mem.phase.Verify?)
             || (ReviewDone(o, s, st, repo) && o.mem.phase.ReviewWork?)
             || (JudgeDone(o, s, st, repo) && o.mem.phase.JudgeWork?)
             || (DeliverDone(o, s, st, repo) && o.mem.phase.Deliver?)
    ensures SnapshotFits(s)
  {
    if o.mem.phase.Verify? {
      if s.phase.ReviewWork? { assert PassedAt(s, s.headCommit); }
    } else {
      var c :| PassedAt(o.mem, c);
      assert PassedAt(s, c);
    }
  }

  lemma FinalSaveFits(o: OwnedTick, s: Snapshot, st: Status, repo: Repo)
    requires SnapshotFits(o.mem) && FinalSave(o, s, st, repo)
    ensures SnapshotFits(s)
  {
    if Partial(o, s, repo) {
      PartialFits(o, s, repo);
    } else {
      assert Finished(o, s, st, repo);
      match o.mem.phase
      case Prepare => PlanningFits(o, s, st, repo);
      case MakePlan => PlanningFits(o, s, st, repo);
      case ReviewPlan => PlanningFits(o, s, st, repo);
      case Implement => CodingFits(o, s, st, repo);
      case Repair => CodingFits(o, s, st, repo);
      case _ => CheckingFits(o, s, st, repo);
    }
  }

  // ----- The invariant of the protocol

  /** The snapshot a tick holds between two of its statements. */
  function Held(worker: Worker): Option<Snapshot> {
    match worker
    case Halting(_, _, mem, _) => Some(mem)
    case Resuming(_, mem, _, _) => Some(mem)
    case Owned(o) => Some(o.mem)
    case _ => None
  }

  /**
   While the row is not terminal, the tick's snapshot is the saved one: every save of the lock
   holder succeeds, and nobody else writes snapshots.
   */
  ghost predicate InStep(w: World) {
    !Terminal(w.row.status) ==>
      match w.worker
      case Halting(_, _, mem, _) => w.row.snap == mem
      case Resuming(_, mem, _, resumed) =>
        if resumed then w.row.snap == mem
        else mem == w.row.snap.(failureCount := 0, repeatedFailures := 0, lastFailed := None,
                                clarifications := mem.clarifications)
      case Owned(o) => w.row.snap == o.mem
      case _ => true
  }

  ghost predicate SnapshotInv(w: World) {
    && SnapshotFits(w.row.snap)
    && (Held(w.worker).Some? ==> SnapshotFits(Held(w.worker).value))
    && InStep(w)
    && (w.row.status.Completed? ==> Certified(w.row.snap))
  }

  lemma InitialSnapshotInv(w: World)
    requires Initial(w)
    ensures SnapshotInv(w)
  {
  }

  lemma TurnKeepsSnapshots(w: World, a: TurnAction)
    requires SnapshotInv(w) && Commands.CommandInv(w) && TurnPossible(w, a)
    requires SnapshotFits(ResumeEdit(w.row.snap, w.row.clarification))
    ensures SnapshotInv(TurnEffect(w, a))
  {
    hide SnapshotFits, Certified, Commands.FlowKnows;
  }

  lemma ResumedFits(w: World)
    requires SnapshotInv(w)
    ensures SnapshotFits(ResumeEdit(w.row.snap, w.row.clarification))
  {
    hide SnapshotFits;
    ResumeFits(w.row.snap, w.row.clarification);
  }

  lemma PhaseKeepsSnapshots(w: World, a: PhaseAction)
    requires SnapshotInv(w) && !w.row.status.Completed? && PhasePossible(w, a)
    requires a.PollSave? || a.EndSave? || a.CancelSave? ==> SnapshotFits(a.s)
    requires a.EndSave? && a.st.Completed? ==> Certified(a.s)
    ensures SnapshotInv(PhaseEffect(w, a))
  {
    hide SnapshotFits, Certified;
  }

  lemma CompletedIsCertified(o: OwnedTick, s: Snapshot, repo: Repo)
    requires FinalSave(o, s, Completed, repo)
    ensures Certified(s)
  {
  }

  lemma PhaseSavesFit(w: World, a: PhaseAction)
    requires SnapshotInv(w) && PhasePossible(w, a) && Permitted(w, a)
    ensures a.PollSave? || a.EndSave? || a.CancelSave? ==> SnapshotFits(a.s)
    ensures a.EndSave? && a.st.Completed? ==> Certified(a.s)
  {
    hide SnapshotFits, Certified, MidSave, Partial, FinalSave;
    if a.PollSave? {
      MidSaveFits(w.worker.o, a.s, w.repo);
    } else if a.CancelSave? {
      PartialFits(w.worker.o, a.s, w.repo);
    } else if a.EndSave? {
      FinalSaveFits(w.worker.o, a.s, a.st, w.repo);
      if a.st.Completed? { CompletedIsCertified(w.worker.o, a.s, w.repo); }
    }
  }

  lemma NotCompletedWhileHeld(w: World)
    requires Commands.CommandInv(w) && w.worker.Owned?
    ensures !w.row.status.Completed?
  {
  }

  lemma OutsideKeepsSnapshots(w: World, n: World)
    requires SnapshotInv(w) && OutsideFrame(w, n)
    ensures SnapshotInv(n)
  {
    hide SnapshotFits, Certified;
  }

  lemma StepKeepsSnapshots(w: World, a: Action)
    requires SnapshotInv(w) && Commands.CommandInv(w) && Enabled(w, a)
    ensures SnapshotInv(Effect(w, a))
  {
    hide SnapshotInv, Permitted, Commands.CommandInv, TurnEffect, PhaseEffect, ApiEffect, FlowEffect, AttemptEffect,
      OutsideFrame;
    match a
    case Turn(x) =>
      ResumedFits(w);
      TurnKeepsSnapshots(w, x);
    case InPhase(x) =>
      NotCompletedWhileHeld(w);
      PhaseSavesFit(w, x);
      PhaseKeepsSnapshots(w, x);
    case _ =>
      OutsideStepFrame(w, a);
      OutsideKeepsSnapshots(w, Effect(w, a));
  }

  lemma {:induction false} SnapshotInvAlways(r: Run, i: nat)
    requires IsRun(r) && i < |r.states|
    ensures SnapshotInv(r.states[i])
  {
    hide Effect, Enabled, SnapshotInv, Commands.CommandInv;
    if i == 0 {
      InitialSnapshotInv(r.states[0]);
    } else {
      SnapshotInvAlways(r, i - 1);
      Commands.CommandInvAlways(r, i - 1);
      assert StepAt(r, i - 1);
      StepKeepsSnapshots(r.states[i - 1], r.actions[i - 1]);
    }
  }

  // ----- Self-certifying completion

  /**
   In every reachable state, a completed run's stored snapshot satisfies the completion predicate
   at the commit its judge assessed, and so accounts for every requirement of a valid plan.
   */
  lemma CompletedRunsCertifyThemselves(r: Run, i: nat)
    requires IsRun(r) && i < |r.states| && r.states[i].row.status.Completed?
    ensures
      var s := r.states[i].row.snap;
      && Certified(s)
      && s.review.Some? && s.review.value.passed && s.review.value.findings == []
      && Acquits(s.plan.value, s.judge.value, s.judge.value.commit)
      && forall q :: q in RequirementIds(s.plan.value) ==>
           Accounted(s.plan.value, s.completed, s.evidence, s.judge.value, s.judge.value.commit, q)
  {
    hide Effect, Enabled;
    SnapshotInvAlways(r, i);
    var s := r.states[i].row.snap;
    JudgeReadyExactly(s.plan.value, s.judge.value, s.judge.value.commit);
    CompletionAccountsForEverything(s.plan.value, s.completed, s.evidence, s.judge.value.commit, ReviewPasses(s.review),
                                    s.judge);
  }

  /**
   The scheduler in every reachable state: completed tasks are distinct tasks of the plan, each
   completed after all its dependencies, and all of them are completed in every later phase.
   */
  lemma CompletedTasksAreAPrefix(r: Run, i: nat)
    requires IsRun(r) && i < |r.states| && PlanFrozen(r.states[i].row.snap.phase)
    ensures
      var s := r.states[i].row.snap;
      && s.plan.Some? && IsPrefix(TaskGraph(s.plan.value.tasks), s.completed)
      && Elems(s.completed) <= Elems(TaskIds(s.plan.value))
      && (!s.phase.Implement? ==> Elems(s.completed) == Elems(TaskIds(s.plan.value)))
  {
    hide Effect, Enabled;
    SnapshotInvAlways(r, i);
    var s := r.states[i].row.snap;
    TaskIdsAreKeys(s.plan.value);
    forall n | n in s.completed
      ensures n in TaskIds(s.plan.value)
    {
      var k :| 0 <= k < |s.completed| && s.completed[k] == n;
      assert n in Elems(TaskIds(s.plan.value));
    }
  }

  // ----- The frozen plan

  /** A held snapshot never leaves the phase, plan and base of the saved one. */
  ghost predicate SameLineage(a: Snapshot, b: Snapshot) {
    a.phase == b.phase && a.plan == b.plan && a.planReview == b.planReview && a.baseCommit == b.baseCommit
  }

  ghost predicate LineageInv(w: World) {
    Held(w.worker).Some? ==> SameLineage(Held(w.worker).value, w.row.snap)
  }

  /** A save keeps a frozen plan frozen; freezing takes the plan as it was reviewed. */
  ghost predicate KeepsFrozenPlan(before: Snapshot, after: Snapshot) {
    && (PlanFrozen(before.phase) ==>
          PlanFrozen(after.phase) && after.plan == before.plan && after.planReview == before.planReview)
    && (PlanFrozen(after.phase) && !PlanFrozen(before.phase) ==>
          && before.phase.ReviewPlan? && after.phase.Implement? && after.plan == before.plan
          && ReviewPasses(after.planReview))
    && (!before.phase.Prepare? ==> after.baseCommit == before.baseCommit && !after.phase.Prepare?)
  }

  lemma PartialKeepsPlan(o: OwnedTick, s: Snapshot, repo: Repo)
    requires Partial(o, s, repo)
    ensures KeepsFrozenPlan(o.mem, s)
  {
  }

  lemma PlanningKeepsPlan(o: OwnedTick, s: Snapshot, st: Status, repo: Repo)
    requires Finished(o, s, st, repo) && !PlanFrozen(o.mem.phase)
    ensures KeepsFrozenPlan(o.mem, s)
  {
    hide ValidPlan, MidHead, MidAttempts, MidPublication, MidEvidence, VerifyDone, AttemptDone, DeliverDone, JudgeDone,
      NoTaskLeft, ReviewDone, RepairDone;
  }

  lemma FrozenKeepsPlan(o: OwnedTick, s: Snapshot, st: Status, repo: Repo)
    requires Finished(o, s, st, repo) && PlanFrozen(o.mem.phase)
    ensures KeepsFrozenPlan(o.mem, s)
  {
    hide ValidPlan, Certified, JudgeReady, Runnable, EvidenceSoFar, AllPassed, FailedIds, MidHead, MidAttempts,
      MidPublication, MidEvidence, CompletesTask, PlanDone, PlanReviewDone, PrepareDone;
  }

  lemma FinalSaveKeepsPlan(o: OwnedTick, s: Snapshot, st: Status, repo: Repo)
    requires FinalSave(o, s, st, repo)
    ensures KeepsFrozenPlan(o.mem, s)
  {
    hide Partial, Finished, KeepsFrozenPlan;
    if Partial(o, s, repo) {
      PartialKeepsPlan(o, s, repo);
    } else if PlanFrozen(o.mem.phase) {
      FrozenKeepsPlan(o, s, st, repo);
    } else {
      PlanningKeepsPlan(o, s, st, repo);
    }
  }

  lemma TurnKeepsLineage(w: World, a: TurnAction)
    requires LineageInv(w) && TurnPossible(w, a)
    ensures LineageInv(TurnEffect(w, a)) && KeepsFrozenPlan(w.row.snap, TurnEffect(w, a).row.snap)
  {
  }

  lemma PhaseKeepsLineage(w: World, a: PhaseAction)
    requires LineageInv(w) && PhasePossible(w, a)
    requires a.PollSave? ==> SameLineage(w.worker.o.mem, a.s)
    requires a.EndSave? || a.CancelSave? ==> KeepsFrozenPlan(w.worker.o.mem, a.s)
    ensures LineageInv(PhaseEffect(w, a)) && KeepsFrozenPlan(w.row.snap, PhaseEffect(w, a).row.snap)
  {
  }

  lemma PhaseSavesKeepPlan(w: World, a: PhaseAction)
    requires PhasePossible(w, a) && Permitted(w, a)
    ensures a.PollSave? ==> SameLineage(w.worker.o.mem, a.s)
    ensures a.EndSave? || a.CancelSave? ==> KeepsFrozenPlan(w.worker.o.mem, a.s)
  {
    hide Partial, FinalSave, ReadyAt, MidHead, MidAttempts, MidEvidence, MidPublication, KeepsFrozenPlan;
    if a.EndSave? { FinalSaveKeepsPlan(w.worker.o, a.s, a.st, w.repo); }
    if a.CancelSave? { PartialKeepsPlan(w.worker.o, a.s, w.repo); }
  }

  lemma StepKeepsLineage(w: World, a: Action)
    requires LineageInv(w) && Enabled(w, a)
    ensures LineageInv(Effect(w, a)) && KeepsFrozenPlan(w.row.snap, Effect(w, a).row.snap)
  {
    hide Permitted, TurnEffect, PhaseEffect, ApiEffect, FlowEffect, AttemptEffect;
    match a
    case Turn(x) => TurnKeepsLineage(w, x);
    case InPhase(x) =>
      PhaseSavesKeepPlan(w, x);
      PhaseKeepsLineage(w, x);
    case _ => OutsideStepFrame(w, a);
  }

  lemma {:induction false} LineageAlways(r: Run, i: nat)
    requires IsRun(r) && i < |r.states|
    ensures LineageInv(r.states[i])
  {
    hide Effect, Enabled, KeepsFrozenPlan;
    if i > 0 {
      LineageAlways(r, i - 1);
      assert StepAt(r, i - 1);
      StepKeepsLineage(r.states[i - 1], r.actions[i - 1]);
    }
  }

  /**
   Once the stored run has reached implementation, its plan is the reviewed one for ever: valid,
   without open clarification, passed by its review without findings, and unchanged through repair,
   interruption and resume. The base commit is fixed from the end of preparation on.
   */
  lemma {:induction false} PlanStaysFrozen(r: Run, i: nat, j: nat)
    requires IsRun(r) && i <= j < |r.states|
    requires PlanFrozen(r.states[i].row.snap.phase)
    ensures PlanFrozen(r.states[j].row.snap.phase) && r.states[j].row.snap.plan == r.states[i].row.snap.plan
    ensures r.states[j].row.snap.planReview == r.states[i].row.snap.planReview
    ensures ReviewPasses(r.states[j].row.snap.planReview)
    ensures r.states[j].row.snap.baseCommit == r.states[i].row.snap.baseCommit
    ensures
      var p := r.states[j].row.snap.plan;
      p.Some? && ValidPlan(p.value) && p.value.clarification == ""
    decreases j - i
  {
    hide Effect, Enabled, ValidPlan, TasksFit, EvidenceFits, InStep, Certified, Held;
    if i < j {
      PlanStaysFrozen(r, i, j - 1);
      LineageAlways(r, j - 1);
      assert StepAt(r, j - 1);
      StepKeepsLineage(r.states[j - 1], r.actions[j - 1]);
    }
    SnapshotInvAlways(r, j);
  }

  /** The step that freezes a plan is the plan review's: of the plan it reviewed, and passed without findings. */
  lemma FreezingTakesTheReviewedPlan(r: Run, i: nat)
    requires IsRun(r) && i < |r.actions|
    requires !PlanFrozen(r.states[i].row.snap.phase) && PlanFrozen(r.states[i + 1].row.snap.phase)
    ensures r.states[i].row.snap.phase.ReviewPlan? && r.states[i + 1].row.snap.phase.Implement?
    ensures r.states[i + 1].row.snap.plan == r.states[i].row.snap.plan
    ensures ReviewPasses(r.states[i + 1].row.snap.planReview)
  {
    hide Effect, Enabled;
    LineageAlways(r, i);
    SnapshotInvAlways(r, i + 1);
    assert StepAt(r, i);
    StepKeepsLineage(r.states[i], r.actions[i]);
  }
}
