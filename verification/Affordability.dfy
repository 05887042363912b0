/** What a run can afford: every completed task has cost an attempt, in every reachable state. */
module Affordability {
  import opened Prelude
  import opened Plans
  import opened Rows
  import opened Phases
  import opened Protocol
  import opened Snapshots
  import Budget

  // ----- Tasks are paid for

  ghost predicate Paid(s: Snapshot) {
    |s.completed| <= s.attempts
  }

  /** A charged attempt is not yet spent on a task. */
  ghost predicate PaidTick(o: OwnedTick) {
    |o.mem.completed| + (if o.charged then 1 else 0) <= o.mem.attempts
  }

  ghost predicate PaidInv(w: World) {
    && Paid(w.row.snap)
    && (Held(w.worker).Some? ==> Paid(Held(w.worker).value))
    && (w.worker.Owned? ==> PaidTick(w.worker.o))
  }

  lemma PartialPays(o: OwnedTick, s: Snapshot, repo: Repo)
    requires Partial(o, s, repo) && PaidTick(o)
    ensures Paid(s)
  {
    hide MidHead, MidEvidence, MidPublication, ValidPlan, Runnable;
  }

  lemma FinalSavePays(o: OwnedTick, s: Snapshot, st: Status, repo: Repo)
    requires FinalSave(o, s, st, repo) && PaidTick(o)
    ensures Paid(s)
  {
    hide MidHead, MidEvidence, MidPublication, ValidPlan, Runnable, EvidenceComplete, AllPassed, FailedIds, JudgeReady,
      Certified;
  }

  lemma MidSavePays(o: OwnedTick, s: Snapshot, repo: Repo)
    requires MidSave(o, s, repo) && PaidTick(o)
    ensures Paid(s) && PaidTick(AfterPoll(o, s, repo))
  {
  }

  lemma TurnKeepsPaid(w: World, a: TurnAction)
    requires PaidInv(w) && TurnPossible(w, a)
    ensures PaidInv(TurnEffect(w, a))
  {
    hide Fuel;
  }

  lemma PhaseKeepsPaid(w: World, a: PhaseAction)
    requires PaidInv(w) && PhasePossible(w, a)
    requires a.PollSave? ==> Paid(a.s) && PaidTick(AfterPoll(w.worker.o, a.s, w.repo))
    requires a.EndSave? || a.CancelSave? ==> Paid(a.s)
    ensures PaidInv(PhaseEffect(w, a))
  {
    hide Fuel;
  }

  lemma PaidTickHere(w: World)
    requires PaidInv(w) && w.worker.Owned?
    ensures PaidTick(w.worker.o)
  {
  }

  lemma StepKeepsPaid(w: World, a: Action)
    requires PaidInv(w) && Enabled(w, a)
    ensures PaidInv(Effect(w, a))
  {
    hide FinalSave, MidSave, Partial, Fuel, TurnEffect, PhaseEffect, ApiEffect, FlowEffect, AttemptEffect, PaidTick;
    match a
    case Turn(x) => TurnKeepsPaid(w, x);
    case InPhase(x) =>
      if x.PollSave? { MidSavePays(w.worker.o, x.s, w.repo); }
      if x.EndSave? { PaidTickHere(w); FinalSavePays(w.worker.o, x.s, x.st, w.repo); }
      if x.CancelSave? { PaidTickHere(w); PartialPays(w.worker.o, x.s, w.repo); }
      PhaseKeepsPaid(w, x);
    case _ => OutsideStepFrame(w, a);
  }

  lemma {:induction false} PaidAlways(r: Run, i: nat)
    requires IsRun(r) && i < |r.states|
    ensures PaidInv(r.states[i])
  {
    hide Effect, Enabled;
    if i > 0 {
      PaidAlways(r, i - 1);
      assert StepAt(r, i - 1);
      StepKeepsPaid(r.states[i - 1], r.actions[i - 1]);
    }
  }

  /** A completed run has no more tasks than its limit has attempts. */
  lemma CompletedRunsWereAffordable(r: Run, i: nat)
    requires IsRun(r) && i < |r.states| && r.states[i].row.status.Completed?
    ensures
      var s := r.states[i].row.snap;
      s.plan.Some? && |s.plan.value.tasks| <= |s.completed| <= s.attempts <= r.states[i].row.maxAttempts
  {
    hide Effect, Enabled, SnapshotFits, InStep;
    PaidAlways(r, i);
    SnapshotInvAlways(r, i);
    Budget.BudgetAlways(r, i);
    var s := r.states[i].row.snap;
    NoDupCard(TaskIds(s.plan.value));
    CardNoDup(s.completed);
    SubsetCard(Elems(TaskIds(s.plan.value)), Elems(s.completed));
  }
}
