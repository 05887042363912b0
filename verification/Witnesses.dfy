/**
 Evidence is never made up: every entry that a snapshot holds is what a check process really exited
 with, and under discipline that process exited with the recorded commit checked out.
 */
module Witnesses {
  import opened Plans
  import opened Rows
  import opened Phases
  import opened Protocol
  import opened Snapshots
  import Discipline

  ghost predicate Witnessed(runs: set<CheckRun>, s: Snapshot) {
    forall e :: e in s.evidence ==> WasRun(runs, e)
  }

  ghost predicate WitnessInv(w: World) {
    && Witnessed(w.checkRuns, w.row.snap)
    && (Held(w.worker).Some? ==> Witnessed(w.checkRuns, Held(w.worker).value))
    && (w.worker.Owned? ==> w.worker.o.exited <= w.checkRuns)
  }

  /** Every check process exited where its entry says. */
  ghost predicate RanAtHead(w: World) {
    w.disciplined ==> forall r :: r in w.checkRuns ==> r.head == r.commit
  }

  lemma MoreRuns(runs: set<CheckRun>, more: set<CheckRun>, e: Evidence)
    requires WasRun(runs, e) && runs <= more
    ensures WasRun(more, e)
  {
    var r :| r in runs && r.argv == e.argv && r.commit == e.commit && r.exitCode == e.exitCode;
    assert r in more;
  }

  /** What any save may do to the evidence: keep it, drop it, or add what its tick saw exit. */
  ghost predicate AddsOnlyExits(o: OwnedTick, s: Snapshot) {
    forall e :: e in s.evidence ==> e in o.mem.evidence || WasRun(o.exited, e)
  }

  lemma PartialAddsExits(o: OwnedTick, s: Snapshot, repo: Repo)
    requires Partial(o, s, repo)
    ensures AddsOnlyExits(o, s)
  {
    hide CompletesTask, WasRun, MidHead, MidAttempts, MidPublication;
  }

  lemma FinalSaveAddsExits(o: OwnedTick, s: Snapshot, st: Status, repo: Repo)
    requires FinalSave(o, s, st, repo)
    ensures AddsOnlyExits(o, s)
  {
    hide CompletesTask, WasRun, MidHead, MidAttempts, MidPublication, ValidPlan, Runnable, EvidenceComplete, AllPassed,
      FailedIds, JudgeReady, Certified;
  }

  lemma AddedIsWitnessed(w: World, s: Snapshot)
    requires WitnessInv(w) && w.worker.Owned? && AddsOnlyExits(w.worker.o, s)
    ensures Witnessed(w.checkRuns, s)
  {
    hide WasRun;
    forall e | e in s.evidence
      ensures WasRun(w.checkRuns, e)
    {
      if e !in w.worker.o.mem.evidence { MoreRuns(w.worker.o.exited, w.checkRuns, e); }
    }
  }

  lemma TurnKeepsWitnesses(w: World, a: TurnAction)
    requires WitnessInv(w) && TurnPossible(w, a)
    ensures WitnessInv(TurnEffect(w, a))
  {
    hide WasRun, Fuel;
  }

  lemma PhaseKeepsWitnesses(w: World, a: PhaseAction)
    requires WitnessInv(w) && PhasePossible(w, a)
    requires a.PollSave? || a.EndSave? || a.CancelSave? ==> Witnessed(w.checkRuns, a.s)
    ensures WitnessInv(PhaseEffect(w, a))
  {
    hide WasRun, Fuel;
    forall e | WasRun(w.checkRuns, e)
      ensures WasRun(PhaseEffect(w, a).checkRuns, e)
    {
      MoreRuns(w.checkRuns, PhaseEffect(w, a).checkRuns, e);
    }
  }

  lemma StepKeepsWitnesses(w: World, a: Action)
    requires WitnessInv(w) && Enabled(w, a)
    ensures WitnessInv(Effect(w, a))
  {
    hide FinalSave, MidHead, MidAttempts, MidPublication, Partial, TurnEffect, PhaseEffect, ApiEffect, FlowEffect,
      AttemptEffect, WasRun, EvidenceSoFar;
    match a
    case Turn(x) => TurnKeepsWitnesses(w, x);
    case InPhase(x) =>
      if x.PollSave? { AddedIsWitnessed(w, x.s); }
      if x.EndSave? { FinalSaveAddsExits(w.worker.o, x.s, x.st, w.repo); AddedIsWitnessed(w, x.s); }
      if x.CancelSave? { PartialAddsExits(w.worker.o, x.s, w.repo); AddedIsWitnessed(w, x.s); }
      PhaseKeepsWitnesses(w, x);
    case _ => OutsideStepFrame(w, a);
  }

  lemma {:induction false} WitnessAlways(r: Run, i: nat)
    requires IsRun(r) && i < |r.states|
    ensures WitnessInv(r.states[i])
  {
    hide Effect, Enabled, WasRun;
    if i > 0 {
      WitnessAlways(r, i - 1);
      assert StepAt(r, i - 1);
      StepKeepsWitnesses(r.states[i - 1], r.actions[i - 1]);
    }
  }

  lemma TurnRunsNothing(w: World, a: TurnAction)
    requires TurnPossible(w, a)
    ensures TurnEffect(w, a).checkRuns == w.checkRuns && TurnEffect(w, a).disciplined == w.disciplined
  {
  }

  lemma StepRunsAtHead(w: World, a: Action)
    requires RanAtHead(w) && Discipline.HeadInv(w) && Enabled(w, a)
    ensures RanAtHead(Effect(w, a))
  {
    hide Permitted, TurnEffect, ApiEffect, FlowEffect, AttemptEffect, Discipline.AtHead, Fuel, SaveRow;
    match a
    case InPhase(x) =>
    case Turn(x) => TurnRunsNothing(w, x);
    case _ => OutsideStepFrame(w, a);
  }

  lemma NothingRunYet(w: World)
    requires Initial(w)
    ensures RanAtHead(w)
  {
  }

  lemma {:induction false} RunsAtHead(r: Run, i: nat)
    requires IsRun(r) && i < |r.states|
    ensures RanAtHead(r.states[i])
  {
    hide Effect, Enabled, Discipline.HeadInv, RanAtHead;
    if i > 0 {
      RunsAtHead(r, i - 1);
      Discipline.HeadAlways(r, i - 1);
      assert StepAt(r, i - 1);
      StepRunsAtHead(r.states[i - 1], r.actions[i - 1]);
    } else {
      NothingRunYet(r.states[0]);
    }
  }

  /** A process has run this check, unchanged, and exited with 0 at this commit. */
  ghost predicate PassedForReal(w: World, c: Check, commit: Commit) {
    exists r :: r in w.checkRuns && r.argv == c.argv && r.exitCode == 0 && r.commit == commit
      && (w.disciplined ==> r.head == commit)
  }

  /**
   In every reachable state, each check of a completed run's plan was run: some process with exactly
   its argv exited with 0 for the commit that the run is certified at; and, if read-only agents and
   acceptance commands leave HEAD alone, with that commit checked out as it exited.
   */
  lemma CompletedChecksWereRun(r: Run, i: nat)
    requires IsRun(r) && i < |r.states| && r.states[i].row.status.Completed?
    ensures
      var s := r.states[i].row.snap;
      && s.plan.Some? && s.judge.Some?
      && forall c :: c in s.plan.value.checks ==> PassedForReal(r.states[i], c, s.judge.value.commit)
  {
    hide Effect, Enabled, SnapshotFits, InStep, ValidPlan, JudgeReady;
    SnapshotInvAlways(r, i);
    WitnessAlways(r, i);
    RunsAtHead(r, i);
    var w := r.states[i];
    var s := w.row.snap;
    forall c | c in s.plan.value.checks
      ensures PassedForReal(w, c, s.judge.value.commit)
    {
      EvidenceForIsRecorded(s.evidence, c.id);
      var e := EvidenceFor(s.evidence, c.id).value;
      assert WasRun(w.checkRuns, e);
      var run :| run in w.checkRuns && run.argv == e.argv && run.commit == e.commit && run.exitCode == e.exitCode;
      assert run.head == run.commit || !w.disciplined;
    }
  }
}
