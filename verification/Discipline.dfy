/**
 If read-only agents and acceptance commands leave HEAD and the worktree alone, the evidence stays
 tied to the worktree's HEAD from verification to delivery, and delivery never blocks on it.
 */
module Discipline {
  import opened Prelude
  import opened Plans
  import opened Rows
  import opened Phases
  import opened Protocol
  import opened Snapshots

  /** The snapshot's evidence and judgement are about the commit now checked out, on a clean tree. */
  ghost predicate AtHead(s: Snapshot, repo: Repo) {
    && (ChecksPassed(s.phase) ==> repo.clean && repo.head == s.headCommit && PassedAt(s, s.headCommit))
    && (s.phase.Deliver? ==> s.judge.Some? && s.judge.value.commit == s.headCommit)
  }

  ghost predicate Sealed(o: OwnedTick, repo: Repo) {
    o.mem.phase.Verify? && o.sealed ==> repo.clean && repo.head == o.mem.headCommit
  }

  ghost predicate HeadInv(w: World) {
    w.repo.head.id != "" &&
    (w.disciplined ==>
      && (!Terminal(w.row.status) ==> AtHead(w.row.snap, w.repo))
      && (Held(w.worker).Some? ==> AtHead(Held(w.worker).value, w.repo))
      && (w.worker.Owned? ==> Sealed(w.worker.o, w.repo)))
  }

  lemma MidSaveAtHead(o: OwnedTick, s: Snapshot, repo: Repo)
    requires MidSave(o, s, repo) && AtHead(o.mem, repo) && Sealed(o, repo)
    ensures AtHead(s, repo)
    ensures s.phase.Verify? && o.sealed ==> s.headCommit == repo.head
  {
  }

  lemma PartialAtHead(o: OwnedTick, s: Snapshot, repo: Repo)
    requires Partial(o, s, repo) && AtHead(o.mem, repo) && Sealed(o, repo)
    ensures AtHead(s, repo)
  {
    hide CompletesTask;
  }

  lemma CheckedAtHead(o: OwnedTick, s: Snapshot, st: Status, repo: Repo)
    requires Finished(o, s, st, repo) && AtHead(o.mem, repo) && Sealed(o, repo) && ChecksPassed(s.phase)
    ensures AtHead(s, repo)
  {
    hide ValidPlan, MidAttempts, MidPublication, Certified;
  }

  lemma FinalSaveAtHead(o: OwnedTick, s: Snapshot, st: Status, repo: Repo)
    requires FinalSave(o, s, st, repo) && AtHead(o.mem, repo) && Sealed(o, repo)
    ensures AtHead(s, repo)
  {
    hide CompletesTask, ValidPlan, MidAttempts, MidPublication, Runnable, Certified;
    if Partial(o, s, repo) {
      PartialAtHead(o, s, repo);
    } else if ChecksPassed(s.phase) {
      CheckedAtHead(o, s, st, repo);
    }
  }

  lemma TurnKeepsHead(w: World, a: TurnAction)
    requires HeadInv(w) && InStep(w) && TurnPossible(w, a)
    ensures HeadInv(TurnEffect(w, a))
  {
    hide EvidenceComplete, AllPassed;
  }

  lemma PhaseKeepsHead(w: World, a: PhaseAction)
    requires HeadInv(w) && InStep(w) && PhasePossible(w, a)
    requires w.disciplined && (a.PollSave? || a.EndSave? || a.CancelSave?) ==> AtHead(a.s, w.repo)
    requires w.disciplined && a.PollSave? && a.s.phase.Verify? && w.worker.o.sealed ==> a.s.headCommit == w.repo.head
    requires a.PollSave? ==> a.s.phase == w.worker.o.mem.phase
    ensures HeadInv(PhaseEffect(w, a))
  {
    hide PassedAt;
  }

  lemma StepKeepsHead(w: World, a: Action)
    requires HeadInv(w) && InStep(w) && Enabled(w, a)
    ensures HeadInv(Effect(w, a))
  {
    hide FinalSave, Partial, MidHead, MidEvidence, MidPublication, MidAttempts, AtHead, Sealed, InStep, TurnEffect,
      PhaseEffect, ApiEffect, FlowEffect, AttemptEffect;
    match a
    case Turn(x) => TurnKeepsHead(w, x);
    case InPhase(x) =>
      if w.disciplined {
        if x.PollSave? {
          MidSaveAtHead(w.worker.o, x.s, w.repo);
        } else if x.EndSave? {
          FinalSaveAtHead(w.worker.o, x.s, x.st, w.repo);
        } else if x.CancelSave? {
          PartialAtHead(w.worker.o, x.s, w.repo);
        }
      }
      PhaseKeepsHead(w, x);
    case _ => OutsideStepFrame(w, a);
  }

  lemma {:induction false} HeadAlways(r: Run, i: nat)
    requires IsRun(r) && i < |r.states|
    ensures HeadInv(r.states[i])
  {
    hide Effect, Enabled, SnapshotFits, Certified, InStep;
    if i > 0 {
      HeadAlways(r, i - 1);
      SnapshotInvAlways(r, i - 1);
      assert StepAt(r, i - 1);
      StepKeepsHead(r.states[i - 1], r.actions[i - 1]);
    }
  }

  /** Under discipline, the stored evidence is about the checked-out commit from review on. */
  lemma EvidenceIsAtHead(r: Run, i: nat)
    requires IsRun(r) && i < |r.states| && r.states[i].disciplined && !Terminal(r.states[i].row.status)
    ensures
      var s, repo := r.states[i].row.snap, r.states[i].repo;
      && (ChecksPassed(s.phase) ==> repo.clean && repo.head == s.headCommit && PassedAt(s, s.headCommit))
      && (Reviewed(s.phase) ==> ReviewPasses(s.review))
      && (s.phase.Deliver? ==> s.judge.Some? && JudgeReady(s.plan.value, s.judge.value, s.headCommit))
  {
    hide Effect, Enabled, InStep, Certified, TasksFit;
    HeadAlways(r, i);
    SnapshotInvAlways(r, i);
  }

  /** With distinct check ids, the dictionary of evidence finds exactly the entry recorded in order. */
  lemma {:induction false} EvidenceForIsTheEntry(plan: Plan, evidence: seq<Evidence>, commit: Commit, i: nat)
    requires NoDup(CheckIds(plan)) && EvidenceSoFar(plan, evidence, commit) && i < |evidence|
    ensures EvidenceFor(evidence, plan.checks[i].id) == Some(evidence[i])
  {
    var last := |evidence| - 1;
    assert RecordsCheck(evidence[last], plan.checks[last], commit);
    if i < last {
      assert CheckIds(plan)[i] != CheckIds(plan)[last];
      EvidenceForIsTheEntry(plan, evidence[..last], commit, i);
    } else {
      assert RecordsCheck(evidence[i], plan.checks[i], commit);
    }
  }

  ghost predicate AllFound(plan: Plan, evidence: seq<Evidence>, commit: Commit) {
    forall k :: k in plan.checks ==>
      EvidenceFor(evidence, k.id).Some? && Proves(EvidenceFor(evidence, k.id).value, k, commit)
  }

  /** The record of passed checks at c shows every check passed at head exactly if that is c. */
  lemma FoundExactlyWhere(plan: Plan, evidence: seq<Evidence>, c: Commit, head: Commit)
    requires NoDup(CheckIds(plan)) && plan.checks != [] && EvidenceComplete(plan, evidence, c) && AllPassed(evidence)
    ensures AllFound(plan, evidence, head) <==> c == head
    ensures EvidenceComplete(plan, evidence, head) <==> c == head
  {
    forall i: nat | i < |plan.checks|
      ensures EvidenceFor(evidence, plan.checks[i].id) == Some(evidence[i])
      ensures Proves(evidence[i], plan.checks[i], head) <==> c == head
    {
      EvidenceForIsTheEntry(plan, evidence, c, i);
      assert RecordsCheck(evidence[i], plan.checks[i], c);
      assert evidence[i] in evidence;
    }
    forall k | k in plan.checks
      ensures EvidenceFor(evidence, k.id).Some?
      ensures Proves(EvidenceFor(evidence, k.id).value, k, head) <==> c == head
    {
      var i :| 0 <= i < |plan.checks| && plan.checks[i] == k;
    }
    assert plan.checks[0] in plan.checks;
    assert RecordsCheck(evidence[0], plan.checks[0], c);
  }

  lemma AllTasksAreThere(s: Snapshot)
    requires SnapshotFits(s) && AllTasksDone(s.phase)
    ensures SameSet(s.completed, TaskIds(s.plan.value))
  {
    forall x
      ensures x in s.completed <==> x in TaskIds(s.plan.value)
    {
      assert x in Elems(s.completed) <==> x in Elems(TaskIds(s.plan.value));
    }
  }

  /**
   What delivery's completion check comes down to: that the commit checked out is the one which the
   judge assessed and which every check passed at.
   */
  lemma DeliveryIsReadyExactlyWhen(s: Snapshot, head: Commit)
    requires s.phase.Deliver? && SnapshotFits(s) && head.id != ""
    ensures s.judge.Some?
    ensures ReadyAt(s, head) <==> head == s.judge.value.commit && PassedAt(s, head)
  {
    hide EvidenceSoFar, EvidenceFor, Proves, TasksFit;
    AllTasksAreThere(s);
    var c :| PassedAt(s, c);
    FoundExactlyWhere(s.plan.value, s.evidence, c, head);
  }

  /** The snapshot of a delivery phase tied to the commit checked out meets the completion predicate there. */
  lemma DeliverySnapshotIsReady(s: Snapshot, repo: Repo)
    requires s.phase.Deliver? && SnapshotFits(s) && AtHead(s, repo) && repo.head.id != ""
    ensures ReadyAt(s, repo.head)
  {
    hide SnapshotFits, PassedAt, ReadyAt;
    DeliveryIsReadyExactlyWhen(s, repo.head);
  }

  /**
   Delivery's own check, in every reachable tick that delivers: it lets pass exactly a clean tree at
   the one commit that the judge assessed and all checks passed at.
   */
  lemma DeliveryPassesExactlyWhen(r: Run, i: nat)
    requires IsRun(r) && i < |r.states|
    requires r.states[i].worker.Owned? && r.states[i].worker.o.mem.phase.Deliver?
    ensures
      var s, repo := r.states[i].worker.o.mem, r.states[i].repo;
      && s.judge.Some?
      && (repo.clean && ReadyAt(s, repo.head) <==>
            repo == Repo(s.judge.value.commit, true) && PassedAt(s, s.judge.value.commit))
  {
    hide Effect, Enabled, InStep, Certified, ReadyAt, SnapshotFits, PassedAt, AtHead;
    HeadAlways(r, i);
    SnapshotInvAlways(r, i);
    DeliveryIsReadyExactlyWhen(r.states[i].worker.o.mem, r.states[i].repo.head);
  }

  /**
   Under discipline, a tick in the delivery phase always finds a clean worktree and a snapshot that
   is complete at HEAD: delivery's own check never blocks.
   */
  lemma DeliveryNeverBlocksOnEvidence(r: Run, i: nat)
    requires IsRun(r) && i < |r.states| && r.states[i].disciplined
    requires r.states[i].worker.Owned? && r.states[i].worker.o.mem.phase.Deliver?
    ensures r.states[i].repo.clean && ReadyAt(r.states[i].worker.o.mem, r.states[i].repo.head)
  {
    hide Effect, Enabled, InStep, Certified, ReadyAt, SnapshotFits, PassedAt;
    HeadAlways(r, i);
    SnapshotInvAlways(r, i);
    DeliverySnapshotIsReady(r.states[i].worker.o.mem, r.states[i].repo);
  }
}
