/**
 Why a phase stops, and that what it has then put into the state may be saved: in the middle of a
 phase, at its end, and when it is interrupted, raises or is cancelled.
 */
module Endings {
  import opened Prelude
  import opened Plans
  import opened Rows
  import opened Phases
  import opened Protocol

  /** Why a phase did not run to its end. */
  datatype Stop = Interrupted(why: Interruption) | Raised(message: string) | Died

  /** A tick at work on an active run with no command pending. */
  ghost predicate AtPeace(w: World) {
    w.row.control.NoControl? && Active(w.row.status) && w.attached && w.flow.InTick?
  }

  /** An operation that, at peace, neither stopped nor disturbed anything. */
  ghost predicate Peaceful(w: World, n: World, stop: Option<Stop>) {
    AtPeace(w) ==> stop.None? && AtPeace(n) && n.row.maxAttempts == w.row.maxAttempts
  }

  /** A tick that, at peace, has stored snapshot s and status st, with nothing else in the row disturbed. */
  ghost predicate EndedWith(w: World, n: World, s: Snapshot, st: Status) {
    AtPeace(w) ==>
      && n.row.snap == s && n.row.status == st && n.row.control.NoControl? && n.row.maxAttempts == w.row.maxAttempts
      && n.attached && n.flow.InTick?
  }

  /** The status that the end of a tick saves. */
  function FinalStatusOf(stop: Option<Stop>, status: Status): Status {
    match stop
    case None => status
    case Some(Interrupted(why)) => StatusOf(why)
    case Some(_) => Blocked
  }

  // ----- What the steps of a tick do

  lemma PollLoadStep(w: World, limit: bool)
    requires w.worker.Owned? && w.worker.o.raised.None? && !w.worker.o.checked
    ensures Enabled(w, InPhase(PollLoad(limit)))
    ensures Effect(w, InPhase(PollLoad(limit))) == w.(worker := Owned(Polled(w.worker.o, w.row, limit)))
  {
  }

  /** Saving again what was saved last is always allowed. */
  lemma MidSaveSelf(o: OwnedTick, repo: Repo)
    ensures MidSave(o, o.mem, repo)
  {
  }

  /** An interruption changes nothing the phase's saves depend on. */
  ghost predicate SameButStopped(o: OwnedTick, n: OwnedTick) {
    n == o.(raised := n.raised, version := n.version, checked := n.checked)
  }

  lemma MidSaveUnaffected(o: OwnedTick, n: OwnedTick, s: Snapshot, repo: Repo)
    requires SameButStopped(o, n)
    ensures MidSave(o, s, repo) <==> MidSave(n, s, repo)
  {
  }

  lemma PollSaveStep(w: World, o: OwnedTick, s: Snapshot, st: Status)
    requires w.worker == Owned(o.(checked := true)) && o.raised.None? && WorkingStatus(st) && MidSave(o, s, w.repo)
    ensures Enabled(w, InPhase(PollSave(s, st)))
    ensures Effect(w, InPhase(PollSave(s, st))) ==
              w.(row := SaveRow(w.row, s, st, ""), worker := Owned(AfterPoll(o, s, w.repo)))
    ensures MidSave(AfterPoll(o, s, w.repo), s, w.repo)
  {
    MidSaveUnaffected(o, w.worker.o, s, w.repo);
    MidSaveSelf(AfterPoll(o, s, w.repo), w.repo);
    hide MidSave;
  }

  lemma AfterPollOwns(o: OwnedTick, s: Snapshot, repo: Repo)
    ensures var n := AfterPoll(o, s, repo); n.mem == s && n.raised == o.raised && !n.checked
  {
  }

  lemma LaunchStep(w: World)
    requires w.worker.Owned? && w.worker.o.raised.None? && w.worker.o.charged && !w.worker.o.launched
    requires Coding(w.worker.o.mem.phase)
    ensures Enabled(w, InPhase(Launch))
    ensures Effect(w, InPhase(Launch)) == w.(worker := Owned(w.worker.o.(launched := true)), launches := w.launches + 1)
  {
  }

  lemma EditStep(w: World, repo: Repo)
    requires w.worker.Owned? && MayEdit(w, w.worker.o) && repo.head.id != ""
    ensures Enabled(w, InPhase(EditRepo(repo))) && Effect(w, InPhase(EditRepo(repo))) == w.(repo := repo)
  {
  }

  lemma CommitStep(w: World, head: Commit)
    requires w.worker.Owned? && !w.repo.clean && head.id != ""
    ensures Enabled(w, InPhase(CommitAll(head))) && Effect(w, InPhase(CommitAll(head))) == w.(repo := Repo(head, true))
  {
  }

  lemma PushStep(w: World, head: Commit)
    requires w.worker.Owned? && w.worker.o.raised.None? && w.worker.o.mem.phase.Deliver? && w.row.requestPr
    requires w.worker.o.mem.target.Some? && ReadyAt(w.worker.o.mem, head)
    ensures Enabled(w, InPhase(PushBranch(head)))
    ensures var n := Effect(w, InPhase(PushBranch(head)));
            n == w.(pushes := n.pushes, worker := Owned(w.worker.o.(pushing := Some(head))))
  {
    hide ReadyAt;
  }

  lemma FinalStatus(o: OwnedTick, s: Snapshot, st: Status, repo: Repo)
    requires FinalSave(o, s, st, repo)
    ensures EndStatus(o, st)
  {
    hide MidSave, Partial, ValidPlan, Certified, EvidenceComplete, CompletesTask, Runnable, JudgeReady, AllPassed,
      FailedIds;
  }

  lemma EndSaveStep(w: World, s: Snapshot, st: Status, why: string)
    requires w.worker.Owned? && FinalSave(w.worker.o, s, st, w.repo)
    requires st.Completed? && w.row.requestPr ==> Delivers(w.worker.o, s)
    ensures Enabled(w, InPhase(EndSave(s, st, why)))
    ensures
      var n, o := Effect(w, InPhase(EndSave(s, st, why))), w.worker.o;
      n.row == SaveRow(w.row, s, st, why) && n.worker == Finishing(n.row.status, Consumed(o.raised), o.version)
      && n == w.(row := n.row, worker := n.worker, activeTicks := n.activeTicks)
  {
    FinalStatus(w.worker.o, s, st, w.repo);
    hide FinalSave;
  }

  /** At peace nothing overrides what a final save stores. */
  lemma SavedAtPeace(w: World, n: World, s: Snapshot, st: Status, why: string)
    requires n.row == SaveRow(w.row, s, st, why) && n.attached == w.attached && n.flow == w.flow
    ensures EndedWith(w, n, s, st) && (AtPeace(w) ==> n.row.status == st && n.row.reason == Clip(why))
  {
  }

  lemma CancelSaveStep(w: World, s: Snapshot, st: Status, why: string)
    requires w.worker.Owned? && Partial(w.worker.o, s, w.repo) && CutStatus(st)
    ensures Enabled(w, InPhase(CancelSave(s, st, why)))
    ensures Effect(w, InPhase(CancelSave(s, st, why))) ==
              w.(row := SaveRow(w.row, s, st, why), worker := Idle, attached := false)
  {
    hide Partial;
  }

  lemma EndConsumeStep(w: World)
    requires w.worker.Finishing?
    ensures Enabled(w, Turn(EndConsume))
    ensures
      var f := w.worker;
      Effect(w, Turn(EndConsume)) ==
        w.(row := if f.consume.NoControl? then w.row else ConsumeRow(w.row, f.consume, f.version),
           worker := Done(f.result))
  {
  }

  lemma HaltSaveStep(w: World, why: string)
    requires w.worker.Halting? && !w.worker.stopped
    ensures Enabled(w, Turn(HaltSave(why)))
    ensures
      Effect(w, Turn(HaltSave(why))) ==
        w.(row := SaveRow(w.row, w.worker.mem, HaltStatus(w.worker.cmd), why), worker := w.worker.(stopped := true))
  {
  }

  lemma HaltConsumeStep(w: World)
    requires w.worker.Halting? && w.worker.stopped
    ensures Enabled(w, Turn(HaltConsume))
    ensures
      Effect(w, Turn(HaltConsume)) ==
        w.(row := ConsumeRow(w.row, w.worker.cmd, w.worker.version), worker := Done(HaltStatus(w.worker.cmd)))
  {
  }

  lemma ResumeSaveStep(w: World)
    requires w.worker.Resuming? && !w.worker.resumed
    ensures Enabled(w, Turn(ResumeSave))
    ensures
      Effect(w, Turn(ResumeSave)) ==
        w.(row := SaveRow(w.row, w.worker.mem, Running, ""), worker := w.worker.(resumed := true))
  {
  }

  lemma ResumeConsumeStep(w: World)
    requires w.worker.Resuming? && w.worker.resumed
    ensures Enabled(w, Turn(ResumeConsume))
    ensures
      Effect(w, Turn(ResumeConsume)) ==
        w.(row := ConsumeRow(w.row, Resume, w.worker.version),
           worker := Owned(Begin(w.worker.mem, w.worker.max, w.worker.version)))
  {
  }

  lemma CrashStep(w: World)
    requires !w.worker.Idle?
    ensures Enabled(w, Attempt(Crash)) && Effect(w, Attempt(Crash)) == w.(worker := Idle, attached := false)
  {
  }

  /** What a process leaves in the calm: a writable one uncommitted work, any other nothing. */
  function Touched(repo: Repo, writable: bool): Repo {
    if writable then repo.(clean := false) else repo
  }

  lemma UnrecognizedEnds(o: OwnedTick, s: Snapshot, repo: Repo)
    requires o.raised.None? && o.mem.phase.Unrecognized? && MidSave(o, s, repo)
    ensures FinalSave(o, s, Failed, repo)
  {
    hide MidSave;
  }

  /** A phase that was stopped by a cancellation saves the same, under the status it had set. */
  lemma StopIsPartial(o: OwnedTick, s: Snapshot, repo: Repo)
    requires MidSave(o, s, repo) || Partial(o, s, repo)
    ensures Partial(o, s, repo)
  {
    hide MidSave, CompletesTask;
  }

  /** What a stopped phase saves, with the status of its stop, is a final save. */
  lemma StopIsFinal(o: OwnedTick, s: Snapshot, final: Status, stop: Option<Stop>, repo: Repo)
    requires stop != Some(Died)
    requires stop.None? ==> FinalSave(o, s, final, repo)
    requires stop.Some? ==> MidSave(o, s, repo) || Partial(o, s, repo)
    requires stop.Some? && stop.value.Raised? ==> o.raised.None? && final.Blocked?
    requires stop.Some? && stop.value.Interrupted? ==>
               && final == StatusOf(stop.value.why)
               && (o.raised == Some(stop.value.why) || (o.raised.None? && stop.value.why.ByLimit?))
    ensures FinalSave(o, s, final, repo)
  {
    hide MidSave, Finished, CompletesTask;
  }

  lemma DeliverEnds(o: OwnedTick, s: Snapshot, st: Status, repo: Repo)
    requires o.raised.None? && o.mem.phase.Deliver? && DeliverDone(o, s, st, repo)
    ensures FinalSave(o, s, st, repo)
  {
    hide DeliverDone;
  }

  lemma BlockedEnds(o: OwnedTick, s: Snapshot, repo: Repo)
    requires o.raised.None? && MidSave(o, s, repo)
    ensures FinalSave(o, s, Blocked, repo)
  {
    hide MidSave;
  }

  /** Readiness at HEAD is readiness at the commit the judge assessed. */
  lemma JudgedAtHead(s: Snapshot, head: Commit)
    requires ReadyAt(s, head)
    ensures s.judge.Some? && s.judge.value.commit == head
  {
  }

  lemma ReadyWithTarget(s: Snapshot, head: Commit, target: Option<Target>)
    requires ReadyAt(s, head)
    ensures ReadyAt(s.(target := target), head)
  {
    hide CompletionReady;
  }

  lemma TargetIsAllowed(o: OwnedTick, s: Snapshot, repo: Repo, target: Target)
    requires MidSave(o, s, repo) && o.mem.phase.Deliver? && s == o.mem
    requires target.baseCommit == s.baseCommit && (s.target.None? || s.target.value == target)
    ensures MidSave(o, s.(target := Some(target)), repo)
  {
  }

  lemma SeenUrlIsFree(o: OwnedTick, n: OwnedTick, s: Snapshot, repo: Repo, url: string)
    requires MidSave(o, s, repo) && o.mem.phase.Deliver? && n == o.(seen := Some(url))
    ensures MidSave(n, s.(prUrl := url), repo)
  {
  }

  lemma VerifyEnds(o: OwnedTick, s: Snapshot, st: Status, repo: Repo)
    requires o.raised.None? && o.mem.phase.Verify? && VerifyDone(o, s, st, repo)
    ensures FinalSave(o, s, st, repo)
  {
    hide VerifyDone;
  }

  lemma EntriesPassByTheirExit(plan: Plan, evidence: seq<Evidence>, commit: Commit)
    requires EvidenceSoFar(plan, evidence, commit)
    ensures forall e :: e in evidence ==> (e.passed <==> e.exitCode == 0)
  {
    forall i | 0 <= i < |evidence|
      ensures evidence[i].passed <==> evidence[i].exitCode == 0
    {
      assert RecordsCheck(evidence[i], plan.checks[i], commit);
    }
  }

  lemma ValidPlanHasChecks(plan: Plan)
    requires ValidPlan(plan)
    ensures plan.checks != []
  {
  }

  lemma EvidenceRestarts(o: OwnedTick, s: Snapshot, repo: Repo)
    requires MidSave(o, s, repo) && o.mem.phase.Verify? && o.mem.plan.Some?
    requires o.sealed ==> repo.head == o.mem.headCommit
    ensures MidSave(o, s.(headCommit := repo.head, evidence := []), repo)
    ensures EvidenceSoFar(o.mem.plan.value, [], repo.head)
  {
    assert EvidenceSoFar(o.mem.plan.value, [], repo.head);
  }

  /** More exited checks forbid nothing. */
  lemma ExitsAreFree(o: OwnedTick, n: OwnedTick, s: Snapshot, repo: Repo)
    requires MidSave(o, s, repo) && n == o.(exited := n.exited) && o.exited <= n.exited
    ensures MidSave(n, s, repo)
  {
    forall e | WasRun(o.exited, e)
      ensures WasRun(n.exited, e)
    {
      var r :| r in o.exited && r.argv == e.argv && r.commit == e.commit && r.exitCode == e.exitCode;
      assert r in n.exited;
    }
  }

  lemma RecordIsAllowed(o: OwnedTick, s: Snapshot, repo: Repo, plan: Plan, exitCode: int)
    requires MidSave(o, s, repo) && o.mem.phase.Verify? && o.mem.plan == Some(plan)
    requires EvidenceSoFar(plan, s.evidence, s.headCommit) && |s.evidence| < |plan.checks|
    requires WasRun(o.exited, EntryFor(plan.checks[|s.evidence|], exitCode, s.headCommit))
    ensures
      var more := s.evidence + [EntryFor(plan.checks[|s.evidence|], exitCode, s.headCommit)];
      MidSave(o, s.(evidence := more), repo) && EvidenceSoFar(plan, more, s.headCommit)
  {
    var entry := EntryFor(plan.checks[|s.evidence|], exitCode, s.headCommit);
    assert RecordsCheck(entry, plan.checks[|s.evidence|], s.headCommit);
  }

  lemma PlanEnds(o: OwnedTick, s: Snapshot, st: Status, repo: Repo)
    requires o.raised.None? && o.mem.phase.MakePlan? && PlanDone(o, s, st, repo)
    ensures FinalSave(o, s, st, repo)
  {
    hide PlanDone;
  }

  lemma PlanReviewEnds(o: OwnedTick, s: Snapshot, st: Status, repo: Repo)
    requires o.raised.None? && o.mem.phase.ReviewPlan? && PlanReviewDone(o, s, st, repo)
    ensures FinalSave(o, s, st, repo)
  {
    hide PlanReviewDone;
  }

  ghost predicate AddsTask(d: Snapshot, s: Snapshot, task: Task) {
    && d.plan.Some? && ValidPlan(d.plan.value) && task in d.plan.value.tasks && Runnable(task, d.completed)
    && s.completed == d.completed + [task.id]
  }

  lemma AttemptEnds(o: OwnedTick, coded: Snapshot, s: Snapshot, st: Status, repo: Repo, task: Task, blocked: bool)
    requires o.raised.None? && o.mem.phase.Implement? && o.charged && MidSave(o, coded, repo)
    requires coded == o.mem.(agentAttempts := coded.agentAttempts, headCommit := coded.headCommit)
    requires AddsTask(coded, coded.(completed := coded.completed + [task.id]), task)
    requires s.failureCount == FailuresAfter(o, repo)
    requires s == coded.(completed := if blocked then coded.completed else coded.completed + [task.id],
                         failureCount := s.failureCount, evidence := [], review := Some(Review(false, [])),
                         judge := None)
    requires st == if blocked || s.failureCount >= 3 then Blocked else Executing
    ensures FinalSave(o, s, st, repo)
  {
    hide MidHead, MidAttempts, MidEvidence, MidPublication, ValidPlan, Runnable, NoTaskLeft;
    assert s.(completed := o.mem.completed, failureCount := o.mem.failureCount, evidence := o.mem.evidence,
              review := o.mem.review, judge := o.mem.judge) == coded;
    assert AttemptDone(o, s, st, repo);
  }

  lemma ImplementEnds(o: OwnedTick, s: Snapshot, st: Status, repo: Repo)
    requires o.raised.None? && o.mem.phase.Implement? && (NoTaskLeft(o, s, st, repo) || AttemptDone(o, s, st, repo))
    ensures FinalSave(o, s, st, repo)
  {
    hide NoTaskLeft, AttemptDone;
  }

  lemma RepairEnds(o: OwnedTick, s: Snapshot, st: Status, repo: Repo)
    requires o.raised.None? && o.mem.phase.Repair? && RepairDone(o, s, st, repo)
    ensures FinalSave(o, s, st, repo)
  {
    hide RepairDone;
  }

  lemma ReviewEnds(o: OwnedTick, s: Snapshot, st: Status, repo: Repo)
    requires o.raised.None? && o.mem.phase.ReviewWork? && ReviewDone(o, s, st, repo)
    ensures FinalSave(o, s, st, repo)
  {
    hide ReviewDone;
  }

  lemma JudgeEnds(o: OwnedTick, s: Snapshot, st: Status, repo: Repo)
    requires o.raised.None? && o.mem.phase.JudgeWork? && JudgeDone(o, s, st, repo)
    ensures FinalSave(o, s, st, repo)
  {
    hide JudgeDone;
  }

  /** A failure after a task was entered as completed still leaves a state that may be saved. */
  lemma ImplementStops(o: OwnedTick, s: Snapshot, repo: Repo, task: Task)
    requires o.mem.phase.Implement? && o.charged && MidSave(o, s.(completed := o.mem.completed), repo)
    requires s.completed == o.mem.completed || AddsTask(o.mem, s, task)
    ensures Partial(o, s, repo)
  {
    hide MidHead, MidAttempts, MidEvidence, MidPublication, ValidPlan, Runnable;
    if s.completed == o.mem.completed {
      assert s == s.(completed := o.mem.completed);
    }
  }

  lemma ChargeIsAllowed(o: OwnedTick, s: Snapshot, repo: Repo)
    requires MidSave(o, s, repo) && s.attempts == o.mem.attempts
    requires Coding(o.mem.phase) && !o.charged && s.attempts < o.max
    ensures MidSave(o, s.(attempts := s.attempts + 1), repo)
  {
  }

  lemma HeadIsAllowed(o: OwnedTick, s: Snapshot, repo: Repo)
    requires MidSave(o, s, repo) && !o.sealed && !o.mem.phase.Prepare? && !o.mem.phase.Verify?
    ensures MidSave(o, s.(headCommit := repo.head), repo)
  {
  }

  /** The list of attempts is no part of any condition on a save. */
  lemma AttemptsAreFree(o: OwnedTick, s: Snapshot, repo: Repo, attempts: seq<AgentAttempt>)
    requires MidSave(o, s, repo)
    ensures MidSave(o, s.(agentAttempts := attempts), repo)
  {
  }

  /** After an agent's answer: its charge is saved, its launch counted, and only its attempt entry differs. */
  ghost predicate Asked(o: OwnedTick, n: OwnedTick, state: Snapshot, writable: bool, tree: string) {
    && state == n.mem.(agentAttempts := state.agentAttempts)
    && n.max == o.max && n.before == (if state.attempts > o.mem.attempts then tree else o.before)
    && n.charged == (o.charged || state.attempts > o.mem.attempts)
    && (!o.mem.phase.Verify? ==> n.sealed == o.sealed)
    && n.launched == (o.launched || writable)
  }

  /** A running process changes nothing in the tick, except that verification may find itself sealed. */
  ghost predicate Ran(o: OwnedTick, n: OwnedTick) {
    n == o.(sealed := n.sealed) && (o.sealed ==> n.sealed) && (!o.mem.phase.Verify? ==> n.sealed == o.sealed)
  }
}
