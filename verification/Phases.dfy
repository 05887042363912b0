/**
 What one tick may do to the snapshot, phase by phase: which snapshots a `poll` in the middle of
 a phase may save, and which snapshot and status the end of the tick may save. Agent answers,
 exit codes and Git results are whatever they are; only their consequences are fixed.
 */
module Phases {
  import opened Prelude
  import opened Names
  import opened Plans
  import opened Rows

  datatype Repo = Repo(head: Commit, clean: bool)

  /** A process that ran a check: its command, the commit recorded for it, its exit code, and HEAD as it exited. */
  datatype CheckRun = CheckRun(argv: seq<string>, commit: Commit, exitCode: int, head: Commit)

  datatype Interruption = ByPause | ByCancel | ByLimit

  /**
   A tick that owns the run. `mem` is the snapshot of its latest SQL statement. `charged`: this
   tick has saved an incremented attempt counter, and `before` is the tree at that moment.
   `launched`: the writable agent it pays for has been started. `sealed`: verification has saved its
   checkpointed head on a clean worktree.
   `pushing`: the commit this tick has begun to push; `published`: the one it saw accepted;
   `seen`: the address of the pull request it then found or created. `exited`: the checks it has run.
   `start`: the work left (see Fuel) when the tick began.
   */
  datatype OwnedTick = OwnedTick(
    mem: Snapshot,
    max: nat,
    version: nat,
    checked: bool,
    raised: Option<Interruption>,
    charged: bool,
    launched: bool,
    sealed: bool,
    pushing: Option<Commit>,
    published: Option<Commit>,
    before: string,
    seen: Option<string>,
    exited: set<CheckRun>,
    start: nat)

  predicate Coding(p: Phase) { p.Implement? || p.Repair? }

  predicate WorkingStatus(st: Status) { st.Running? || st.Planning? || st.Executing? || st.Verifying? }

  function StatusOf(i: Interruption): Status {
    match i
    case ByPause => Paused
    case ByCancel => Canceled
    case ByLimit => Exhausted
  }

  /** The state changes of an accepted resume. */
  function ResumeEdit(s: Snapshot, note: string): Snapshot {
    s.(failureCount := 0, repeatedFailures := 0, lastFailed := None,
       clarifications := if note == "" then s.clarifications else s.clarifications + [note])
  }

  // ----- Evidence as verification records it

  function EntryFor(c: Check, exitCode: int, commit: Commit): Evidence {
    Evidence(c.id, c.requirementIds, c.argv, exitCode, exitCode == 0, commit)
  }

  ghost predicate RecordsCheck(e: Evidence, c: Check, commit: Commit) {
    e == EntryFor(c, e.exitCode, commit)
  }

  /** One entry for each of the first checks of the plan, in plan order, at one commit. */
  ghost predicate EvidenceSoFar(plan: Plan, evidence: seq<Evidence>, commit: Commit) {
    && |evidence| <= |plan.checks|
    && forall i :: 0 <= i < |evidence| ==> RecordsCheck(evidence[i], plan.checks[i], commit)
  }

  ghost predicate EvidenceComplete(plan: Plan, evidence: seq<Evidence>, commit: Commit) {
    EvidenceSoFar(plan, evidence, commit) && |evidence| == |plan.checks|
  }

  predicate AllPassed(evidence: seq<Evidence>) {
    forall e :: e in evidence ==> e.passed
  }

  function FailedIds(evidence: seq<Evidence>): set<Name> {
    set e | e in evidence && !e.passed :: e.checkId
  }

  // ----- Saves in the middle of a phase

  /** Recovery and checkpoints record the worktree's HEAD; a sealed verification keeps it. */
  ghost predicate MidHead(o: OwnedTick, s: Snapshot, repo: Repo) {
    s.headCommit == o.mem.headCommit || (s.headCommit == repo.head && !o.sealed && !o.mem.phase.Prepare?)
  }

  /** A coding phase may charge one attempt, once, and only within the limit the tick was given. */
  ghost predicate MidAttempts(o: OwnedTick, s: Snapshot) {
    || s.attempts == o.mem.attempts
    || (Coding(o.mem.phase) && !o.charged && o.mem.attempts < o.max && s.attempts == o.mem.attempts + 1)
  }

  /** A process really exited with what this entry records. */
  ghost predicate WasRun(runs: set<CheckRun>, e: Evidence) {
    exists r :: r in runs && r.argv == e.argv && r.commit == e.commit && r.exitCode == e.exitCode
  }

  /** Verification records what its processes exited with; nothing else touches the evidence. */
  ghost predicate MidEvidence(o: OwnedTick, s: Snapshot) {
    var d := o.mem;
    || s.evidence == d.evidence
    || (d.phase.Verify? && d.plan.Some? && EvidenceSoFar(d.plan.value, s.evidence, s.headCommit)
        && forall e :: e in s.evidence ==> e in d.evidence || WasRun(o.exited, e))
  }

  /** A publication target is chosen once, for the saved base; an address is stored only as seen. */
  ghost predicate MidPublication(o: OwnedTick, s: Snapshot) {
    var d := o.mem;
    && (s.target == d.target
        || (d.phase.Deliver? && d.target.None? && s.target.Some? && s.target.value.baseCommit == d.baseCommit))
    && (s.prUrl == d.prUrl || (d.phase.Deliver? && o.seen == Some(s.prUrl)))
  }

  ghost predicate MidSave(o: OwnedTick, s: Snapshot, repo: Repo) {
    var d := o.mem;
    && s == d.(attempts := s.attempts, agentAttempts := s.agentAttempts, headCommit := s.headCommit,
               evidence := s.evidence, target := s.target, prUrl := s.prUrl)
    && MidHead(o, s, repo) && MidAttempts(o, s) && MidEvidence(o, s) && MidPublication(o, s)
  }

  // ----- The save at the end of the tick

  /** Exactly one runnable task of the plan was added to the completed ones. */
  ghost predicate CompletesTask(d: Snapshot, s: Snapshot) {
    && d.plan.Some? && ValidPlan(d.plan.value)
    && exists t :: t in d.plan.value.tasks && Runnable(t, d.completed) && s.completed == d.completed + [t.id]
  }

  /** An exception ends the phase: whatever it had already put into the state is saved. */
  ghost predicate Partial(o: OwnedTick, s: Snapshot, repo: Repo) {
    || MidSave(o, s, repo)
    || (o.mem.phase.Prepare? && s == o.mem.(baseCommit := s.baseCommit))
    || (o.mem.phase.Implement? && o.charged && MidSave(o, s.(completed := o.mem.completed), repo)
        && CompletesTask(o.mem, s))
  }

  ghost predicate PrepareDone(d: Snapshot, s: Snapshot, st: Status, repo: Repo) {
    st.Running? && s == d.(phase := MakePlan, baseCommit := s.baseCommit, headCommit := repo.head)
  }

  ghost predicate PlanDone(o: OwnedTick, s: Snapshot, st: Status, repo: Repo) {
    && MidSave(o, s.(phase := MakePlan, plan := o.mem.plan), repo)
    && s.plan.Some? && ValidPlan(s.plan.value)
    && if s.plan.value.clarification != "" then s.phase.MakePlan? && st.Blocked?
       else s.phase.ReviewPlan? && st.Planning?
  }

  ghost predicate PlanReviewDone(o: OwnedTick, s: Snapshot, st: Status, repo: Repo) {
    var d := o.mem;
    || (s.phase.Implement? && st.Planning? && ReviewPasses(s.planReview)
        && MidSave(o, s.(phase := ReviewPlan, planReview := d.planReview), repo))
    || (s.phase.MakePlan? && s.failureCount == d.failureCount + 1
        && s.planReview.Some? && !ReviewPasses(s.planReview) && s.review == s.planReview
        && st == (if s.failureCount >= 3 then Blocked else Planning)
        && MidSave(o, s.(phase := ReviewPlan, failureCount := d.failureCount, planReview := d.planReview,
                         review := d.review), repo))
  }

  ghost predicate NoTaskLeft(o: OwnedTick, s: Snapshot, st: Status, repo: Repo) {
    var d := o.mem;
    && d.plan.Some? && ValidPlan(d.plan.value)
    && (forall t :: t in d.plan.value.tasks ==> !Runnable(t, d.completed))
    && s.phase.Verify? && st.Executing? && MidSave(o, s.(phase := Implement), repo) && s.attempts == d.attempts
  }

  /** The failure counter after a coding attempt: reset exactly if the tree has changed. */
  function FailuresAfter(o: OwnedTick, repo: Repo): nat {
    if o.before != repo.head.tree then 0 else o.mem.failureCount + 1
  }

  ghost predicate AttemptDone(o: OwnedTick, s: Snapshot, st: Status, repo: Repo) {
    var d := o.mem;
    && d.plan.Some? && ValidPlan(d.plan.value) && o.charged && s.phase.Implement?
    && MidSave(o, s.(completed := d.completed, failureCount := d.failureCount, evidence := d.evidence,
                     review := d.review, judge := d.judge), repo)
    && s.evidence == [] && s.review == Some(Review(false, [])) && s.judge == None
    && s.failureCount == FailuresAfter(o, repo)
    && (s.completed == d.completed || CompletesTask(d, s))
    && st == (if s.failureCount >= 3 || s.completed == d.completed then Blocked else Executing)
  }

  ghost predicate VerifyDone(o: OwnedTick, s: Snapshot, st: Status, repo: Repo) {
    var d := o.mem;
    && d.plan.Some? && ValidPlan(d.plan.value) && o.sealed
    && MidSave(o, s.(phase := Verify, repeatedFailures := d.repeatedFailures, lastFailed := d.lastFailed), repo)
    && EvidenceComplete(d.plan.value, s.evidence, s.headCommit)
    && if !repo.clean then
         s.phase.Verify? && st.Blocked? && s.repeatedFailures == d.repeatedFailures && s.lastFailed == d.lastFailed
       else if AllPassed(s.evidence) then
         && s.phase.ReviewWork? && st.Verifying?
         && s.repeatedFailures == d.repeatedFailures && s.lastFailed == d.lastFailed
       else
         && s.phase.Repair? && s.lastFailed == Some(FailedIds(s.evidence))
         && s.repeatedFailures == (if s.lastFailed == d.lastFailed then d.repeatedFailures + 1 else 1)
         && st == (if s.repeatedFailures >= 3 then Blocked else Verifying)
  }

  ghost predicate ReviewDone(o: OwnedTick, s: Snapshot, st: Status, repo: Repo) {
    && st.Verifying? && s.review.Some?
    && s.phase == (if ReviewPasses(s.review) then JudgeWork else Repair)
    && MidSave(o, s.(phase := ReviewWork, review := o.mem.review), repo)
  }

  ghost predicate JudgeDone(o: OwnedTick, s: Snapshot, st: Status, repo: Repo) {
    var d := o.mem;
    && st.Verifying? && s.judge.Some? && d.plan.Some? && ValidPlan(d.plan.value)
    && MidSave(o, s.(phase := JudgeWork, judge := d.judge, review := d.review), repo)
    && if JudgeReady(d.plan.value, s.judge.value, s.headCommit) then s.phase.Deliver? && s.review == d.review
       else s.phase.Repair? && s.review.Some? && !s.review.value.passed && s.review.value.findings != []
  }

  ghost predicate RepairDone(o: OwnedTick, s: Snapshot, st: Status, repo: Repo) {
    var d := o.mem;
    && o.charged
    && MidSave(o, s.(phase := Repair, failureCount := d.failureCount), repo)
    && s.failureCount == FailuresAfter(o, repo)
    && ((s.phase.Verify? && st.Executing? && s.failureCount < 3) || (s.phase.Repair? && st.Blocked?))
  }

  ghost predicate ReadyAt(s: Snapshot, commit: Commit) {
    && s.plan.Some?
    && CompletionReady(s.plan.value, s.completed, s.evidence, commit, ReviewPasses(s.review), s.judge)
  }

  /** The snapshot proves its own completion: at the commit its judge assessed. */
  ghost predicate Certified(s: Snapshot) {
    && s.plan.Some? && ValidPlan(s.plan.value) && s.judge.Some?
    && ReadyAt(s, s.judge.value.commit)
  }

  ghost predicate DeliverDone(o: OwnedTick, s: Snapshot, st: Status, repo: Repo) {
    || (o.mem.judge.None? && s.phase.JudgeWork? && st.Running? && MidSave(o, s.(phase := Deliver), repo))
    || (st.Completed? && MidSave(o, s, repo) && Certified(s))
  }

  ghost predicate Finished(o: OwnedTick, s: Snapshot, st: Status, repo: Repo) {
    match o.mem.phase
    case Prepare => PrepareDone(o.mem, s, st, repo)
    case MakePlan => PlanDone(o, s, st, repo)
    case ReviewPlan => PlanReviewDone(o, s, st, repo)
    case Implement => NoTaskLeft(o, s, st, repo) || AttemptDone(o, s, st, repo)
    case Verify => VerifyDone(o, s, st, repo)
    case ReviewWork => ReviewDone(o, s, st, repo)
    case JudgeWork => JudgeDone(o, s, st, repo)
    case Repair => RepairDone(o, s, st, repo)
    case Deliver => DeliverDone(o, s, st, repo)
    case Unrecognized => st.Failed? && MidSave(o, s, repo)
  }

  ghost predicate FinalSave(o: OwnedTick, s: Snapshot, st: Status, repo: Repo) {
    match o.raised
    case Some(i) => st == StatusOf(i) && Partial(o, s, repo)
    case None => ((st.Blocked? || st.Exhausted?) && Partial(o, s, repo)) || Finished(o, s, st, repo)
  }

  /** A cancelled activity saves what the state holds, under whatever status the phase has set so far. */
  predicate CutStatus(st: Status) { WorkingStatus(st) || st.Blocked? }

  // ----- How much work is left

  function AtLeastZero(x: int): nat {
    if x < 0 then 0 else x
  }

  /**
   An upper bound on the ticks until the run stops. Planning rounds count against three failures,
   coding rounds against the attempt limit; inside a round the phases only go down.
   */
  function Fuel(s: Snapshot, max: nat): nat {
    var planning := 7 * max + 8 + 3 * AtLeastZero(3 - s.failureCount);
    var coding := 7 * AtLeastZero(max - s.attempts);
    match s.phase
    case Prepare => planning + 2
    case MakePlan => planning + 1
    case ReviewPlan => planning
    case Implement => coding + 7
    case Verify => coding + 6
    case ReviewWork => coding + 5
    case Deliver => coding + if s.judge.None? then 4 else 2
    case JudgeWork => coding + 3
    case Repair => coding + 1
    case Unrecognized => 0
  }
}
