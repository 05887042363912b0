/**
 What the outside world answers in one tick, and what each phase makes of it: the exact snapshot
 and status that a phase ends with when neither a command nor a failure stops it.
 */
module Outcomes {
  import opened Prelude
  import opened Plans
  import opened Rows
  import opened Phases

  /** What Git and gh do when a branch is published. */
  datatype Publishing = Publishing(
    target: Target,
    pushExit: int,
    listExit: int,
    found: Option<string>,
    createExit: int,
    printed: string)

  /**
   One tick's answers: the base that prepare returns, the commits that recovery and checkpoint make,
   the agents' plan, review and blocked reason, the judge's verdict, the exit codes of the checks,
   and publication.
   */
  datatype Answers = Answers(
    base: Commit,
    rescued: Commit,
    made: Commit,
    plan: Plan,
    review: Review,
    blocked: bool,
    verdict: Judge,
    exits: seq<int>,
    gh: Publishing)

  function ExitOf(exits: seq<int>, i: nat): int {
    if i < |exits| then exits[i] else 0
  }

  /** gh has listed a pull request, or has created one. */
  predicate FindsRequest(gh: Publishing) {
    gh.listExit == 0 && (gh.found.Some? || gh.createExit == 0)
  }

  function UrlOf(gh: Publishing): string {
    if gh.found.Some? then gh.found.value else gh.printed
  }

  // ----- The phases

  ghost predicate Planned(d: Snapshot, plan: Plan, s: Snapshot, st: Status) {
    && ValidPlan(plan)
    && s == d.(plan := Some(plan), phase := if plan.clarification == "" then ReviewPlan else MakePlan,
               agentAttempts := s.agentAttempts)
    && st == if plan.clarification == "" then Planning else Blocked
  }

  ghost predicate PlanReviewed(d: Snapshot, review: Review, s: Snapshot, st: Status) {
    if ReviewPasses(Some(review)) then
      s == d.(phase := Implement, planReview := Some(review), agentAttempts := s.agentAttempts) && st.Planning?
    else
      && s == d.(phase := MakePlan, planReview := Some(review), review := Some(review),
                 failureCount := d.failureCount + 1, agentAttempts := s.agentAttempts)
      && st == if s.failureCount >= 3 then Blocked else Planning
  }

  /** What an attempt at task t has achieved once its work is checkpointed in d. */
  ghost predicate Counted(d: Snapshot, t: Task, blocked: bool, progress: bool, s: Snapshot, st: Status) {
    && s == d.(completed := if blocked then d.completed else d.completed + [t.id],
               failureCount := if progress then 0 else d.failureCount + 1,
               evidence := [], review := Some(Review(false, [])), judge := None)
    && st == if blocked || s.failureCount >= 3 then Blocked else Executing
  }

  /** One attempt at task t, blocked or not, with or without progress in the tree, made d into s. */
  ghost predicate TaskAttempted(d: Snapshot, t: Task, blocked: bool, progress: bool, s: Snapshot, st: Status) {
    && Runnable(t, d.completed)
    && Counted(d.(attempts := d.attempts + 1, headCommit := s.headCommit, agentAttempts := s.agentAttempts),
               t, blocked, progress, s, st)
  }

  /** The first runnable task is attempted; with none left, verification is next. */
  ghost predicate Implemented(d: Snapshot, blocked: bool, progress: bool, s: Snapshot, st: Status) {
    && d.plan.Some?
    && var tasks := d.plan.value.tasks;
       if NoneRunnable(tasks, d.completed) then
         s == d.(phase := Verify, agentAttempts := s.agentAttempts) && st.Executing?
       else exists k :: 0 <= k < |tasks| && NoneRunnable(tasks[..k], d.completed)
              && TaskAttempted(d, tasks[k], blocked, progress, s, st)
  }

  /** The first n checks with the exit codes they had, at one commit. */
  ghost predicate Recorded(plan: Plan, exits: seq<int>, n: nat, evidence: seq<Evidence>, commit: Commit) {
    && |evidence| == n <= |plan.checks|
    && forall i :: 0 <= i < n ==> evidence[i] == EntryFor(plan.checks[i], ExitOf(exits, i), commit)
  }

  /** What verification concludes from the evidence in d: a changed tree blocks, failures go to repair. */
  ghost predicate Concluded(d: Snapshot, clean: bool, s: Snapshot, st: Status) {
    var failed := Some(FailedIds(d.evidence));
    if !clean then s == d && st.Blocked?
    else if AllPassed(d.evidence) then s == d.(phase := ReviewWork) && st.Verifying?
    else
      && s == d.(phase := Repair, lastFailed := failed,
                 repeatedFailures := if d.lastFailed == failed then d.repeatedFailures + 1 else 1)
      && st == if s.repeatedFailures >= 3 then Blocked else Verifying
  }

  ghost predicate Verified(d: Snapshot, exits: seq<int>, clean: bool, s: Snapshot, st: Status) {
    && d.plan.Some? && Recorded(d.plan.value, exits, |d.plan.value.checks|, s.evidence, s.headCommit)
    && Concluded(d.(evidence := s.evidence, headCommit := s.headCommit, agentAttempts := s.agentAttempts), clean, s, st)
  }

  ghost predicate WorkReviewed(d: Snapshot, review: Review, s: Snapshot, st: Status) {
    && s == d.(review := Some(review), phase := if ReviewPasses(Some(review)) then JudgeWork else Repair,
               agentAttempts := s.agentAttempts)
    && st.Verifying?
  }

  /** Delivery for a judgement ready at head_commit; repair, with what it finds, for any other. */
  ghost predicate Judged(d: Snapshot, verdict: Judge, s: Snapshot, st: Status) {
    && d.plan.Some? && st.Verifying?
    && if JudgeReady(d.plan.value, verdict, d.headCommit) then
         s == d.(judge := Some(verdict), phase := Deliver, agentAttempts := s.agentAttempts)
       else
         var found := JudgeFindings(d.plan.value, verdict);
         s == d.(judge := Some(verdict), phase := Repair, agentAttempts := s.agentAttempts,
                 review := Some(Review(false, if found == [] then ["Judge verdict was inconsistent"] else found)))
  }

  ghost predicate Repaired(d: Snapshot, blocked: bool, progress: bool, s: Snapshot, st: Status) {
    var stuck := blocked || (!progress && d.failureCount >= 2);
    && s == d.(attempts := s.attempts, failureCount := if progress then 0 else d.failureCount + 1,
               phase := if stuck then Repair else Verify,
               headCommit := s.headCommit, agentAttempts := s.agentAttempts)
    && st == if stuck then Blocked else Executing
  }

  /** Completed exactly when the snapshot is ready at HEAD of a clean tree and publication, if due, succeeds. */
  ghost predicate DeliveredOrNot(d: Snapshot, repo: Repo, gh: Publishing, requestPr: bool, s: Snapshot, st: Status) {
    if d.judge.None? then s == d.(phase := JudgeWork, agentAttempts := s.agentAttempts) && st.Running?
    else
      && s == d.(target := s.target, prUrl := s.prUrl, agentAttempts := s.agentAttempts)
      && (st.Completed? || st.Blocked?)
      && (st.Completed? <==>
            && repo.clean && ReadyAt(d, repo.head)
            && (requestPr && d.prUrl == "" ==> gh.pushExit == 0 && FindsRequest(gh)))
      && (st.Completed? && requestPr && d.prUrl == "" ==> s.prUrl == UrlOf(gh) && s.target == Some(gh.target))
  }

  /** The whole of a phase that begins in d over `before` and ends over `after`. */
  ghost predicate Outcome(d: Snapshot, before: Repo, a: Answers, requestPr: bool, s: Snapshot, st: Status, after: Repo)
  {
    var progress := before.head.tree != after.head.tree;
    match d.phase
    case Prepare =>
      && st.Running?
      && s == d.(baseCommit := a.base, headCommit := before.head, phase := MakePlan, agentAttempts := s.agentAttempts)
    case MakePlan => Planned(d, a.plan, s, st)
    case ReviewPlan => PlanReviewed(d, a.review, s, st)
    case Implement => Implemented(d, a.blocked, progress, s, st)
    case Verify => Verified(d, a.exits, after.clean, s, st)
    case ReviewWork => WorkReviewed(d, a.review, s, st)
    case JudgeWork => Judged(d, a.verdict.(commit := before.head), s, st)
    case Repair => s.attempts == d.attempts + 1 && Repaired(d, a.blocked, progress, s, st)
    case Deliver => DeliveredOrNot(d, before, a.gh, requestPr, s, st)
    case Unrecognized => s == d.(agentAttempts := s.agentAttempts) && st.Failed?
  }

  // ----- When nothing but the answers decides

  ghost predicate HasPlan(d: Snapshot) {
    d.plan.Some? && ValidPlan(d.plan.value)
  }

  /** Whether the phase starts a writable agent. */
  ghost predicate WillCode(d: Snapshot) {
    d.phase.Repair? || (d.phase.Implement? && d.plan.Some? && !NoneRunnable(d.plan.value.tasks, d.completed))
  }

  /** The answers that let the phase end by itself. */
  ghost predicate Helps(d: Snapshot, a: Answers, max: nat) {
    && (d.phase.MakePlan? ==> ValidPlan(a.plan))
    && (d.phase.Implement? || d.phase.Verify? || d.phase.JudgeWork? || d.phase.Deliver? ==> HasPlan(d))
    && (WillCode(d) ==> d.attempts < max && a.made.id != "")
    && (d.phase.JudgeWork? ==> VerdictsPresent(a.verdict))
    && (d.phase.Deliver? ==>
          a.gh.target.baseCommit == d.baseCommit && (d.target.None? || d.target.value == a.gh.target))
  }

  /** Something has changed the worktree since the judge assessed it, and recovery would make yet another commit. */
  ghost predicate Spoilt(d: Snapshot, repo: Repo, a: Answers) {
    && d.phase.Deliver? && HasPlan(d) && d.judge.Some? && repo != Repo(d.judge.value.commit, true)
    && a.rescued.id != "" && a.rescued != d.judge.value.commit
  }

  /** The repository such a phase leaves. */
  ghost function RepoAfter(d: Snapshot, before: Repo, a: Answers): Repo {
    if WillCode(d) then Repo(a.made, true) else before
  }

  /** The saved head is the one checked out, on a clean tree. */
  ghost predicate AtHeadOf(s: Snapshot, repo: Repo) {
    repo.clean && (s.phase.Prepare? || s.headCommit == repo.head)
  }

  lemma ImplementedEither(d: Snapshot, attempts: seq<AgentAttempt>, blocked: bool, progress: bool, s: Snapshot,
                          st: Status)
    ensures Implemented(d.(agentAttempts := attempts), blocked, progress, s, st) ==>
              Implemented(d, blocked, progress, s, st)
  {
    hide Runnable;
  }

  lemma VerifiedEither(d: Snapshot, attempts: seq<AgentAttempt>, exits: seq<int>, clean: bool, s: Snapshot, st: Status)
    requires Verified(d.(agentAttempts := attempts), exits, clean, s, st)
    ensures Verified(d, exits, clean, s, st)
  {
    hide Recorded, FailedIds, AllPassed;
  }

  lemma DeliveredEither(d: Snapshot, attempts: seq<AgentAttempt>, repo: Repo, gh: Publishing, requestPr: bool,
                        s: Snapshot, st: Status)
    requires DeliveredOrNot(d.(agentAttempts := attempts), repo, gh, requestPr, s, st)
    ensures DeliveredOrNot(d, repo, gh, requestPr, s, st)
  {
    hide CompletionReady;
  }

  /** The list of agent attempts decides nothing. */
  lemma AttemptsDecideNothing(d: Snapshot, attempts: seq<AgentAttempt>, before: Repo, a: Answers, requestPr: bool,
                              s: Snapshot, st: Status, after: Repo)
    requires Outcome(d.(agentAttempts := attempts), before, a, requestPr, s, st, after)
    ensures Outcome(d, before, a, requestPr, s, st, after)
  {
    hide Implemented, Verified, DeliveredOrNot, ValidPlan, JudgeReady, JudgeFindings;
    if d.phase.Implement? {
      ImplementedEither(d, attempts, a.blocked, before.head.tree != after.head.tree, s, st);
    } else if d.phase.Verify? {
      VerifiedEither(d, attempts, a.exits, after.clean, s, st);
    } else if d.phase.Deliver? {
      DeliveredEither(d, attempts, before, a.gh, requestPr, s, st);
    }
  }
}
