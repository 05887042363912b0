/**
 What a run comes to when nobody interferes, nothing fails and the agents are willing: the engine,
 driven tick by tick through its workflow, completes exactly the plans that it can afford.
 */
module Completion {
  import opened Prelude
  import opened Names
  import opened Dependencies
  import opened Plans
  import opened Rows
  import opened Phases
  import opened Protocol
  import opened Outcomes
  import opened Snapshots
  import Discipline
  import Endings
  import Engine
  import Parser

  // ----- One round of the workflow

  /** Between two ticks of an active run. */
  ghost predicate AtRest(e: Engine.Engine)
    reads e, e.db
  {
    && e.Valid() && e.calm && e.world.worker.Idle? && !e.world.attached && e.world.flow.AtLoop?
    && e.db.control.NoControl? && Active(e.db.status) && AtHeadOf(e.db.snap, e.repo)
  }

  lemma LoopSteps(w: World)
    requires w.flow.AtLoop?
    ensures w.flow.tick >= 100 ==>
              && Enabled(w, Workflow(ContinueAsNew))
              && Effect(w, Workflow(ContinueAsNew)) == w.(flow := AtLoop(0), queue := 0)
    ensures w.flow.tick < 100 ==>
              && Enabled(w, Workflow(Drain))
              && Effect(w, Workflow(Drain)) == w.(flow := InTick(w.flow.tick), queue := 0, drained := w.row.version)
  {
  }

  lemma AttemptMayBegin(w: World)
    requires w.flow.InTick? && w.worker.Idle?
    ensures Enabled(w, Attempt(Acquire(true)))
  {
  }

  lemma ResultIsTaken(w: World)
    requires w.flow.InTick? && w.attached && w.worker.Done?
    ensures Enabled(w, Workflow(TakeResult))
    ensures Effect(w, Workflow(TakeResult)) ==
              w.(worker := Idle, attached := false, flow := NextFlow(w.flow.tick, w.worker.result))
  {
  }

  /** The head of the loop, up to where an attempt may begin. */
  method StartTick(e: Engine.Engine)
    requires AtRest(e) && IsRun(e.run)
    modifies e`world, e`run
    ensures e.Steady() && e.calm && IsRun(e.run) && e.run.states[0] == old(e.run.states[0])
    ensures e.world.row == old(e.world.row) && Enabled(e.world, Attempt(Acquire(true)))
  {
    hide StepAt, Effect, Enabled, AtHeadOf;
    LoopSteps(e.world);
    if e.world.flow.tick >= 100 {
      e.Record(Workflow(ContinueAsNew));
      LoopSteps(e.world);
    }
    e.Record(Workflow(Drain));
    AttemptMayBegin(e.world);
  }

  /** Drain, tick, switch on the result: the tick has the outcome that its answers decide. */
  method Cycle(e: Engine.Engine, a: Answers)
    requires AtRest(e) && IsRun(e.run)
    modifies e, e.db
    ensures e.Valid() && IsRun(e.run) && e.run.states[0] == old(e.run.states[0])
    ensures old(Helps(e.db.snap, a, e.db.maxAttempts)) ==>
              && Outcome(old(e.db.snap), old(e.repo), a, e.db.requestPr, e.db.snap, e.db.status, e.repo)
              && e.repo == RepoAfter(old(e.db.snap), old(e.repo), a) && e.db.maxAttempts == old(e.db.maxAttempts)
              && (Active(e.db.status) ==> AtRest(e))
    ensures old(HasPlan(e.db.snap) && WillCode(e.db.snap) && e.db.snap.attempts >= e.db.maxAttempts) ==>
              e.db.status.Exhausted? && e.db.snap == old(e.db.snap).(agentAttempts := e.db.snap.agentAttempts)
  {
    hide StepAt, Effect, Enabled, Outcome, Helps, WillCode, HasPlan;
    StartTick(e);
    var result := e.Tick(true, a);
    if result.Some? && e.world.attached && e.world.flow.InTick? {
      ResultIsTaken(e.world);
      e.Record(Workflow(TakeResult));
    }
  }

  // ----- Willing agents

  /**
   Answers that bring plan forward: the planner gives it, reviews pass, an agent is not blocked and
   changes the tree, checks exit 0, the judge passes every requirement, and publishing works.
   */
  ghost predicate Willing(plan: Plan, d: Snapshot, repo: Repo, a: Answers) {
    && a.plan == plan && ReviewPasses(Some(a.review)) && !a.blocked
    && a.made.id != "" && a.made.tree != repo.head.tree
    && (forall i :: 0 <= i < |a.exits| ==> a.exits[i] == 0)
    && JudgeReady(plan, a.verdict.(commit := repo.head), repo.head)
    && a.gh.pushExit == 0 && FindsRequest(a.gh) && a.gh.target.baseCommit == d.baseCommit
  }

  function PassingVerdicts(requirements: seq<Requirement>): seq<Verdict> {
    seq(|requirements|, i requires 0 <= i < |requirements| => Verdict(requirements[i].id, true, "met"))
  }

  lemma PassingJudgeIsReady(plan: Plan, head: Commit)
    requires ValidPlan(plan)
    ensures JudgeReady(plan, Judge(true, [], PassingVerdicts(plan.requirements), head), head)
  {
    var verdicts := PassingVerdicts(plan.requirements);
    forall i | 0 <= i < |verdicts|
      ensures verdicts[i].requirementId == RequirementIds(plan)[i]
    {
    }
    forall q | q in RequirementIds(plan)
      ensures exists v :: v in verdicts && v.requirementId == q
    {
      var i :| 0 <= i < |plan.requirements| && RequirementIds(plan)[i] == q;
      assert verdicts[i] in verdicts;
    }
  }

  function WillingAnswer(plan: Plan, d: Snapshot, repo: Repo): Answers {
    Answers(repo.head, NO_COMMIT, Commit("more work", repo.head.tree + "+"), plan, Review(true, []), false,
            Judge(true, [], PassingVerdicts(plan.requirements), repo.head), [],
            Publishing(Target("owner/name", "main", d.baseCommit, "git@github.com:owner/name"), 0, 0,
                       None, 0, "pull/1"))
  }

  /** For every valid plan there are agents willing in every state. */
  lemma WillingAgentsExist(plan: Plan)
    requires ValidPlan(plan)
    ensures forall d, repo :: Willing(plan, d, repo, WillingAnswer(plan, d, repo))
  {
    hide ValidPlan, JudgeReady;
    forall d: Snapshot, repo: Repo
      ensures Willing(plan, d, repo, WillingAnswer(plan, d, repo))
    {
      PassingJudgeIsReady(plan, repo.head);
      assert |repo.head.tree + "+"| == |repo.head.tree| + 1;
    }
  }

  /** The plan is in place, every attempt so far completed a task, and nothing has been published. */
  ghost predicate OnCourse(d: Snapshot, plan: Plan) {
    && d.plan == Some(plan) && d.attempts == |d.completed| && d.failureCount == 0 && d.target.None? && d.prUrl == ""
  }

  lemma TasksAreKeys(plan: Plan)
    requires ValidPlan(plan)
    ensures |TaskGraph(plan.tasks)| == |plan.tasks|
  {
    TaskIdsAreKeys(plan);
    NoDupCard(TaskIds(plan));
  }

  lemma RoomForTask(plan: Plan, completed: seq<Name>)
    requires ValidPlan(plan) && IsPrefix(TaskGraph(plan.tasks), completed) && !NoneRunnable(plan.tasks, completed)
    ensures |completed| < |plan.tasks|
  {
    hide ValidPlan, Runnable;
    var t :| t in plan.tasks && Runnable(t, completed);
    CompletingExtendsPrefix(plan, completed, t);
    Parser.PrefixFits(TaskGraph(plan.tasks), completed + [t.id]);
    TasksAreKeys(plan);
  }

  /** When all tasks are completed, one attempt each, there were as many attempts as tasks. */
  lemma AllDone(plan: Plan, completed: seq<Name>)
    requires ValidPlan(plan) && IsPrefix(TaskGraph(plan.tasks), completed) && Elems(completed) == Elems(TaskIds(plan))
    ensures |completed| == |plan.tasks|
  {
    NoDupCard(completed);
    NoDupCard(TaskIds(plan));
  }

  lemma ZeroExitsPass(plan: Plan, exits: seq<int>, evidence: seq<Evidence>, commit: Commit)
    requires Recorded(plan, exits, |plan.checks|, evidence, commit)
    requires forall i :: 0 <= i < |exits| ==> exits[i] == 0
    ensures EvidenceComplete(plan, evidence, commit) && AllPassed(evidence)
  {
    forall i | 0 <= i < |evidence|
      ensures RecordsCheck(evidence[i], plan.checks[i], commit) && evidence[i].passed
    {
    }
  }

  lemma RowFits(e: Engine.Engine)
    requires e.Valid() && IsRun(e.run)
    ensures SnapshotFits(e.db.snap)
  {
    hide Effect, Enabled, SnapshotFits, StepAt;
    SnapshotInvAlways(e.run, |e.run.states| - 1);
  }

  // ----- The stages of a run

  /** One round on the answer that the agents give to the present state. */
  method Answered(e: Engine.Engine, plan: Plan, answers: (Snapshot, Repo) -> Answers)
    requires AtRest(e) && IsRun(e.run) && Helps(e.db.snap, answers(e.db.snap, e.repo), e.db.maxAttempts)
    requires forall d, repo :: Willing(plan, d, repo, answers(d, repo))
    modifies e, e.db
    ensures e.Valid() && IsRun(e.run) && e.run.states[0] == old(e.run.states[0])
    ensures e.db.maxAttempts == old(e.db.maxAttempts)
    ensures Active(e.db.status) ==> AtRest(e)
    ensures
      var d, repo := old(e.db.snap), old(e.repo);
      var a := answers(d, repo);
      && Willing(plan, d, repo, a) && Outcome(d, repo, a, e.db.requestPr, e.db.snap, e.db.status, e.repo)
      && e.repo == RepoAfter(d, repo, a)
  {
    hide StepAt, Effect, Enabled, ValidPlan, NoneRunnable, Outcome, Helps, WillCode, AtHeadOf;
    ghost var d, repo := e.db.snap, e.repo;
    assert Willing(plan, d, repo, answers(d, repo));
    Cycle(e, answers(e.db.snap, e.repo));
  }

  /** The three planning rounds. */
  method PlanIt(e: Engine.Engine, plan: Plan, answers: (Snapshot, Repo) -> Answers)
    requires AtRest(e) && IsRun(e.run) && e.db.snap == EMPTY_SNAPSHOT && ValidPlan(plan) && plan.clarification == ""
    requires forall d, repo :: Willing(plan, d, repo, answers(d, repo))
    modifies e, e.db
    ensures AtRest(e) && IsRun(e.run) && e.run.states[0] == old(e.run.states[0])
    ensures e.db.maxAttempts == old(e.db.maxAttempts)
    ensures OnCourse(e.db.snap, plan) && e.db.snap.phase.Implement? && e.db.snap.completed == []
  {
    hide StepAt, Effect, Enabled, ValidPlan, NoneRunnable, JudgeReady, AtHeadOf;
    Answered(e, plan, answers);
    assert Willing(plan, e.db.snap, e.repo, answers(e.db.snap, e.repo));
    Answered(e, plan, answers);
    Answered(e, plan, answers);
  }

  /** One attempt at a runnable task completes it. */
  method CodeOne(e: Engine.Engine, plan: Plan, answers: (Snapshot, Repo) -> Answers)
    requires AtRest(e) && IsRun(e.run) && ValidPlan(plan) && OnCourse(e.db.snap, plan) && e.db.snap.phase.Implement?
    requires !NoneRunnable(plan.tasks, e.db.snap.completed) && e.db.snap.attempts < e.db.maxAttempts
    requires forall d, repo :: Willing(plan, d, repo, answers(d, repo))
    modifies e, e.db
    ensures AtRest(e) && IsRun(e.run) && e.run.states[0] == old(e.run.states[0])
    ensures e.db.maxAttempts == old(e.db.maxAttempts)
    ensures OnCourse(e.db.snap, plan) && e.db.snap.phase.Implement?
    ensures |e.db.snap.completed| == |old(e.db.snap).completed| + 1
  {
    hide StepAt, Effect, Enabled, ValidPlan, NoneRunnable, Runnable, JudgeReady, AtHeadOf;
    assert Willing(plan, e.db.snap, e.repo, answers(e.db.snap, e.repo));
    Answered(e, plan, answers);
  }

  /** With no task left, one round leads to verification. */
  method StartChecks(e: Engine.Engine, plan: Plan, answers: (Snapshot, Repo) -> Answers)
    requires AtRest(e) && IsRun(e.run) && ValidPlan(plan) && OnCourse(e.db.snap, plan) && e.db.snap.phase.Implement?
    requires NoneRunnable(plan.tasks, e.db.snap.completed)
    requires forall d, repo :: Willing(plan, d, repo, answers(d, repo))
    modifies e, e.db
    ensures AtRest(e) && IsRun(e.run) && e.run.states[0] == old(e.run.states[0])
    ensures e.db.maxAttempts == old(e.db.maxAttempts)
    ensures OnCourse(e.db.snap, plan) && e.db.snap.phase.Verify? && e.db.snap.completed == old(e.db.snap).completed
  {
    hide StepAt, Effect, Enabled, ValidPlan, NoneRunnable, Runnable, JudgeReady, AtHeadOf;
    Answered(e, plan, answers);
  }

  lemma JudgeHasVerdicts(plan: Plan, verdict: Judge, head: Commit)
    requires JudgeReady(plan, verdict.(commit := head), head)
    ensures VerdictsPresent(verdict)
  {
  }

  /** Verification, review and judgement: all three pass, at the commit checked out. */
  method Check(e: Engine.Engine, plan: Plan, answers: (Snapshot, Repo) -> Answers)
    requires AtRest(e) && IsRun(e.run) && ValidPlan(plan) && OnCourse(e.db.snap, plan) && e.db.snap.phase.Verify?
    requires forall d, repo :: Willing(plan, d, repo, answers(d, repo))
    modifies e, e.db
    ensures AtRest(e) && IsRun(e.run) && e.run.states[0] == old(e.run.states[0])
    ensures e.db.maxAttempts == old(e.db.maxAttempts)
    ensures OnCourse(e.db.snap, plan) && e.db.snap.phase.Deliver? && Discipline.AtHead(e.db.snap, e.repo)
  {
    hide StepAt, Effect, Enabled, ValidPlan, NoneRunnable, Runnable, JudgeReady, EvidenceComplete, AllPassed, Recorded,
      FailedIds;
    assert Willing(plan, e.db.snap, e.repo, answers(e.db.snap, e.repo));
    Answered(e, plan, answers);
    ZeroExitsPass(plan, answers(old(e.db.snap), old(e.repo)).exits, e.db.snap.evidence, e.db.snap.headCommit);
    Answered(e, plan, answers);
    assert Willing(plan, e.db.snap, e.repo, answers(e.db.snap, e.repo));
    JudgeHasVerdicts(plan, answers(e.db.snap, e.repo).verdict, e.repo.head);
    Answered(e, plan, answers);
  }

  /** Delivery, with publication if it was asked for. */
  method Deliver(e: Engine.Engine, plan: Plan, answers: (Snapshot, Repo) -> Answers)
    requires AtRest(e) && IsRun(e.run) && ValidPlan(plan) && OnCourse(e.db.snap, plan)
    requires e.db.snap.phase.Deliver? && Discipline.AtHead(e.db.snap, e.repo)
    requires forall d, repo :: Willing(plan, d, repo, answers(d, repo))
    modifies e, e.db
    ensures e.Valid() && IsRun(e.run) && e.run.states[0] == old(e.run.states[0])
    ensures e.db.maxAttempts == old(e.db.maxAttempts)
    ensures e.db.status.Completed? && e.db.snap.plan == Some(plan)
  {
    hide StepAt, Effect, Enabled, ValidPlan, NoneRunnable, Runnable, JudgeReady, CompletionReady, EvidenceComplete,
      AllPassed, SnapshotFits, ReadyAt;
    RowFits(e);
    Discipline.DeliverySnapshotIsReady(e.db.snap, e.repo);
    assert Willing(plan, e.db.snap, e.repo, answers(e.db.snap, e.repo));
    Answered(e, plan, answers);
  }

  lemma NothingLeft(plan: Plan, completed: seq<Name>, task: Option<Task>)
    requires task.Some? ==> task.value in plan.tasks && Runnable(task.value, completed)
    requires task.None? ==> forall t :: t in plan.tasks ==> !Runnable(t, completed)
    ensures task.None? <==> NoneRunnable(plan.tasks, completed)
  {
  }

  /** Of a fitting implementation state: nothing is runnable exactly when as many tasks are completed as there are. */
  lemma TasksOf(d: Snapshot, plan: Plan)
    requires SnapshotFits(d) && d.phase.Implement? && d.plan == Some(plan)
    ensures |d.completed| <= |plan.tasks|
    ensures NoneRunnable(plan.tasks, d.completed) <==> |d.completed| == |plan.tasks|
  {
    hide ValidPlan, Runnable;
    Parser.PrefixFits(TaskGraph(plan.tasks), d.completed);
    TasksAreKeys(plan);
    if NoneRunnable(plan.tasks, d.completed) {
      AllTasksCompleted(d);
      AllDone(plan, d.completed);
    } else {
      RoomForTask(plan, d.completed);
    }
  }

  /** Coding rounds, until no task is left or no attempt. */
  method CodeAll(e: Engine.Engine, plan: Plan, answers: (Snapshot, Repo) -> Answers)
    requires AtRest(e) && IsRun(e.run) && ValidPlan(plan) && OnCourse(e.db.snap, plan) && e.db.snap.phase.Implement?
    requires e.db.snap.completed == []
    requires forall d, repo :: Willing(plan, d, repo, answers(d, repo))
    modifies e, e.db
    ensures AtRest(e) && IsRun(e.run) && e.run.states[0] == old(e.run.states[0])
    ensures e.db.maxAttempts == old(e.db.maxAttempts)
    ensures OnCourse(e.db.snap, plan) && e.db.snap.phase.Implement?
    ensures |e.db.snap.completed| == if |plan.tasks| <= e.db.maxAttempts then |plan.tasks| else e.db.maxAttempts
    ensures NoneRunnable(plan.tasks, e.db.snap.completed) <==> |plan.tasks| <= e.db.maxAttempts
  {
    hide StepAt, Effect, Enabled, ValidPlan, NoneRunnable, Runnable, JudgeReady, AtHeadOf, SnapshotFits, Willing;
    var left := true;
    while left && e.db.snap.attempts < e.db.maxAttempts
      invariant AtRest(e) && IsRun(e.run) && e.run.states[0] == old(e.run.states[0])
      invariant e.db.maxAttempts == old(e.db.maxAttempts)
      invariant OnCourse(e.db.snap, plan) && e.db.snap.phase.Implement? && e.db.snap.attempts <= e.db.maxAttempts
      invariant !left ==> NoneRunnable(plan.tasks, e.db.snap.completed)
      decreases left, e.db.maxAttempts - e.db.snap.attempts
    {
      var task := NextTask(plan, e.db.snap.completed);
      NothingLeft(plan, e.db.snap.completed, task);
      if task.None? {
        left := false;
      } else {
        CodeOne(e, plan, answers);
      }
    }
    RowFits(e);
    TasksOf(e.db.snap, plan);
  }

  // ----- The whole run

  lemma FlowStarts(w: World)
    requires w.flow.NotStarted?
    ensures Enabled(w, Api(StartFlow)) && Effect(w, Api(StartFlow)) == w.(flow := AtLoop(0))
  {
  }

  lemma CodesWhatIsRunnable(d: Snapshot, plan: Plan)
    requires d.phase.Implement? && d.plan == Some(plan) && ValidPlan(plan) && !NoneRunnable(plan.tasks, d.completed)
    ensures HasPlan(d) && WillCode(d)
  {
  }

  /** A run created and started. */
  method Begin(attempts: nat, seconds: nat, requestPr: bool, base: Commit) returns (e: Engine.Engine)
    requires base.id != ""
    ensures fresh(e) && fresh(e.db) && AtRest(e) && IsRun(e.run) && e.db.snap == EMPTY_SNAPSHOT
    ensures e.db.maxAttempts == attempts && !e.disciplined
  {
    hide StepAt, Effect, Enabled;
    e := new Engine.Engine(attempts, seconds, requestPr, base, false, true);
    FlowStarts(e.world);
    e.Record(Api(StartFlow));
  }

  /** What follows the last coding round: completion with nothing left to do, exhaustion otherwise. */
  method Conclude(e: Engine.Engine, plan: Plan, answers: (Snapshot, Repo) -> Answers)
    requires AtRest(e) && IsRun(e.run) && ValidPlan(plan) && OnCourse(e.db.snap, plan) && e.db.snap.phase.Implement?
    requires NoneRunnable(plan.tasks, e.db.snap.completed) || e.db.snap.attempts == e.db.maxAttempts
    requires forall d, repo :: Willing(plan, d, repo, answers(d, repo))
    modifies e, e.db
    ensures e.Valid() && IsRun(e.run) && e.db.snap.plan == Some(plan)
    ensures if NoneRunnable(plan.tasks, old(e.db.snap).completed) then e.db.status.Completed?
            else e.db.status.Exhausted? && e.db.snap.completed == old(e.db.snap).completed
  {
    hide StepAt, Effect, Enabled, ValidPlan, NoneRunnable, JudgeReady, Willing, AtHeadOf, Helps, Outcome;
    var task := NextTask(plan, e.db.snap.completed);
    NothingLeft(plan, e.db.snap.completed, task);
    if task.None? {
      StartChecks(e, plan, answers);
      Check(e, plan, answers);
      Deliver(e, plan, answers);
    } else {
      CodesWhatIsRunnable(e.db.snap, plan);
      Cycle(e, answers(e.db.snap, e.repo));
    }
  }

  /**
   A run that nobody disturbs, with willing agents, whatever they answer in detail: it completes if
   and only if the plan has no more tasks than the limit has attempts; otherwise it is exhausted,
   with one task completed for every attempt.
   */
  method CompletesExactlyWhenAffordable(attempts: nat, seconds: nat, requestPr: bool, base: Commit, plan: Plan,
                                        answers: (Snapshot, Repo) -> Answers)
    returns (row: Row, ghost run: Run)
    requires base.id != "" && ValidPlan(plan) && plan.clarification == ""
    requires forall d, repo :: Willing(plan, d, repo, answers(d, repo))
    ensures run.states != [] && IsRun(run) && Last(run).row == row && row.snap.plan == Some(plan)
    ensures row.status.Completed? <==> |plan.tasks| <= attempts
    ensures row.status.Exhausted? <==> |plan.tasks| > attempts
    ensures row.status.Exhausted? ==> |row.snap.completed| == attempts
  {
    hide StepAt, Effect, Enabled, ValidPlan, NoneRunnable, Runnable, JudgeReady, Willing, AtHeadOf;
    var e := Begin(attempts, seconds, requestPr, base);
    PlanIt(e, plan, answers);
    CodeAll(e, plan, answers);
    Conclude(e, plan, answers);
    row, run := e.db.Value(), e.run;
  }

  // ----- Delivery's guard is needed

  lemma LoadedActive(row: Row)
    requires Active(row.status) && row.control.NoControl?
    ensures Decide(row) == Owned(Protocol.Begin(row.snap, row.maxAttempts, row.version))
  {
  }

  /** A tick that delivers finds the worktree changed, or its snapshot not complete at HEAD. */
  ghost predicate GuardFails(w: World) {
    w.worker.Owned? && w.worker.o.mem.phase.Deliver? && !(w.repo.clean && ReadyAt(w.worker.o.mem, w.repo.head))
  }

  /** Between the load and the phase of a delivery tick, something edits the worktree; the tick blocks. */
  method EditedDelivery(e: Engine.Engine, a: Answers) returns (ghost at: nat)
    requires AtRest(e) && IsRun(e.run) && e.db.snap.phase.Deliver? && HasPlan(e.db.snap) && e.db.snap.judge.Some?
    requires !e.disciplined && a.rescued.id != "" && a.rescued != e.db.snap.judge.value.commit
    modifies e, e.db
    ensures e.Valid() && IsRun(e.run) && e.run.states[0] == old(e.run.states[0])
    ensures e.db.status.Blocked? && at < |e.run.states|
    ensures GuardFails(e.run.states[at])
  {
    hide StepAt, Effect, Enabled, Outcome, Helps, WillCode, HasPlan, ReadyAt, Decide;
    StartTick(e);
    LoadedActive(e.world.row);
    var row := e.LockAndLoad(true);
    var edited := Repo(e.repo.head, false);
    Endings.EditStep(e.world, edited);
    e.Record(InPhase(EditRepo(edited)));
    e.repo := edited;
    at := |e.run.states| - 1;
    ghost var here := e.world;
    var result := e.Act(row.value, a);
    assert e.run.states[at] == here;
  }

  /**
   A run in which delivery's guard is what stops it: every valid plan that can be afforded, with
   willing agents whatever they answer, can come to a delivery tick whose worktree is edited behind it.
   */
  method DeliveryCanBlock(attempts: nat, seconds: nat, requestPr: bool, base: Commit, plan: Plan,
                          answers: (Snapshot, Repo) -> Answers)
    returns (row: Row, ghost run: Run, ghost at: nat)
    requires base.id != "" && ValidPlan(plan) && plan.clarification == "" && |plan.tasks| <= attempts
    requires forall d, repo :: Willing(plan, d, repo, answers(d, repo))
    ensures run.states != [] && IsRun(run) && Last(run).row == row && row.status.Blocked?
    ensures at < |run.states| && GuardFails(run.states[at])
  {
    hide StepAt, Effect, Enabled, ValidPlan, NoneRunnable, Runnable, JudgeReady, Willing, AtHeadOf, GuardFails;
    var e := Begin(attempts, seconds, requestPr, base);
    PlanIt(e, plan, answers);
    CodeAll(e, plan, answers);
    StartChecks(e, plan, answers);
    Check(e, plan, answers);
    var judged := e.db.snap.judge.value.commit;
    var a := answers(e.db.snap, e.repo).(rescued := Commit(judged.id + "'", judged.tree));
    assert |a.rescued.id| == |judged.id| + 1;
    at := EditedDelivery(e, a);
    row, run := e.db.Value(), e.run;
  }
}
