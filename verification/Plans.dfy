/** Plans and what they must satisfy, the scheduler over them, and when a run may count as complete. */
module Plans {
  import opened Prelude
  import opened Names
  import opened Dependencies

  /** A Git commit: its id, and the tree that the id determines. */
  datatype Commit = Commit(id: string, tree: string)

  const NO_COMMIT := Commit("", "")

  datatype Requirement = Requirement(id: Name)
  datatype Task = Task(id: Name, requirementIds: seq<Name>, dependsOn: seq<Name>)
  datatype Check = Check(id: Name, requirementIds: seq<Name>, argv: seq<string>)
  datatype Plan = Plan(requirements: seq<Requirement>, tasks: seq<Task>, checks: seq<Check>, clarification: string)

  datatype PlanError = DuplicateIds | UnknownRequirement | Uncovered | CycleOrUnknownTask

  function RequirementIds(plan: Plan): seq<Name> {
    seq(|plan.requirements|, i requires 0 <= i < |plan.requirements| => plan.requirements[i].id)
  }

  function TaskIds(plan: Plan): seq<Name> {
    seq(|plan.tasks|, i requires 0 <= i < |plan.tasks| => plan.tasks[i].id)
  }

  function CheckIds(plan: Plan): seq<Name> {
    seq(|plan.checks|, i requires 0 <= i < |plan.checks| => plan.checks[i].id)
  }

  /** What `str.strip` takes for white space. */
  predicate IsSpace(c: char) {
    || '\t' <= c <= '\r' || '\U{1C}' <= c <= ' ' || c == '\U{85}' || c == '\U{A0}' || c == '\U{1680}'
    || '\U{2000}' <= c <= '\U{200A}' || c == '\U{2028}' || c == '\U{2029}' || c == '\U{202F}' || c == '\U{205F}'
    || c == '\U{3000}'
  }

  const NO_OPS := ["true", "echo", "printf", ":"]

  /** A command that names something to execute, and nothing that only succeeds. */
  predicate Executable(argv: seq<string>) {
    argv != [] && (exists c :: c in argv[0] && !IsSpace(c)) && argv[0] !in NO_OPS
  }

  /** Commands that name nothing, or only succeed, are refused, and any other with a visible character is not. */
  lemma ExecutableMeans(argv: seq<string>)
    ensures Executable(argv) ==>
              && argv != [] && argv[0] !in {"true", "echo", "printf", ":"}
              && exists c :: c in argv[0] && c !in {' ', '\t', '\n', '\r'}
    ensures argv != [] && argv[0] !in {"true", "echo", "printf", ":"}
            && (exists c :: c in argv[0] && '!' <= c <= '~') ==>
              Executable(argv)
  {
    if argv != [] {
      assert forall c: char :: '!' <= c <= '~' ==> !IsSpace(c);
    }
  }

  /** Required lists and names are not empty, and every check executes something. */
  predicate FieldsPresent(plan: Plan) {
    && plan.requirements != [] && plan.tasks != [] && plan.checks != []
    && (forall i :: 0 <= i < |plan.requirements| ==> plan.requirements[i].id.text != "")
    && (forall i :: 0 <= i < |plan.tasks| ==> plan.tasks[i].id.text != "" && plan.tasks[i].requirementIds != [])
    && (forall i :: 0 <= i < |plan.checks| ==>
          plan.checks[i].id.text != "" && plan.checks[i].requirementIds != [] && Executable(plan.checks[i].argv))
  }

  predicate RefersToRequirements(plan: Plan) {
    && (forall t, r :: t in plan.tasks && r in t.requirementIds ==> r in RequirementIds(plan))
    && (forall c, r :: c in plan.checks && r in c.requirementIds ==> r in RequirementIds(plan))
  }

  predicate CoversRequirements(plan: Plan) {
    forall r :: r in RequirementIds(plan) ==>
      && (exists c :: c in plan.checks && r in c.requirementIds)
      && (exists t :: t in plan.tasks && r in t.requirementIds)
  }

  ghost predicate DistinctIds(plan: Plan) {
    NoDup(RequirementIds(plan)) && NoDup(TaskIds(plan)) && NoDup(CheckIds(plan))
  }

  /** Tasks as a graph; with distinct ids it maps each task to its own dependencies. */
  ghost function TaskGraph(tasks: seq<Task>): Graph {
    if tasks == [] then map[]
    else
      var last := tasks[|tasks| - 1];
      TaskGraph(tasks[..|tasks| - 1])[last.id := last.dependsOn]
  }

  /** What a plan must be: complete, consistent, and with tasks that can be put in order. */
  ghost predicate ValidPlan(plan: Plan) {
    && FieldsPresent(plan)
    && DistinctIds(plan)
    && RefersToRequirements(plan)
    && CoversRequirements(plan)
    && HasOrder(TaskGraph(plan.tasks))
  }

  ghost predicate IsRequirement(plan: Plan, r: Name) {
    exists q :: q in plan.requirements && q.id == r
  }

  ghost predicate IsTask(plan: Plan, n: Name) {
    exists t :: t in plan.tasks && t.id == n
  }

  lemma IdsByIndex(plan: Plan)
    ensures forall r :: r in RequirementIds(plan) <==> IsRequirement(plan, r)
    ensures forall n :: n in TaskIds(plan) <==> IsTask(plan, n)
  {
    forall q | q in plan.requirements
      ensures q.id in RequirementIds(plan)
    {
      var i :| 0 <= i < |plan.requirements| && plan.requirements[i] == q;
      assert RequirementIds(plan)[i] == q.id;
    }
    forall t | t in plan.tasks
      ensures t.id in TaskIds(plan)
    {
      var i :| 0 <= i < |plan.tasks| && plan.tasks[i] == t;
      assert TaskIds(plan)[i] == t.id;
    }
  }

  lemma {:induction false} TaskGraphIsTasks(tasks: seq<Task>)
    requires forall i, j :: 0 <= i < j < |tasks| ==> tasks[i].id != tasks[j].id
    ensures forall i :: 0 <= i < |tasks| ==>
              tasks[i].id in TaskGraph(tasks) && TaskGraph(tasks)[tasks[i].id] == tasks[i].dependsOn
    ensures forall n :: n in TaskGraph(tasks) ==> exists i :: 0 <= i < |tasks| && tasks[i].id == n
  {
    if tasks == [] {
    } else {
      var front := tasks[..|tasks| - 1];
      TaskGraphIsTasks(front);
      forall n | n in TaskGraph(tasks)
        ensures exists i :: 0 <= i < |tasks| && tasks[i].id == n
      {
        if n == tasks[|tasks| - 1].id {
        } else {
          assert n in TaskGraph(front);
          var i :| 0 <= i < |front| && front[i].id == n;
          assert tasks[i].id == n;
        }
      }
    }
  }

  lemma TaskIdsAreKeys(plan: Plan)
    requires NoDup(TaskIds(plan))
    ensures Elems(TaskIds(plan)) == TaskGraph(plan.tasks).Keys
    ensures forall t :: t in plan.tasks ==> t.id in TaskGraph(plan.tasks) && TaskGraph(plan.tasks)[t.id] == t.dependsOn
  {
    var ids := TaskIds(plan);
    assert forall i :: 0 <= i < |plan.tasks| ==> ids[i] == plan.tasks[i].id;
    TaskGraphIsTasks(plan.tasks);
  }

  /** What a plan must have at all. */
  ghost predicate NothingMissing(plan: Plan) {
    && plan.requirements != [] && plan.tasks != [] && plan.checks != []
    && (forall q :: q in plan.requirements ==> q.id != Name(""))
    && (forall t :: t in plan.tasks ==> t.id != Name("") && t.requirementIds != [])
    && (forall c :: c in plan.checks ==> c.id != Name("") && c.requirementIds != [] && Executable(c.argv))
  }

  lemma FieldsPresentExactly(plan: Plan)
    ensures FieldsPresent(plan) <==> NothingMissing(plan)
  {
  }

  /** No id of a plan occurs twice. */
  ghost predicate NothingTwice(plan: Plan) {
    && (forall i, j :: 0 <= i < j < |plan.requirements| ==> plan.requirements[i].id != plan.requirements[j].id)
    && (forall i, j :: 0 <= i < j < |plan.tasks| ==> plan.tasks[i].id != plan.tasks[j].id)
    && (forall i, j :: 0 <= i < j < |plan.checks| ==> plan.checks[i].id != plan.checks[j].id)
  }

  lemma DistinctIdsExactly(plan: Plan)
    ensures DistinctIds(plan) <==> NothingTwice(plan)
  {
    var rs, ts, cs := RequirementIds(plan), TaskIds(plan), CheckIds(plan);
    assert |rs| == |plan.requirements| && forall i :: 0 <= i < |plan.requirements| ==> rs[i] == plan.requirements[i].id;
    assert |ts| == |plan.tasks| && forall i :: 0 <= i < |plan.tasks| ==> ts[i] == plan.tasks[i].id;
    assert |cs| == |plan.checks| && forall i :: 0 <= i < |plan.checks| ==> cs[i] == plan.checks[i].id;
  }

  /** Tasks and checks refer to requirements of the plan only. */
  ghost predicate NothingUnknown(plan: Plan) {
    && (forall t, r :: t in plan.tasks && r in t.requirementIds ==> IsRequirement(plan, r))
    && (forall c, r :: c in plan.checks && r in c.requirementIds ==> IsRequirement(plan, r))
  }

  /** Every requirement has a task and a check. */
  ghost predicate NothingUncovered(plan: Plan) {
    && (forall q :: q in plan.requirements ==> exists t :: t in plan.tasks && q.id in t.requirementIds)
    && (forall q :: q in plan.requirements ==> exists c :: c in plan.checks && q.id in c.requirementIds)
  }

  lemma ReferencesExactly(plan: Plan)
    ensures RefersToRequirements(plan) <==> NothingUnknown(plan)
  {
    IdsByIndex(plan);
    forall r
      ensures r in RequirementIds(plan) <==> IsRequirement(plan, r)
    {
    }
  }

  lemma CoverageExactly(plan: Plan)
    ensures CoversRequirements(plan) <==> NothingUncovered(plan)
  {
    IdsByIndex(plan);
    if CoversRequirements(plan) {
      forall q | q in plan.requirements
        ensures exists t :: t in plan.tasks && q.id in t.requirementIds
        ensures exists c :: c in plan.checks && q.id in c.requirementIds
      {
        assert IsRequirement(plan, q.id) && q.id in RequirementIds(plan);
      }
    } else if NothingUncovered(plan) {
      forall r | r in RequirementIds(plan)
        ensures exists c :: c in plan.checks && r in c.requirementIds
        ensures exists t :: t in plan.tasks && r in t.requirementIds
      {
        assert IsRequirement(plan, r);
        var q :| q in plan.requirements && q.id == r;
      }
    }
  }

  /** All tasks, once each, every one after all that it depends on. */
  ghost predicate OrdersTasks(plan: Plan, order: seq<Name>) {
    && NoDup(order) && (forall n :: n in order <==> IsTask(plan, n))
    && forall k, t, d :: 0 <= k < |order| && t in plan.tasks && t.id == order[k] && d in t.dependsOn ==> d in order[..k]
  }

  lemma TaskOrdersExactly(plan: Plan, order: seq<Name>)
    requires NoDup(TaskIds(plan))
    ensures IsTopological(TaskGraph(plan.tasks), order) <==> OrdersTasks(plan, order)
  {
    var g := TaskGraph(plan.tasks);
    TaskIdsAreKeys(plan);
    IdsByIndex(plan);
    forall n
      ensures n in g <==> IsTask(plan, n)
    {
      assert n in Elems(TaskIds(plan)) <==> n in TaskIds(plan);
    }
    if OrdersTasks(plan, order) {
      forall k | 0 <= k < |order|
        ensures order[k] in g && Elems(g[order[k]]) <= Elems(order[..k])
      {
        assert order[k] in order && IsTask(plan, order[k]);
        var t :| t in plan.tasks && t.id == order[k];
        assert g[t.id] == t.dependsOn;
      }
      assert Elems(order) == g.Keys;
    } else if IsTopological(g, order) {
      assert forall n :: n in order <==> n in Elems(order);
      forall k, t, d | 0 <= k < |order| && t in plan.tasks && t.id == order[k] && d in t.dependsOn
        ensures d in order[..k]
      {
        assert d in Elems(g[order[k]]);
      }
    }
  }

  /** A valid plan, without any helper: nothing missing, twice, unknown or uncovered, and tasks that have an order. */
  lemma ValidPlanExactly(plan: Plan)
    ensures ValidPlan(plan) <==>
              && NothingMissing(plan) && NothingTwice(plan) && NothingUnknown(plan) && NothingUncovered(plan)
              && exists order :: OrdersTasks(plan, order)
  {
    hide FieldsPresent, NothingMissing, NothingTwice, RefersToRequirements, NothingUnknown, CoversRequirements,
      NothingUncovered, OrdersTasks, IsTopological;
    FieldsPresentExactly(plan);
    DistinctIdsExactly(plan);
    ReferencesExactly(plan);
    CoverageExactly(plan);
    if NoDup(TaskIds(plan)) {
      forall order
        ensures IsTopological(TaskGraph(plan.tasks), order) <==> OrdersTasks(plan, order)
      {
        TaskOrdersExactly(plan, order);
      }
    }
  }

  /** Tasks whose dependencies are all visited, without those visited already. */
  function Layer(plan: Plan, visited: set<Name>): set<Name> {
    (set t | t in plan.tasks && (forall d :: d in t.dependsOn ==> d in visited) :: t.id) - visited
  }

  lemma LayerIsReady(plan: Plan, visited: set<Name>)
    requires NoDup(TaskIds(plan))
    ensures forall n :: n in Layer(plan, visited) <==> IsReady(TaskGraph(plan.tasks), visited, n)
  {
    TaskIdsAreKeys(plan);
    var g := TaskGraph(plan.tasks);
    forall n | IsReady(g, visited, n)
      ensures n in Layer(plan, visited)
    {
      assert n in Elems(TaskIds(plan));
      var i :| 0 <= i < |plan.tasks| && TaskIds(plan)[i] == n;
      var t := plan.tasks[i];
      assert t in plan.tasks && g[t.id] == t.dependsOn;
      assert forall d :: d in t.dependsOn ==> d in Elems(g[n]);
    }
  }

  lemma LayerGrows(visited: set<Name>, ready: set<Name>, tasks: set<Name>)
    requires ready != {} && ready !! visited && ready <= tasks && visited <= tasks
    ensures |visited| < |visited + ready| && visited + ready <= tasks
  {
    assert |visited + ready| == |visited| + |ready|;
  }

  /** A layer of ready names can be appended in any sequence. */
  lemma {:induction false} AppendLayer(g: Graph, order: seq<Name>, ready: set<Name>) returns (longer: seq<Name>)
    requires IsPrefix(g, order)
    requires forall n :: n in ready ==> IsReady(g, Elems(order), n)
    ensures IsPrefix(g, longer) && Elems(longer) == Elems(order) + ready
    decreases ready
  {
    if ready == {} {
      longer := order;
    } else {
      var n :| n in ready;
      PrefixAppend(g, order, n);
      ElemsAppend(order, n);
      longer := AppendLayer(g, order + [n], ready - {n});
    }
  }

  /** The layering loop: it reaches every task exactly when a topological order exists. */
  method LayersReachAll(plan: Plan) returns (ok: bool)
    requires NoDup(TaskIds(plan))
    ensures ok <==> HasOrder(TaskGraph(plan.tasks))
  {
    TaskIdsAreKeys(plan);
    var tasks := set x | x in TaskIds(plan);
    ghost var g := TaskGraph(plan.tasks);
    assert tasks == Elems(TaskIds(plan));
    var visited: set<Name> := {};
    ghost var order: seq<Name> := [];
    while |visited| < |tasks|
      invariant visited <= tasks && Elems(order) == visited && IsPrefix(g, order)
      decreases |tasks| - |visited|
    {
      var ready := Layer(plan, visited);
      LayerIsReady(plan, visited);
      if ready == {} {
        assert visited != tasks;
        if HasOrder(g) { SomethingIsReady(g, visited); }
        return false;
      }
      order := AppendLayer(g, order, ready);
      LayerGrows(visited, ready, tasks);
      visited := visited + ready;
    }
    SubsetCard(visited, tasks);
    assert IsTopological(g, order);
    ok := true;
  }

  /** Every list of ids is free of duplicates: as many different ids as ids. */
  method AllDistinct(lists: seq<seq<Name>>) returns (distinct: bool)
    ensures distinct <==> forall i :: 0 <= i < |lists| ==> NoDup(lists[i])
  {
    for i := 0 to |lists|
      invariant forall j :: 0 <= j < i ==> NoDup(lists[j])
    {
      CardNoDup(lists[i]);
      if |lists[i]| != |set x | x in lists[i]| {
        if NoDup(lists[i]) { NoDupCard(lists[i]); }
        return false;
      }
    }
    distinct := true;
  }

  /**
   The validator: layer after layer of tasks whose dependencies are all visited. It accepts
   exactly the valid plans, so its loop decides the existence of a topological order.
   */
  method CompleteGraph(plan: Plan) returns (r: Result<Plan, PlanError>)
    requires FieldsPresent(plan)
    ensures r.Success? <==> ValidPlan(plan)
    ensures r.Success? ==> r.value == plan
    ensures r.Failure? ==>
              match r.error
              case DuplicateIds => !DistinctIds(plan)
              case UnknownRequirement => DistinctIds(plan) && !RefersToRequirements(plan)
              case Uncovered => DistinctIds(plan) && RefersToRequirements(plan) && !CoversRequirements(plan)
              case CycleOrUnknownTask =>
                && DistinctIds(plan) && RefersToRequirements(plan) && CoversRequirements(plan)
                && !HasOrder(TaskGraph(plan.tasks))
  {
    var lists := [RequirementIds(plan), TaskIds(plan), CheckIds(plan)];
    var distinct := AllDistinct(lists);
    assert distinct <==> NoDup(lists[0]) && NoDup(lists[1]) && NoDup(lists[2]);
    if !distinct {
      return Failure(DuplicateIds);
    }
    if !RefersToRequirements(plan) {
      return Failure(UnknownRequirement);
    }
    if !CoversRequirements(plan) {
      return Failure(Uncovered);
    }
    var ordered := LayersReachAll(plan);
    if !ordered {
      return Failure(CycleOrUnknownTask);
    }
    r := Success(plan);
  }

  /** The scheduler's choice: the first task in plan order that is open and not blocked. */
  predicate Runnable(t: Task, completed: seq<Name>) {
    t.id !in completed && forall d :: d in t.dependsOn ==> d in completed
  }

  ghost predicate NoneRunnable(tasks: seq<Task>, completed: seq<Name>) {
    forall t :: t in tasks ==> !Runnable(t, completed)
  }

  method NextTask(plan: Plan, completed: seq<Name>) returns (task: Option<Task>)
    ensures task.Some? ==> task.value in plan.tasks && Runnable(task.value, completed)
    ensures task.Some? ==>
              exists k :: 0 <= k < |plan.tasks| && plan.tasks[k] == task.value
                && NoneRunnable(plan.tasks[..k], completed)
    ensures task.None? <==> forall t :: t in plan.tasks ==> !Runnable(t, completed)
  {
    for i := 0 to |plan.tasks|
      invariant forall j :: 0 <= j < i ==> !Runnable(plan.tasks[j], completed)
    {
      if Runnable(plan.tasks[i], completed) {
        return Some(plan.tasks[i]);
      }
    }
    task := None;
  }

  /** The scheduler never deadlocks: no runnable task means every task is completed. */
  lemma SchedulerNeverDeadlocks(plan: Plan, completed: seq<Name>)
    requires ValidPlan(plan)
    requires forall t :: t in plan.tasks ==> !Runnable(t, completed)
    ensures Elems(TaskIds(plan)) <= Elems(completed)
  {
    var g := TaskGraph(plan.tasks);
    TaskIdsAreKeys(plan);
    if !(g.Keys <= Elems(completed)) {
      SomethingIsReady(g, Elems(completed));
      var n :| IsReady(g, Elems(completed), n);
      assert n in Elems(TaskIds(plan));
      var i :| 0 <= i < |plan.tasks| && TaskIds(plan)[i] == n;
      assert plan.tasks[i] in plan.tasks;
      forall d | d in plan.tasks[i].dependsOn
        ensures d in completed
      {
        assert d in Elems(g[n]);
      }
    }
  }

  /** Running a runnable task extends the completed list to a longer topological prefix. */
  lemma CompletingExtendsPrefix(plan: Plan, completed: seq<Name>, t: Task)
    requires ValidPlan(plan) && IsPrefix(TaskGraph(plan.tasks), completed)
    requires t in plan.tasks && Runnable(t, completed)
    ensures IsPrefix(TaskGraph(plan.tasks), completed + [t.id])
  {
    TaskIdsAreKeys(plan);
    PrefixAppend(TaskGraph(plan.tasks), completed, t.id);
  }

  // ----- Evidence, review and judgement

  datatype Evidence = Evidence(checkId: Name, requirementIds: seq<Name>, argv: seq<string>, exitCode: int,
                               passed: bool, commit: Commit)
  datatype Review = Review(passed: bool, findings: seq<string>)
  datatype Verdict = Verdict(requirementId: Name, passed: bool, reason: string)
  datatype Judge = Judge(passed: bool, findings: seq<string>, verdicts: seq<Verdict>, commit: Commit)

  /** The fields that a judgement must have. */
  predicate VerdictsPresent(judge: Judge) {
    judge.verdicts != [] && forall v :: v in judge.verdicts ==> v.requirementId.text != "" && v.reason != ""
  }

  /** The judgement passes, is about this commit, and has one passing verdict for each requirement. */
  predicate JudgeReady(plan: Plan, judge: Judge, commit: Commit) {
    && judge.passed && judge.findings == [] && judge.commit == commit
    && VerdictsPresent(judge)
    && (forall i, j :: 0 <= i < j < |judge.verdicts| ==>
          judge.verdicts[i].requirementId != judge.verdicts[j].requirementId)
    && (forall v :: v in judge.verdicts ==> v.requirementId in RequirementIds(plan) && v.passed)
    && (forall r :: r in RequirementIds(plan) ==> exists v :: v in judge.verdicts && v.requirementId == r)
  }

  predicate Assessed(judge: Judge, r: Name) {
    exists v :: v in judge.verdicts && v.requirementId == r
  }

  function NotAssessed(requirements: seq<Requirement>, judge: Judge): seq<string> {
    if requirements == [] then []
    else
      var gap := "Judge did not assess requirement " + requirements[0].id.text;
      (if Assessed(judge, requirements[0].id) then [] else [gap]) + NotAssessed(requirements[1..], judge)
  }

  function Refusals(verdicts: seq<Verdict>): seq<string> {
    if verdicts == [] then []
    else
      var refusal := verdicts[0].requirementId.text + ": " + verdicts[0].reason;
      (if verdicts[0].passed then [] else [refusal]) + Refusals(verdicts[1..])
  }

  /** What a failed judgement asks the repair to do. */
  function JudgeFindings(plan: Plan, judge: Judge): seq<string> {
    judge.findings + NotAssessed(plan.requirements, judge) + Refusals(judge.verdicts)
  }

  lemma {:induction false} NotAssessedNames(requirements: seq<Requirement>, judge: Judge)
    ensures NotAssessed(requirements, judge) == [] <==> forall q :: q in requirements ==> Assessed(judge, q.id)
  {
    if requirements != [] {
      NotAssessedNames(requirements[1..], judge);
      assert requirements == [requirements[0]] + requirements[1..];
    }
  }

  lemma {:induction false} RefusalsName(verdicts: seq<Verdict>)
    ensures Refusals(verdicts) == [] <==> forall v :: v in verdicts ==> v.passed
  {
    if verdicts != [] {
      RefusalsName(verdicts[1..]);
      assert verdicts == [verdicts[0]] + verdicts[1..];
    }
  }

  lemma {:induction false} NotAssessedAre(requirements: seq<Requirement>, judge: Judge)
    ensures forall f :: f in NotAssessed(requirements, judge) <==>
              exists q :: q in requirements && f == "Judge did not assess requirement " + q.id.text
                && forall v :: v in judge.verdicts ==> v.requirementId != q.id
  {
    if requirements != [] {
      NotAssessedAre(requirements[1..], judge);
      assert requirements == [requirements[0]] + requirements[1..];
    }
  }

  lemma {:induction false} RefusalsAre(verdicts: seq<Verdict>)
    ensures forall f :: f in Refusals(verdicts) <==>
              exists v :: v in verdicts && !v.passed && f == v.requirementId.text + ": " + v.reason
  {
    if verdicts != [] {
      RefusalsAre(verdicts[1..]);
      assert verdicts == [verdicts[0]] + verdicts[1..];
    }
  }

  /** What repair is told: the judge's own findings, the requirements left out, and the reasons of each refusal. */
  lemma FindingsAre(plan: Plan, judge: Judge, f: string)
    ensures f in JudgeFindings(plan, judge) <==>
              || f in judge.findings
              || (exists q :: q in plan.requirements && f == "Judge did not assess requirement " + q.id.text
                    && forall v :: v in judge.verdicts ==> v.requirementId != q.id)
              || (exists v :: v in judge.verdicts && !v.passed && f == v.requirementId.text + ": " + v.reason)
  {
    NotAssessedAre(plan.requirements, judge);
    RefusalsAre(judge.verdicts);
  }

  /**
   A judgement that is not ready and still names no gap is inconsistent in itself: it says it did
   not pass, is about another commit, or has a verdict too many. Only then is the fallback used.
   */
  lemma NoFindingsMeansInconsistent(plan: Plan, judge: Judge, commit: Commit)
    requires VerdictsPresent(judge)
    ensures !JudgeReady(plan, judge, commit) && JudgeFindings(plan, judge) == [] <==>
              && judge.findings == [] && (forall r :: r in RequirementIds(plan) ==> Assessed(judge, r))
              && (forall v :: v in judge.verdicts ==> v.passed)
              && (!judge.passed || judge.commit != commit
                  || (exists v :: v in judge.verdicts && v.requirementId !in RequirementIds(plan))
                  || (exists i, j :: 0 <= i < j < |judge.verdicts|
                        && judge.verdicts[i].requirementId == judge.verdicts[j].requirementId))
  {
    NotAssessedNames(plan.requirements, judge);
    RefusalsName(judge.verdicts);
    forall q | q in plan.requirements
      ensures q.id in RequirementIds(plan)
    {
      var i :| 0 <= i < |plan.requirements| && plan.requirements[i] == q;
      assert RequirementIds(plan)[i] == q.id;
    }
  }

  /** The dictionary keyed by check id: a later entry replaces an earlier one. */
  function EvidenceFor(evidence: seq<Evidence>, id: Name): Option<Evidence> {
    if evidence == [] then None
    else if evidence[|evidence| - 1].checkId == id then Some(evidence[|evidence| - 1])
    else EvidenceFor(evidence[..|evidence| - 1], id)
  }

  predicate SameSet(a: seq<Name>, b: seq<Name>) {
    (forall x :: x in a ==> x in b) && (forall x :: x in b ==> x in a)
  }

  /** This entry shows that this check passed, unchanged, at this commit. */
  predicate Proves(e: Evidence, c: Check, commit: Commit) {
    && e.checkId == c.id && e.passed && e.exitCode == 0 && e.commit == commit && e.argv == c.argv
    && SameSet(e.requirementIds, c.requirementIds)
  }

  /** Tasks, evidence, review and judgement together certify the plan at one commit. */
  predicate CompletionReady(plan: Plan, completed: seq<Name>, evidence: seq<Evidence>, commit: Commit,
                            reviewPassed: bool, judge: Option<Judge>)
  {
    && commit.id != "" && reviewPassed
    && judge.Some? && JudgeReady(plan, judge.value, commit)
    && SameSet(completed, TaskIds(plan))
    && forall c :: c in plan.checks ==>
         var e := EvidenceFor(evidence, c.id); e.Some? && Proves(e.value, c, commit)
  }

  /** Entry i is the last one for this check. */
  ghost predicate LastFor(evidence: seq<Evidence>, id: Name, i: nat) {
    && i < |evidence| && evidence[i].checkId == id
    && forall j :: i < j < |evidence| ==> evidence[j].checkId != id
  }

  lemma {:induction false} EvidenceForIsTheLast(evidence: seq<Evidence>, id: Name, i: nat)
    requires LastFor(evidence, id, i)
    ensures EvidenceFor(evidence, id) == Some(evidence[i])
  {
    if i < |evidence| - 1 {
      EvidenceForIsTheLast(evidence[..|evidence| - 1], id, i);
    }
  }

  lemma {:induction false} EvidenceForHasALast(evidence: seq<Evidence>, id: Name) returns (i: nat)
    requires EvidenceFor(evidence, id).Some?
    ensures LastFor(evidence, id, i)
  {
    if evidence[|evidence| - 1].checkId == id {
      i := |evidence| - 1;
    } else {
      i := EvidenceForHasALast(evidence[..|evidence| - 1], id);
    }
  }

  /** The last entry for a check shows exit code 0 at this commit, of the very command and requirements of the check. */
  ghost predicate ShownBy(evidence: seq<Evidence>, c: Check, commit: Commit, i: nat) {
    && LastFor(evidence, c.id, i)
    && evidence[i].passed && evidence[i].exitCode == 0 && evidence[i].commit == commit && evidence[i].argv == c.argv
    && forall r :: r in evidence[i].requirementIds <==> r in c.requirementIds
  }

  /** The judgement passes without findings at this commit, and gives every requirement its one passing verdict. */
  ghost predicate Acquits(plan: Plan, judge: Judge, commit: Commit) {
    && judge.passed && judge.findings == [] && judge.commit == commit
    && judge.verdicts != []
    && (forall v :: v in judge.verdicts ==>
          v.passed && v.reason != "" && v.requirementId.text != ""
          && IsRequirement(plan, v.requirementId))
    && (forall i, j :: 0 <= i < j < |judge.verdicts| ==>
          judge.verdicts[i].requirementId != judge.verdicts[j].requirementId)
    && (forall q :: q in plan.requirements ==> exists v :: v in judge.verdicts && v.requirementId == q.id)
  }

  lemma JudgeReadyExactly(plan: Plan, judge: Judge, commit: Commit)
    ensures JudgeReady(plan, judge, commit) <==> Acquits(plan, judge, commit)
  {
    IdsByIndex(plan);
    forall q | q in plan.requirements
      ensures q.id in RequirementIds(plan)
    {
      assert IsRequirement(plan, q.id);
    }
  }

  lemma EvidenceShows(evidence: seq<Evidence>, c: Check, commit: Commit)
    ensures (exists i :: ShownBy(evidence, c, commit, i)) <==>
              EvidenceFor(evidence, c.id).Some? && Proves(EvidenceFor(evidence, c.id).value, c, commit)
  {
    if i: nat :| ShownBy(evidence, c, commit, i) {
      EvidenceForIsTheLast(evidence, c.id, i);
    } else if EvidenceFor(evidence, c.id).Some? && Proves(EvidenceFor(evidence, c.id).value, c, commit) {
      var i := EvidenceForHasALast(evidence, c.id);
      EvidenceForIsTheLast(evidence, c.id, i);
      assert ShownBy(evidence, c, commit, i);
    }
  }

  /** The completion predicate, without its helpers. */
  lemma CompletionReadyExactly(plan: Plan, completed: seq<Name>, evidence: seq<Evidence>, commit: Commit,
                               reviewPassed: bool, judge: Option<Judge>)
    ensures CompletionReady(plan, completed, evidence, commit, reviewPassed, judge) <==>
              && commit.id != "" && reviewPassed && judge.Some? && Acquits(plan, judge.value, commit)
              && (forall n :: n in completed <==> IsTask(plan, n))
              && (forall c :: c in plan.checks ==> exists i :: ShownBy(evidence, c, commit, i))
  {
    hide JudgeReady, Acquits, ShownBy, EvidenceFor, Proves;
    IdsByIndex(plan);
    if judge.Some? { JudgeReadyExactly(plan, judge.value, commit); }
    forall c | c in plan.checks
      ensures (exists i :: ShownBy(evidence, c, commit, i)) <==>
                EvidenceFor(evidence, c.id).Some? && Proves(EvidenceFor(evidence, c.id).value, c, commit)
    {
      EvidenceShows(evidence, c, commit);
    }
  }

  lemma {:induction false} EvidenceForIsRecorded(evidence: seq<Evidence>, id: Name)
    ensures EvidenceFor(evidence, id).Some? ==> EvidenceFor(evidence, id).value in evidence
  {
    if evidence != [] {
      EvidenceForIsRecorded(evidence[..|evidence| - 1], id);
    }
  }

  ghost predicate IsOnlyVerdict(judge: Judge, k: nat, r: Name)
    requires k < |judge.verdicts|
  {
    forall j :: 0 <= j < |judge.verdicts| ==> (judge.verdicts[j].requirementId == r <==> j == k)
  }

  /** One requirement, fully accounted for at one commit. */
  ghost predicate Accounted(plan: Plan, completed: seq<Name>, evidence: seq<Evidence>, judge: Judge, commit: Commit,
                            r: Name)
  {
    && (exists t :: t in plan.tasks && r in t.requirementIds && t.id in completed)
    && (exists c, e :: c in plan.checks && r in c.requirementIds && e in evidence && Proves(e, c, commit))
    && (exists k :: 0 <= k < |judge.verdicts| && IsOnlyVerdict(judge, k, r) && judge.verdicts[k].passed)
    && judge.commit == commit
  }

  /**
   What completion certifies: every requirement has a completed task, a check with the frozen
   argv that exited 0 at the delivered commit, and exactly one verdict, a passing one, there.
   */
  lemma CompletionAccountsForEverything(plan: Plan, completed: seq<Name>, evidence: seq<Evidence>, commit: Commit,
                                        reviewPassed: bool, judge: Option<Judge>)
    requires ValidPlan(plan)
    requires CompletionReady(plan, completed, evidence, commit, reviewPassed, judge)
    ensures forall r :: r in RequirementIds(plan) ==> Accounted(plan, completed, evidence, judge.value, commit, r)
  {
    forall r | r in RequirementIds(plan)
      ensures Accounted(plan, completed, evidence, judge.value, commit, r)
    {
      var t :| t in plan.tasks && r in t.requirementIds;
      var i :| 0 <= i < |plan.tasks| && plan.tasks[i] == t;
      assert TaskIds(plan)[i] == t.id;
      var c :| c in plan.checks && r in c.requirementIds;
      EvidenceForIsRecorded(evidence, c.id);
      assert EvidenceFor(evidence, c.id).value in evidence;
      var v :| v in judge.value.verdicts && v.requirementId == r;
      var k :| 0 <= k < |judge.value.verdicts| && judge.value.verdicts[k] == v;
      assert IsOnlyVerdict(judge.value, k, r);
    }
  }
}
