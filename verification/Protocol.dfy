/**
 The whole protocol of one run as a transition system. Every action is one atomic SQL statement,
 one workflow step, one signal, or one effect outside the database; any interleaving of the API,
 the reconciler, the workflow and the ticks is a sequence of actions. Each action carries the
 choices made by the outside world.
 */
module Protocol {
  import opened Prelude
  import opened Plans
  import opened Rows
  import opened Phases

  // ----- State

  /** The tick holding the repository lock, between two of its atomic steps. */
  datatype Worker =
    | Idle
    | Starting
    | Halting(cmd: Control, version: nat, mem: Snapshot, stopped: bool)
    | Resuming(version: nat, mem: Snapshot, max: nat, resumed: bool)
    | Owned(o: OwnedTick)
    | Finishing(result: Status, consume: Control, version: nat)
    | Done(result: Status)

  /** ProjectWorkflow: at the head of its loop, waiting for an activity, or blocked on a signal. */
  datatype Flow =
    | NotStarted
    | AtLoop(tick: nat)
    | InTick(tick: nat)
    | BlockedOnSignal(tick: nat)
    | Returned
    | Aborted(canceled: bool)

  /** A pull request for the run branch, found or created after its head was pushed. */
  datatype Request = Request(head: Commit, url: string)

  /** A push of the run branch: where to, which commit, and the state that allowed it. */
  datatype Push = Push(target: Target, head: Commit, state: Snapshot)

  /**
   `attached`: the workflow waits for the result of the current tick (otherwise it is a leftover
   of an earlier activity attempt). `loaded`: the command version that tick saw when it loaded the
   row; `drained`: the newest version when the workflow last emptied its signal queue. `owed`: per
   version how many parties have still to send its wake signal; `delivered`: versions whose signal has
   been delivered. `launches`, `pushes`, `activeTicks` count effects; `published` has the commits
   whose push was seen to succeed, `requests` the pull requests seen after that, `checkRuns` the check
   processes that have exited. `disciplined` says whether read-only agents and acceptance commands leave
   HEAD and the worktree alone.
   */
  datatype World = World(
    row: Row,
    repo: Repo,
    worker: Worker,
    attached: bool,
    loaded: nat,
    flow: Flow,
    drained: nat,
    queue: nat,
    owed: multiset<nat>,
    delivered: set<nat>,
    launches: nat,
    pushes: seq<Push>,
    published: set<Commit>,
    requests: set<Request>,
    checkRuns: set<CheckRun>,
    activeTicks: nat,
    disciplined: bool)

  ghost predicate Initial(w: World) {
    && w.row.status.Queued? && w.row.snap == EMPTY_SNAPSHOT && w.row.control.NoControl? && w.row.version == 0
    && w.repo.head.id != ""
    && w.worker.Idle? && !w.attached && w.loaded == 0
    && w.flow.NotStarted? && w.drained == 0 && w.queue == 0 && w.owed == multiset{} && w.delivered == {}
    && w.launches == 0 && w.pushes == [] && w.published == {} && w.requests == {} && w.checkRuns == {}
    && w.activeTicks == 0
  }

  /** The API and the reconciler. */
  datatype ApiAction =
    | AcceptCommand(cmd: Command)
    | SendSignal(version: nat)
    | LoseSignal(version: nat)
    | NoticeCommand
    | StartFlow
    | EndRun(why: string)

  /** ProjectWorkflow. */
  datatype FlowAction =
    | Drain
    | ContinueAsNew
    | Receive
    | TakeResult
    | Contention
    | AbortFlow(canceled: bool)

  /** Activity attempts: one at a time holds the repository lock. */
  datatype AttemptAction =
    | Acquire(attach: bool)
    | Detach
    | Leave
    | Crash

  /** The tick around its phase: loading the row, and the commands it acknowledges. */
  datatype TurnAction =
    | LoadRow
    | HaltSave(why: string)
    | HaltConsume
    | ResumeSave
    | ResumeConsume
    | EndConsume

  /** The tick inside its phase, with its effects outside the database. */
  datatype PhaseAction =
    | PollLoad(limit: bool)
    | PollSave(s: Snapshot, st: Status)
    | EndSave(s: Snapshot, st: Status, why: string)
    | Launch
    | EditRepo(repo: Repo)
    | CommitAll(head: Commit)
    | PushBranch(head: Commit)
    | PushAccepted
    | PullRequestSeen(url: string)
    | CheckExited(argv: seq<string>, exitCode: int)
    | CancelSave(s: Snapshot, st: Status, why: string)

  datatype Action =
    | Api(api: ApiAction)
    | Workflow(flow: FlowAction)
    | Attempt(attempt: AttemptAction)
    | Turn(turn: TurnAction)
    | InPhase(inner: PhaseAction)

  predicate IsRunning(f: Flow) { f.AtLoop? || f.InTick? || f.BlockedOnSignal? }

  // ----- What the tick decides from the row it loaded

  function Begin(mem: Snapshot, max: nat, version: nat): OwnedTick {
    OwnedTick(mem, max, version, false, None, false, false, false, None, None, "", None, {}, Fuel(mem, max))
  }

  function Decide(r: Row): Worker {
    if Terminal(r.status) then Done(r.status)
    else if r.control.Pause? || r.control.Cancel? then Halting(r.control, r.version, r.snap, false)
    else if r.control.Resume? then Resuming(r.version, ResumeEdit(r.snap, r.clarification), r.maxAttempts, false)
    else if Waiting(r.status) then Done(r.status)
    else Owned(Begin(r.snap, r.maxAttempts, r.version))
  }

  function HaltStatus(cmd: Control): Status {
    if cmd.Pause? then Paused else Canceled
  }

  /** The load half of `poll`: stop, or go on to save. */
  function Polled(o: OwnedTick, r: Row, limit: bool): OwnedTick {
    if r.status.Canceled? || r.status.Failed? then o.(raised := Some(ByCancel))
    else if r.control.Pause? then o.(raised := Some(ByPause), version := r.version)
    else if r.control.Cancel? then o.(raised := Some(ByCancel), version := r.version)
    else if limit then o.(raised := Some(ByLimit))
    else o.(checked := true)
  }

  /** The command the end of the tick acknowledges: the one that interrupted it, if any. */
  function Consumed(raised: Option<Interruption>): Control {
    if raised == Some(ByPause) then Pause else if raised == Some(ByCancel) then Cancel else NoControl
  }

  /** The first save inside verification's loop: nothing recorded yet, head checkpointed, tree clean. */
  predicate Seals(o: OwnedTick, s: Snapshot, repo: Repo) {
    o.mem.phase.Verify? && s.evidence == [] && s.headCommit == repo.head && repo.clean
  }

  predicate MayEdit(w: World, o: OwnedTick) {
    !w.disciplined || (o.launched && Coding(o.mem.phase))
  }

  // ----- Steps

  /** An interrupted tick ends with the status of its interruption; no other tick stops for the user. */
  predicate EndStatus(o: OwnedTick, st: Status) {
    match o.raised
    case Some(i) => st == StatusOf(i)
    case None => !st.Paused? && !st.Canceled? && !st.Queued?
  }

  // The API and the reconciler

  predicate ApiPossible(w: World, a: ApiAction) {
    match a
    case AcceptCommand(cmd) => Accepts(w.row, cmd)
    case SendSignal(v) => v in w.owed && IsRunning(w.flow)
    case LoseSignal(v) => v in w.owed
    case NoticeCommand => !Terminal(w.row.status) && !w.row.control.NoControl?
    case StartFlow => w.flow.NotStarted?
    case EndRun(_) => w.flow.Returned? || w.flow.Aborted?
  }

  function ApiEffect(w: World, a: ApiAction): World
    requires ApiPossible(w, a)
  {
    match a
    case AcceptCommand(cmd) => w.(row := ControlRow(w.row, cmd), owed := w.owed + multiset{w.row.version + 1})
    case SendSignal(v) => w.(queue := w.queue + 1, owed := w.owed - multiset{v}, delivered := w.delivered + {v})
    case LoseSignal(v) => w.(owed := w.owed - multiset{v})
    case NoticeCommand => w.(owed := w.owed + multiset{w.row.version})
    case StartFlow => w.(flow := AtLoop(0))
    case EndRun(why) => w.(row := EndRow(w.row, if w.flow.Aborted? && w.flow.canceled then Canceled else Failed, why))
  }

  // The workflow

  predicate FlowPossible(w: World, a: FlowAction) {
    match a
    case Drain => w.flow.AtLoop? && w.flow.tick < 100
    case ContinueAsNew => w.flow.AtLoop? && w.flow.tick >= 100
    case Receive => w.flow.BlockedOnSignal? && w.queue > 0
    case TakeResult => w.flow.InTick? && w.attached && w.worker.Done?
    case Contention => w.flow.InTick? && !w.attached
    case AbortFlow(_) => IsRunning(w.flow)
  }

  /** ProjectWorkflow's switch on the result of a tick. */
  function NextFlow(tick: nat, result: Status): Flow {
    if Terminal(result) then Returned
    else if Waiting(result) then BlockedOnSignal(tick)
    else AtLoop(tick + 1)
  }

  function FlowEffect(w: World, a: FlowAction): World
    requires FlowPossible(w, a)
  {
    match a
    case Drain => w.(flow := InTick(w.flow.tick), queue := 0, drained := w.row.version)
    case ContinueAsNew => w.(flow := AtLoop(0), queue := 0)
    case Receive => w.(flow := AtLoop(w.flow.tick + 1), queue := w.queue - 1)
    case TakeResult => w.(worker := Idle, attached := false, flow := NextFlow(w.flow.tick, w.worker.result))
    case Contention => w.(flow := AtLoop(w.flow.tick + 1))
    case AbortFlow(canceled) => w.(flow := Aborted(canceled), attached := false)
  }

  // Activity attempts

  predicate AttemptPossible(w: World, a: AttemptAction) {
    match a
    case Acquire(attach) => w.worker.Idle? && if attach then w.flow.InTick? else !w.flow.NotStarted?
    case Detach => w.attached
    case Leave => !w.attached && w.worker.Done?
    case Crash => !w.worker.Idle?
  }

  function AttemptEffect(w: World, a: AttemptAction): World
    requires AttemptPossible(w, a)
  {
    match a
    case Acquire(attach) => w.(worker := Starting, attached := attach)
    case Detach => w.(attached := false)
    case Leave => w.(worker := Idle)
    case Crash => w.(worker := Idle, attached := false)
  }

  // The tick around its phase

  predicate TurnPossible(w: World, a: TurnAction) {
    match a
    case LoadRow => w.worker.Starting?
    case HaltSave(_) => w.worker.Halting? && !w.worker.stopped
    case HaltConsume => w.worker.Halting? && w.worker.stopped
    case ResumeSave => w.worker.Resuming? && !w.worker.resumed
    case ResumeConsume => w.worker.Resuming? && w.worker.resumed
    case EndConsume => w.worker.Finishing?
  }

  function TurnEffect(w: World, a: TurnAction): World
    requires TurnPossible(w, a)
  {
    match a
    case LoadRow => w.(worker := Decide(w.row), loaded := w.row.version)
    case HaltSave(why) =>
      w.(row := SaveRow(w.row, w.worker.mem, HaltStatus(w.worker.cmd), why), worker := w.worker.(stopped := true))
    case HaltConsume =>
      w.(row := ConsumeRow(w.row, w.worker.cmd, w.worker.version), worker := Done(HaltStatus(w.worker.cmd)))
    case ResumeSave => w.(row := SaveRow(w.row, w.worker.mem, Running, ""), worker := w.worker.(resumed := true))
    case ResumeConsume =>
      w.(row := ConsumeRow(w.row, Resume, w.worker.version),
         worker := Owned(Begin(w.worker.mem, w.worker.max, w.worker.version)))
    case EndConsume =>
      w.(row := if w.worker.consume.NoControl? then w.row else ConsumeRow(w.row, w.worker.consume, w.worker.version),
         worker := Done(w.worker.result))
  }

  // The tick inside its phase

  predicate PhasePossible(w: World, a: PhaseAction) {
    && w.worker.Owned?
    && var o := w.worker.o;
       match a
       case PollLoad(_) => o.raised.None? && !o.checked
       case PollSave(_, st) => o.raised.None? && o.checked && WorkingStatus(st)
       case EndSave(_, st, _) => EndStatus(o, st)
       case Launch => o.raised.None? && o.charged && !o.launched && Coding(o.mem.phase)
       case EditRepo(repo) => MayEdit(w, o) && repo.head.id != ""
       case CommitAll(head) => !w.repo.clean && head.id != ""
       case PushBranch(_) => o.raised.None? && o.mem.phase.Deliver? && w.row.requestPr && o.mem.target.Some?
       case PushAccepted => o.raised.None? && o.pushing.Some?
       case PullRequestSeen(_) => o.raised.None? && o.published.Some?
       case CheckExited(_, _) => o.raised.None? && o.mem.phase.Verify? && o.sealed
       case CancelSave(_, st, _) => CutStatus(st)
  }

  /** A requested publication: its pull request seen in this tick, or recorded by an earlier one. */
  ghost predicate Delivers(o: OwnedTick, s: Snapshot) {
    o.seen == Some(s.prUrl) || (o.mem.prUrl != "" && s.prUrl == o.mem.prUrl)
  }

  /** What a tick may save and publish. */
  ghost predicate Permitted(w: World, a: PhaseAction)
    requires PhasePossible(w, a)
  {
    match a
    case PollSave(s, _) => MidSave(w.worker.o, s, w.repo)
    case EndSave(s, st, _) =>
      FinalSave(w.worker.o, s, st, w.repo) && (st.Completed? && w.row.requestPr ==> Delivers(w.worker.o, s))
    case CancelSave(s, _, _) => Partial(w.worker.o, s, w.repo)
    case PushBranch(head) => ReadyAt(w.worker.o.mem, head)
    case _ => true
  }

  function AfterPoll(o: OwnedTick, s: Snapshot, repo: Repo): OwnedTick {
    o.(mem := s, checked := false, charged := o.charged || s.attempts > o.mem.attempts,
       before := if s.attempts > o.mem.attempts then repo.head.tree else o.before,
       sealed := o.sealed || Seals(o, s, repo))
  }

  function PhaseEffect(w: World, a: PhaseAction): World
    requires PhasePossible(w, a)
  {
    var o := w.worker.o;
    match a
    case PollLoad(limit) => w.(worker := Owned(Polled(o, w.row, limit)))
    case PollSave(s, st) => w.(row := SaveRow(w.row, s, st, ""), worker := Owned(AfterPoll(o, s, w.repo)))
    case EndSave(s, st, why) =>
      var row := SaveRow(w.row, s, st, why);
      w.(row := row, worker := Finishing(row.status, Consumed(o.raised), o.version),
         activeTicks := w.activeTicks + if Active(row.status) then 1 else 0)
    case Launch => w.(worker := Owned(o.(launched := true)), launches := w.launches + 1)
    case EditRepo(repo) => w.(repo := repo)
    case CommitAll(head) => w.(repo := Repo(head, true))
    case PushBranch(head) =>
      w.(pushes := w.pushes + [Push(o.mem.target.value, head, o.mem)], worker := Owned(o.(pushing := Some(head))))
    case PushAccepted => w.(published := w.published + {o.pushing.value}, worker := Owned(o.(published := o.pushing)))
    case PullRequestSeen(url) =>
      w.(requests := w.requests + {Request(o.published.value, url)}, worker := Owned(o.(seen := Some(url))))
    case CheckExited(argv, exitCode) =>
      var r := CheckRun(argv, o.mem.headCommit, exitCode, w.repo.head);
      w.(checkRuns := w.checkRuns + {r}, worker := Owned(o.(exited := o.exited + {r})))
    case CancelSave(s, st, why) => w.(row := SaveRow(w.row, s, st, why), worker := Idle, attached := false)
  }

  // ----- All steps

  ghost predicate Enabled(w: World, a: Action) {
    match a
    case Api(x) => ApiPossible(w, x)
    case Workflow(x) => FlowPossible(w, x)
    case Attempt(x) => AttemptPossible(w, x)
    case Turn(x) => TurnPossible(w, x)
    case InPhase(x) => PhasePossible(w, x) && Permitted(w, x)
  }

  function Effect(w: World, a: Action): World
    requires Enabled(w, a)
  {
    match a
    case Api(x) => ApiEffect(w, x)
    case Workflow(x) => FlowEffect(w, x)
    case Attempt(x) => AttemptEffect(w, x)
    case Turn(x) => TurnEffect(w, x)
    case InPhase(x) => PhaseEffect(w, x)
  }

  predicate IsOutside(a: Action) {
    a.Api? || a.Workflow? || a.Attempt?
  }

  predicate WritesRow(a: Action) {
    a.Api? && (a.api.AcceptCommand? || a.api.EndRun?)
  }

  /** Outside the tick only an accepted command and the reconciler's repair write the row. */
  lemma OutsideStepRow(w: World, a: Action)
    requires Enabled(w, a) && IsOutside(a) && !WritesRow(a)
    ensures Effect(w, a).row == w.row
  {
    hide Permitted;
  }

  predicate OutsidePossible(w: World, a: Action) {
    match a
    case Api(x) => ApiPossible(w, x)
    case Workflow(x) => FlowPossible(w, x)
    case Attempt(x) => AttemptPossible(w, x)
    case _ => false
  }

  /** Everything outside the tick leaves snapshots and effects alone, and can only stop the tick or the run. */
  ghost predicate OutsideFrame(w: World, n: World) {
    && n.row.snap == w.row.snap && n.repo == w.repo && n.disciplined == w.disciplined
    && n.launches == w.launches && n.pushes == w.pushes && n.published == w.published
    && n.requests == w.requests && n.checkRuns == w.checkRuns && n.activeTicks == w.activeTicks
    && (n.worker == w.worker || n.worker.Idle? || n.worker.Starting?)
    && n.row.maxAttempts >= w.row.maxAttempts
    && (Terminal(n.row.status) || n.row.status == w.row.status)
    && (n.row.status.Completed? ==> w.row.status.Completed?)
  }

  lemma ApiStepFrame(w: World, a: ApiAction)
    requires ApiPossible(w, a)
    ensures OutsideFrame(w, ApiEffect(w, a))
  {
  }

  lemma FlowStepFrame(w: World, a: FlowAction)
    requires FlowPossible(w, a)
    ensures OutsideFrame(w, FlowEffect(w, a))
  {
  }

  lemma AttemptStepFrame(w: World, a: AttemptAction)
    requires AttemptPossible(w, a)
    ensures OutsideFrame(w, AttemptEffect(w, a))
  {
  }

  lemma OutsideStepFrame(w: World, a: Action)
    requires Enabled(w, a) && IsOutside(a)
    ensures OutsideFrame(w, Effect(w, a))
  {
    hide Permitted, FlowEffect, AttemptEffect, ApiEffect, OutsideFrame;
    match a
    case Api(x) => ApiStepFrame(w, x);
    case Workflow(x) => FlowStepFrame(w, x);
    case Attempt(x) => AttemptStepFrame(w, x);
    case _ =>
  }

  // ----- Runs

  /** A run of the protocol: states and the actions between them. */
  datatype Run = Run(states: seq<World>, actions: seq<Action>)

  ghost predicate StepAt(r: Run, i: nat)
    requires i < |r.actions| && i + 1 < |r.states|
  {
    Enabled(r.states[i], r.actions[i]) && r.states[i + 1] == Effect(r.states[i], r.actions[i])
  }

  ghost predicate IsPath(r: Run) {
    && |r.states| == |r.actions| + 1
    && forall i :: 0 <= i < |r.actions| ==> StepAt(r, i)
  }

  ghost predicate IsRun(r: Run) {
    IsPath(r) && Initial(r.states[0])
  }

  lemma ExtendPath(r: Run, a: Action)
    requires IsPath(r) && Enabled(r.states[|r.states| - 1], a)
    ensures IsPath(Run(r.states + [Effect(r.states[|r.states| - 1], a)], r.actions + [a]))
  {
    hide Effect, Enabled;
    var longer := Run(r.states + [Effect(r.states[|r.states| - 1], a)], r.actions + [a]);
    forall i | 0 <= i < |longer.actions|
      ensures StepAt(longer, i)
    {
      if i < |r.actions| { assert StepAt(r, i); }
    }
  }

  ghost function Last(r: Run): World
    requires r.states != []
  {
    r.states[|r.states| - 1]
  }

  /** Path n goes on from path r. */
  ghost predicate Extends(r: Run, n: Run) {
    r.states != [] && n.states != [] && IsPath(n) && r.states <= n.states && n.states[0] == r.states[0]
  }

  lemma Extend(r: Run, a: Action) returns (n: Run)
    requires r.states != [] && IsPath(r) && Enabled(Last(r), a)
    ensures Extends(r, n) && Last(n) == Effect(Last(r), a)
  {
    hide Effect, Enabled;
    ExtendPath(r, a);
    n := Run(r.states + [Effect(Last(r), a)], r.actions + [a]);
  }
}
