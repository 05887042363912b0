/**
 The tick as the worker runs it: an object that mutates the state dictionary phase by phase and
 saves it through the row's statements, while other writers act between any two statements and
 the process may die before any of them. Its ghost `run` records every atomic step; that `run`
 stays a path of the protocol is what carries the protocol's theorems over to this code.
 */
module Engine {
  import opened Prelude
  import opened Plans
  import opened Rows
  import opened Phases
  import opened Protocol
  import opened Outcomes
  import opened Endings

  class Engine {
    const db: RunRow
    const disciplined: bool
    /** Nobody else acts and nothing fails: the answers alone decide. */
    const calm: bool
    var repo: Repo
    var state: Snapshot
    var status: Status
    var world: World
    ghost var run: Run

    /** A freshly started run: a queued row, and a worktree to be created at `base`. */
    constructor (attempts: nat, seconds: nat, requestPr: bool, base: Commit, disciplined: bool, calm: bool)
      requires base.id != ""
      ensures Valid() && Initial(world) && IsRun(run)
      ensures fresh(db) && this.disciplined == disciplined && this.calm == calm && repo == Repo(base, true)
      ensures world.row.maxAttempts == attempts && db.requestPr == requestPr && run.states == [world]
    {
      var row := new RunRow(attempts, seconds, requestPr);
      db, this.disciplined, this.calm := row, disciplined, calm;
      repo, state, status := Repo(base, true), EMPTY_SNAPSHOT, Queued;
      var start := World(row.Value(), Repo(base, true), Idle, false, 0, NotStarted, 0, 0, multiset{}, {}, 0, [], {}, {},
                         {}, 0, disciplined);
      world, run := start, Run([start], []);
    }

    /** The recorded path ends in the present world. */
    ghost predicate Traced()
      reads this
    {
      IsPath(run) && run.states[|run.states| - 1] == world
    }

    ghost predicate Valid()
      reads this, db
    {
      && Traced() && world.row == db.Value() && world.repo == repo && world.disciplined == disciplined
      && repo.head.id != ""
    }

    /** The tick owns the run, and nothing has interrupted it. */
    ghost predicate Owning()
      reads this, db
    {
      Valid() && world.worker.Owned? && world.worker.o.raised.None? && !world.worker.o.checked
    }

    ghost function Mine(): OwnedTick
      reads this
      requires world.worker.Owned?
    {
      world.worker.o
    }

    method Record(a: Action)
      requires Traced() && Enabled(world, a)
      modifies this`world, this`run
      ensures Traced() && world == Effect(old(world), a)
      ensures old(run.states) <= run.states
    {
      ExtendPath(run, a);
      run := Run(run.states + [Effect(world, a)], run.actions + [a]);
      world := Effect(world, a);
    }

    /** Something outside may fail here. */
    method Fault() returns (fails: bool)
      ensures calm ==> !fails
    {
      fails := *;
      fails := fails && !calm;
    }

    /** One step of another party, through the row's own statements where it writes the row. */
    method OtherActs(a: Action)
      requires Valid() && OutsidePossible(world, a)
      modifies this`world, this`run, db
      ensures Valid() && world == Effect(old(world), a) && old(run.states) <= run.states
    {
      OutsideStepFrame(world, a);
      if !WritesRow(a) { OutsideStepRow(world, a); }
      hide Permitted, PhaseEffect, TurnEffect, AttemptEffect, FlowEffect, OutsideFrame;
      if a.Api? && a.api.AcceptCommand? {
        var accepted := db.ControlRun(a.api.cmd);
      } else if a.Api? && a.api.EndRun? {
        db.MarkEnded(world.flow.Aborted? && world.flow.canceled, a.api.why);
      }
      Record(a);
    }

    /** The other writers act: any number of commands, signals, reconciler passes and workflow steps. */
    method Interfere()
      requires Valid()
      modifies this`world, this`run, db
      ensures Valid() && world.worker == old(world.worker) && old(run.states) <= run.states
      ensures calm ==> world == old(world)
    {
      var steps: nat := *;
      if calm { return; }
      while steps > 0
        invariant Valid() && world.worker == old(world.worker) && old(run.states) <= run.states
      {
        var a: Action := *;
        if OutsidePossible(world, a) && Effect(world, a).worker == world.worker {
          OtherActs(a);
        }
        steps := steps - 1;
      }
    }

    /** Between two statements: others act, and the process may die. */
    method Await() returns (alive: bool)
      requires Valid() && !world.worker.Idle?
      modifies this`world, this`run, db
      ensures Valid() && old(run.states) <= run.states
      ensures if alive then world.worker == old(world.worker) else world.worker.Idle?
      ensures calm ==> alive && world == old(world)
    {
      hide IsPath, Enabled, Effect;
      Interfere();
      var dies := Fault();
      if dies {
        CrashStep(world);
        Record(Attempt(Crash));
      }
      alive := !dies;
    }

    // ----- poll

    /** What a poll saves must be a state the phase may stop in. */
    ghost predicate MaySave()
      reads this, db
    {
      Owning() && WorkingStatus(status) && MidSave(Mine(), state, repo)
    }

    /** The shape of the tick after an operation that stopped it or not. */
    ghost predicate After(stop: Option<Stop>)
      reads this, db
    {
      match stop
      case Some(Died) => Valid() && world.worker.Idle?
      case Some(Interrupted(why)) =>
        && Valid() && world.worker.Owned?
        && (Mine().raised == Some(why) || (Mine().raised.None? && why.ByLimit?))
      case Some(Raised(_)) => Valid() && world.worker.Owned? && Mine().raised.None?
      case None => Owning()
    }

    /** What an operation leaves behind unless the process died. */
    ghost predicate Resumable(stop: Option<Stop>)
      reads this, db
    {
      After(stop) && (stop != Some(Died) ==> MidSave(Mine(), state, repo))
    }

    /** The newest row decides whether the tick goes on. */
    method Observe() returns (stop: Option<Stop>)
      requires Owning()
      modifies this`world, this`run
      ensures old(run.states) <= run.states && db.Value() == old(db.Value())
      ensures stop.None? ==> Valid() && world.worker == Owned(old(Mine()).(checked := true))
      ensures stop.Some? ==> stop.value.Interrupted? && After(stop) && SameButStopped(old(Mine()), Mine())
      ensures db.status in {Canceled, Failed} ==> stop == Some(Interrupted(ByCancel))
      ensures db.status !in {Canceled, Failed} && db.control == Pause ==>
                stop == Some(Interrupted(ByPause)) && Mine().version == db.version
      ensures db.status !in {Canceled, Failed} && db.control == Cancel ==>
                stop == Some(Interrupted(ByCancel)) && Mine().version == db.version
      ensures db.status !in {Canceled, Failed} && db.control !in {Pause, Cancel} ==>
                stop.None? || stop == Some(Interrupted(ByLimit))
      ensures calm && AtPeace(old(world)) ==> stop.None? && world == old(world).(worker := world.worker)
    {
      hide IsPath, Enabled, Effect, Fuel;
      var current := db.Load();
      var limitReached := Fault();
      PollLoadStep(world, limitReached);
      Record(InPhase(PollLoad(limitReached)));
      if current.status.Canceled? || current.status.Failed? {
        return Some(Interrupted(ByCancel));
      }
      if current.control.Pause? {
        return Some(Interrupted(ByPause));
      }
      if current.control.Cancel? {
        return Some(Interrupted(ByCancel));
      }
      if limitReached {
        return Some(Interrupted(ByLimit));
      }
      stop := None;
    }

    /** The load half of a poll. */
    method PollRow() returns (stop: Option<Stop>)
      requires Owning()
      modifies this`world, this`run, db
      ensures old(run.states) <= run.states
      ensures stop.None? ==> Valid() && world.worker == Owned(old(Mine()).(checked := true))
      ensures stop.None? ==> db.status !in {Canceled, Failed} && db.control !in {Pause, Cancel}
      ensures stop.Some? ==> After(stop)
      ensures stop.Some? && !stop.value.Died? ==> SameButStopped(old(Mine()), Mine())
      ensures calm ==> Peaceful(old(world), world, stop)
    {
      hide IsPath, Enabled, Effect, Fuel;
      var alive := Await();
      if !alive { return Some(Died); }
      var broken := Fault();
      if broken { return Some(Raised("the database cannot be read")); }
      stop := Observe();
    }

    /** The statement that a poll saves the state with. */
    method WritePolled(ghost o: OwnedTick)
      requires Valid() && world.worker == Owned(o.(checked := true)) && o.raised.None?
      requires WorkingStatus(status) && MidSave(o, state, repo)
      modifies this`world, this`run, db
      ensures old(run.states) <= run.states && Valid()
      ensures world.worker == Owned(AfterPoll(o, state, repo)) && MidSave(AfterPoll(o, state, repo), state, repo)
      ensures Peaceful(old(world), world, None)
    {
      hide IsPath, Enabled, Effect, MidSave, Fuel, AfterPoll;
      PollSaveStep(world, o, state, status);
      var _ := db.Save(state, status, "");
      Record(InPhase(PollSave(state, status)));
    }

    /** The save half of a poll: it may raise before or after it has reached the row. */
    method SavePolled(ghost o: OwnedTick) returns (stop: Option<Stop>)
      requires Valid() && world.worker == Owned(o.(checked := true)) && o.raised.None? && !o.checked
      requires WorkingStatus(status) && MidSave(o, state, repo)
      modifies this`world, this`run, db
      ensures old(run.states) <= run.states && Resumable(stop)
      ensures stop.None? ==> Mine() == AfterPoll(o, state, repo)
      ensures calm ==> Peaceful(old(world), world, stop)
    {
      hide IsPath, Enabled, Effect, MidSave, Fuel, AfterPoll, AtPeace;
      var alive := Await();
      if !alive { return Some(Died); }
      var broken := Fault();
      if broken {
        MidSaveUnaffected(o, Mine(), state, repo);
        return Some(Raised("the database cannot be written"));
      }
      WritePolled(o);
      AfterPollOwns(o, state, repo);
      broken := Fault();
      stop := if broken then Some(Raised("the database has not answered")) else None;
    }

    /** `poll`: load, decide, save. */
    method Poll() returns (stop: Option<Stop>)
      requires MaySave()
      modifies this`world, this`run, db
      ensures old(run.states) <= run.states && Resumable(stop)
      ensures stop.None? ==> Mine() == AfterPoll(old(Mine()), state, repo)
      ensures calm ==> Peaceful(old(world), world, stop)
    {
      stop := PollRow();
      if stop.Some? {
        if !stop.value.Died? { MidSaveUnaffected(old(Mine()), Mine(), state, repo); }
        return;
      }
      stop := SavePolled(old(Mine()));
    }

    // ----- Processes and Git

    /** Nothing unsaved depends on a HEAD that may still move. */
    ghost predicate Settled()
      reads this, db
    {
      MaySave() && (state.headCommit == Mine().mem.headCommit || (repo.clean && repo.head == state.headCommit))
    }

    /** One edit of the worktree, if the process may make any. */
    method Work(writable: bool)
      requires MaySave() && Mine().mem == state && (writable ==> Coding(state.phase) && Mine().launched)
      modifies this`world, this`run, this`repo
      ensures MaySave() && Mine() == old(Mine()) && old(run.states) <= run.states
      ensures world == old(world).(repo := repo) && Peaceful(old(world), world, None)
      ensures disciplined && !writable ==> repo == old(repo)
      ensures calm ==> repo == Touched(old(repo), writable)
    {
      hide IsPath, Enabled, Effect, Fuel;
      var edited: Repo := *;
      if calm { edited := Touched(repo, writable); }
      if (writable || (!disciplined && !calm)) && edited.head.id != "" {
        EditStep(world, edited);
        Record(InPhase(EditRepo(edited)));
        repo := edited;
        MidSaveSelf(Mine(), repo);
      }
    }

    /** A poll while a process runs: it saves again what was saved before. */
    method PollAtWork() returns (stop: Option<Stop>)
      requires MaySave() && Mine().mem == state
      modifies this`world, this`run, db
      ensures old(run.states) <= run.states && Resumable(stop)
      ensures stop.None? ==> MaySave() && Mine().mem == state && Ran(old(Mine()), Mine())
    {
      hide IsPath, Effect, Enabled, MidHead, MidAttempts, MidEvidence, MidPublication, Fuel;
      stop := Poll();
      if stop.Some? { return; }
      MidSaveSelf(Mine(), repo);
    }

    /** The process at work: edits and polls in any number, then an exit of any kind. */
    method LetItRun(writable: bool) returns (stop: Option<Stop>)
      requires MaySave() && Mine().mem == state && (writable ==> Coding(state.phase) && Mine().launched)
      modifies this`world, this`run, this`repo, db
      ensures old(run.states) <= run.states && Resumable(stop)
      ensures stop.None? ==> MaySave() && Ran(old(Mine()), Mine())
      ensures disciplined && !writable ==> repo == old(repo)
      ensures calm ==> Peaceful(old(world), world, stop) && repo == Touched(old(repo), writable)
    {
      hide IsPath, Effect, Enabled, MidHead, MidAttempts, MidEvidence, MidPublication, Fuel;
      Work(writable);
      var rounds: nat := *;
      if calm { rounds := 0; }
      while rounds > 0
        invariant MaySave() && Mine().mem == state && Ran(old(Mine()), Mine()) && old(run.states) <= run.states
        invariant disciplined && !writable ==> repo == old(repo)
        invariant calm ==> rounds == 0 && repo == Touched(old(repo), writable) && Peaceful(old(world), world, None)
      {
        stop := PollAtWork();
        if stop.Some? { return; }
        Work(writable);
        rounds := rounds - 1;
      }
      var failed := Fault();
      stop := if failed then Some(Raised("the process failed")) else None;
    }

    /** A writable agent starts: its charge is in the row. */
    method StartWriter() returns (stop: Option<Stop>)
      requires MaySave() && Mine().mem == state && Coding(state.phase) && Mine().charged && !Mine().launched
      modifies this`world, this`run, db
      ensures old(run.states) <= run.states && Resumable(stop)
      ensures stop.None? ==> MaySave() && Mine() == old(Mine()).(launched := true)
      ensures calm ==> Peaceful(old(world), world, stop)
    {
      hide IsPath, Enabled, Effect, Fuel, MidHead, MidAttempts, MidEvidence, MidPublication;
      var alive := Await();
      if !alive { return Some(Died); }
      LaunchStep(world);
      Record(InPhase(Launch));
      MidSaveSelf(Mine(), repo);
      stop := None;
    }

    /** One agent or command process: it polls before it starts and while it runs. */
    method RunProcess(writable: bool) returns (stop: Option<Stop>)
      requires Settled()
      requires writable ==>
                 Coding(state.phase) && !Mine().launched && (Mine().charged || state.attempts > Mine().mem.attempts)
      modifies this`world, this`run, this`repo, db
      ensures old(run.states) <= run.states && Resumable(stop)
      ensures stop.None? ==>
                && Settled()
                && Ran(AfterPoll(old(Mine()), state, old(repo)).(launched := old(Mine()).launched || writable), Mine())
      ensures disciplined && !writable ==> repo == old(repo)
      ensures calm ==> Peaceful(old(world), world, stop) && (stop.None? ==> repo == Touched(old(repo), writable))
    {
      hide IsPath, Enabled, Effect, Fuel, MidHead, MidEvidence, MidPublication, AtPeace;
      var tooLate := Fault();
      if tooLate { return Some(Interrupted(ByLimit)); }
      stop := Poll();
      if stop.Some? { return; }
      MidSaveSelf(Mine(), repo);
      if writable {
        stop := StartWriter();
        if stop.Some? { return; }
      }
      stop := LetItRun(writable);
    }

    /** `checkpoint`: everything in the worktree is committed; HEAD is returned. */
    method Checkpoint(made: Commit) returns (stop: Option<Stop>, head: Commit)
      requires Settled()
      modifies this`world, this`run, this`repo, db
      ensures old(run.states) <= run.states && Resumable(stop)
      ensures stop.None? ==> Settled() && Mine() == old(Mine()) && head == repo.head
      ensures stop.None? ==> repo == if old(repo.clean) then old(repo) else Repo(made, true)
      ensures old(repo.clean) ==> repo == old(repo)
      ensures calm && (old(repo.clean) || made.id != "") ==> Peaceful(old(world), world, stop)
    {
      hide IsPath, Enabled, Effect, Fuel, FinalSave, Finished, Partial, MidAttempts, MidEvidence, MidPublication,
        ValidPlan, ReadyAt, CompletionReady;
      head := NO_COMMIT;
      var alive := Await();
      if !alive { return Some(Died), head; }
      if !repo.clean {
        if made.id == "" { return Some(Raised("git commit failed")), head; }
        CommitStep(world, made);
        Record(InPhase(CommitAll(made)));
        repo := Repo(made, true);
      }
      var failed := Fault();
      if failed { return Some(Raised("git rev-parse failed")), head; }
      return None, repo.head;
    }

    // ----- Agents

    /** Keeps the newest hundred attempts. */
    static function Newest(attempts: seq<AgentAttempt>): (r: seq<AgentAttempt>)
      ensures |attempts| <= 100 ==> r == attempts
      ensures |attempts| > 100 ==> |r| == 100 && r == attempts[|attempts| - 100..]
    {
      if |attempts| > 100 then attempts[|attempts| - 100..] else attempts
    }

    /** The attempts with one more, running, of the present phase. */
    static function Logged(s: Snapshot): seq<AgentAttempt> {
      Newest(s.agentAttempts + [AgentAttempt(s.phase, AttemptRunning)])
    }

    static function MarkLast(attempts: seq<AgentAttempt>, st: AttemptStatus): seq<AgentAttempt> {
      if attempts == [] then attempts else attempts[|attempts| - 1 := attempts[|attempts| - 1].(status := st)]
    }

    static predicate LastIs(attempts: seq<AgentAttempt>, phase: Phase, st: AttemptStatus) {
      attempts != [] && attempts[|attempts| - 1] == AgentAttempt(phase, st)
    }

    static predicate SomeRunning(attempts: seq<AgentAttempt>) {
      exists a :: a in attempts && a.status.AttemptRunning?
    }

    static function MarkInterrupted(attempts: seq<AgentAttempt>): seq<AgentAttempt> {
      seq(|attempts|, i requires 0 <= i < |attempts| =>
        if attempts[i].status.AttemptRunning? then attempts[i].(status := AttemptInterrupted) else attempts[i])
    }

    method LogAttempt()
      requires Settled()
      modifies this`state
      ensures Settled() && state == old(state).(agentAttempts := Logged(old(state)))
    {
      state := state.(agentAttempts := Logged(state));
      AttemptsAreFree(Mine(), old(state), repo, state.agentAttempts);
    }

    method CloseAttempt(st: AttemptStatus)
      requires world.worker.Owned? && MidSave(Mine(), state, repo)
      modifies this`state
      ensures MidSave(Mine(), state, repo)
      ensures state == old(state).(agentAttempts := MarkLast(old(state.agentAttempts), st))
    {
      hide MidHead, MidAttempts, MidEvidence, MidPublication;
      AttemptsAreFree(Mine(), state, repo, MarkLast(state.agentAttempts, st));
      state := state.(agentAttempts := MarkLast(state.agentAttempts, st));
    }

    /** The process of a logged attempt, whose entry then records how it ended. */
    method RunLogged(writable: bool, valid: bool) returns (stop: Option<Stop>)
      requires Settled()
      requires writable ==>
                 Coding(state.phase) && !Mine().launched && (Mine().charged || state.attempts > Mine().mem.attempts)
      modifies this`world, this`run, this`repo, this`state, db
      ensures old(run.states) <= run.states && Resumable(stop)
      ensures state == old(state).(agentAttempts := state.agentAttempts)
      ensures stop.None? ==>
                && Settled() && Asked(old(Mine()), Mine(), state, writable, old(repo.head.tree)) && valid
                && Mine().mem.agentAttempts == old(state.agentAttempts)
                && state.agentAttempts == MarkLast(old(state.agentAttempts), AttemptCompleted)
      ensures stop.Some? && stop != Some(Died) ==>
                state.agentAttempts == MarkLast(old(state.agentAttempts), AttemptInterrupted)
      ensures disciplined && !writable ==> repo == old(repo)
      ensures calm && valid ==> Peaceful(old(world), world, stop)
      ensures calm && stop.None? ==> repo == Touched(old(repo), writable)
    {
      hide IsPath, Effect, Enabled, AtPeace, MidHead, MidAttempts, MidEvidence, MidPublication, Fuel;
      stop := RunProcess(writable);
      if stop == Some(Died) { return; }
      if stop.None? && !valid {
        stop := Some(Raised("the answer does not meet its contract"));
      }
      CloseAttempt(if stop.None? then AttemptCompleted else AttemptInterrupted);
    }

    /** `ask`: the attempt is in the saved state before its process starts; an invalid answer raises. */
    method Ask(writable: bool, valid: bool) returns (stop: Option<Stop>)
      requires Settled()
      requires writable ==>
                 Coding(state.phase) && !Mine().launched && (Mine().charged || state.attempts > Mine().mem.attempts)
      modifies this`world, this`run, this`repo, this`state, db
      ensures old(run.states) <= run.states && Resumable(stop)
      ensures state == old(state).(agentAttempts := state.agentAttempts)
      ensures stop.None? ==>
                && Settled() && Asked(old(Mine()), Mine(), state, writable, old(repo.head.tree)) && valid
                && Mine().mem.agentAttempts == Logged(old(state))
                && state.agentAttempts == MarkLast(Logged(old(state)), AttemptCompleted)
                && LastIs(Mine().mem.agentAttempts, old(state.phase), AttemptRunning)
                && LastIs(state.agentAttempts, old(state.phase), AttemptCompleted)
      ensures disciplined && !writable ==> repo == old(repo)
      ensures calm && valid ==> Peaceful(old(world), world, stop)
      ensures calm && stop.None? ==> repo == Touched(old(repo), writable)
    {
      hide IsPath, Effect, Enabled, AtPeace, MidHead, MidEvidence, MidPublication, Fuel;
      assert LastIs(Logged(state), state.phase, AttemptRunning);
      LogAttempt();
      stop := Poll();
      if stop.Some? { return; }
      MidSaveSelf(Mine(), repo);
      stop := RunLogged(writable, valid);
    }

    // ----- Phases

    /** Where every phase starts: polled, recovered, nothing charged. */
    ghost predicate Ready()
      reads this, db
    {
      && Settled() && !Mine().charged && !Mine().launched && (!state.phase.Verify? ==> !Mine().sealed)
      && state == Mine().mem.(headCommit := state.headCommit, agentAttempts := state.agentAttempts)
      && (Mine().sealed ==> state.headCommit == Mine().mem.headCommit && repo.clean && repo.head == state.headCommit)
    }

    /** Where every phase ends: with a final save allowed, or stopped with a partial one allowed. */
    ghost predicate PhaseEnd(stop: Option<Stop>)
      reads this, db
    {
      After(stop) &&
      match stop
      case None =>
        FinalSave(Mine(), state, status, repo) && (status.Completed? && db.requestPr ==> Delivers(Mine(), state))
      case Some(Died) => true
      case Some(_) => CutStatus(status) && (MidSave(Mine(), state, repo) || Partial(Mine(), state, repo))
    }

    /** In the calm the saved head stays the one checked out. */
    ghost predicate Tidy()
      reads this
    {
      AtHeadOf(state, repo)
    }

    /** Attempts that a dead process left running are checkpointed, never promoted to done. */
    method Recover(rescued: Commit) returns (stop: Option<Stop>)
      requires Ready() && !state.phase.Prepare?
      modifies this`world, this`run, this`repo, this`state, db
      ensures old(run.states) <= run.states && Resumable(stop)
      ensures stop.None? ==>
                && Ready() && Mine() == old(Mine())
                && state == old(state).(headCommit := state.headCommit,
                                        agentAttempts := MarkInterrupted(old(state.agentAttempts)))
                && (SomeRunning(old(state.agentAttempts)) ==> repo.clean && state.headCommit == repo.head)
      ensures stop.None? ==>
                && |state.agentAttempts| == |old(state.agentAttempts)|
                && forall i :: 0 <= i < |state.agentAttempts| ==>
                     var a := old(state.agentAttempts)[i];
                     state.agentAttempts[i] ==
                       AgentAttempt(a.phase, if a.status == AttemptRunning then AttemptInterrupted else a.status)
      ensures stop.None? ==> repo == old(repo) || (!old(repo.clean) && repo == Repo(rescued, true))
      ensures old(Tidy()) ==> repo == old(repo) && state.headCommit == old(state.headCommit)
      ensures calm && (old(Tidy()) || rescued.id != "") ==> Peaceful(old(world), world, stop)
    {
      var prepareFails := Fault();
      if prepareFails { return Some(Raised("the worktree is not the owned one")); }
      stop := None;
      if SomeRunning(state.agentAttempts) {
        var head: Commit;
        stop, head := Checkpoint(rescued);
        if stop.Some? { return; }
        state := state.(headCommit := head, agentAttempts := MarkInterrupted(state.agentAttempts));
      } else {
        assert MarkInterrupted(state.agentAttempts) == state.agentAttempts;
      }
    }

    method PreparePhase(base: Commit) returns (stop: Option<Stop>)
      requires Ready() && state == Mine().mem && state.phase.Prepare? && status.Running?
      modifies this`state
      ensures PhaseEnd(stop)
      ensures stop.None? ==> state == old(state).(baseCommit := base, headCommit := repo.head, phase := MakePlan)
      ensures calm ==> stop.None?
    {
      var fails := Fault();
      if fails { return Some(Raised("git worktree add failed")); }
      state := state.(baseCommit := base);
      fails := Fault();
      if fails { return Some(Raised("git rev-parse failed")); }
      state := state.(headCommit := repo.head, phase := MakePlan);
      stop := None;
    }

    /** The contract of a plan: its fields, and the validator over them. */
    method Validate(plan: Plan) returns (valid: bool)
      ensures valid <==> ValidPlan(plan)
    {
      valid := FieldsPresent(plan);
      if valid {
        var checked := CompleteGraph(plan);
        valid := checked.Success?;
      }
    }

    /** A validated plan goes to review, or back with what it asks the user. */
    method StorePlan(plan: Plan)
      requires Settled() && state.phase.MakePlan? && status.Planning? && ValidPlan(plan)
      requires state == Mine().mem.(agentAttempts := state.agentAttempts, headCommit := state.headCommit)
      modifies this`state, this`status
      ensures PhaseEnd(None)
      ensures Planned(old(state), plan, state, status)
    {
      hide IsPath, Effect, Enabled, AtPeace, AfterPoll, Partial, FinalSave, Finished, MidHead, MidAttempts,
        MidEvidence, MidPublication, Fuel, ValidPlan;
      state := state.(plan := Some(plan), phase := ReviewPlan);
      if plan.clarification != "" {
        status := Blocked;
        state := state.(phase := MakePlan);
      }
      PlanEnds(Mine(), state, status, repo);
    }

    method PlanPhase(plan: Plan) returns (stop: Option<Stop>)
      requires Ready() && state.phase.MakePlan? && status.Running?
      modifies this`world, this`run, this`repo, this`state, this`status, db
      ensures old(run.states) <= run.states && PhaseEnd(stop)
      ensures stop.None? ==> Planned(old(state), plan, state, status)
      ensures calm && ValidPlan(plan) ==> Peaceful(old(world), world, stop)
      ensures calm && stop.None? ==> repo == old(repo)
    {
      hide IsPath, Effect, Enabled, AtPeace, AfterPoll, Partial, FinalSave, Finished, MidHead, MidAttempts,
        MidEvidence, MidPublication, Fuel, ValidPlan;
      status := Planning;
      var valid := Validate(plan);
      stop := Ask(false, valid);
      if stop.Some? { return; }
      StorePlan(plan);
    }

    /** A plan that passes without findings is frozen; any other one goes back, for the third time to the user. */
    method ActOnPlanReview(review: Review)
      requires Settled() && state.phase.ReviewPlan? && status.Planning?
      requires state == Mine().mem.(agentAttempts := state.agentAttempts, headCommit := state.headCommit)
      modifies this`state, this`status
      ensures PhaseEnd(None)
      ensures PlanReviewed(old(state), review, state, status)
    {
      hide IsPath, Effect, Enabled, AtPeace, AfterPoll, Partial, FinalSave, Finished, MidHead, MidAttempts,
        MidEvidence, MidPublication, Fuel;
      state := state.(planReview := Some(review));
      if review.passed && review.findings == [] {
        state := state.(phase := Implement);
      } else {
        state := state.(failureCount := state.failureCount + 1, review := Some(review), phase := MakePlan);
        if state.failureCount >= 3 {
          status := Blocked;
        }
      }
      PlanReviewEnds(Mine(), state, status, repo);
    }

    method PlanReviewPhase(review: Review) returns (stop: Option<Stop>)
      requires Ready() && state.phase.ReviewPlan? && status.Running?
      modifies this`world, this`run, this`repo, this`state, this`status, db
      ensures old(run.states) <= run.states && PhaseEnd(stop)
      ensures stop.None? ==> PlanReviewed(old(state), review, state, status)
      ensures calm ==> Peaceful(old(world), world, stop) && (stop.None? ==> repo == old(repo))
    {
      hide IsPath, Effect, Enabled, AtPeace, AfterPoll, Partial, FinalSave, Finished, MidHead, MidAttempts,
        MidEvidence, MidPublication, Fuel, MidSave, Delivers;
      status := Planning;
      stop := Ask(false, true);
      if stop.Some? { return; }
      ActOnPlanReview(review);
    }

    /** `Plan.model_validate(state["plan"])`. */
    method StoredPlan() returns (stop: Option<Stop>, plan: Plan)
      ensures stop.None? <==> HasPlan(state)
      ensures stop.None? ==> plan == state.plan.value
      ensures stop.Some? ==> stop.value.Raised?
    {
      plan := Plan([], [], [], "");
      if state.plan.None? { return Some(Raised("no plan")), plan; }
      plan := state.plan.value;
      var valid := Validate(plan);
      stop := if valid then None else Some(Raised("invalid plan"));
    }

    /** The tree of HEAD, or a Git failure. */
    method Fingerprint() returns (stop: Option<Stop>, tree: string)
      ensures tree == repo.head.tree
      ensures stop.Some? ==> stop.value.Raised?
      ensures calm ==> stop.None?
    {
      var fails := Fault();
      stop, tree := if fails then Some(Raised("git rev-parse failed")) else None, repo.head.tree;
    }

    /**
     The steps that both coding phases share: charge an attempt, let a writable agent work, and
     checkpoint what it did. Returns the tree from before.
     */
    method CodingAttempt(made: Commit) returns (stop: Option<Stop>, before: string)
      requires Ready() && Coding(state.phase) && state.attempts < Mine().max
      modifies this`world, this`run, this`repo, this`state, db
      ensures old(run.states) <= run.states && Resumable(stop) && before == old(repo.head.tree)
      ensures state == old(state).(attempts := old(state.attempts) + 1, agentAttempts := state.agentAttempts,
                                   headCommit := state.headCommit)
      ensures stop.None? ==>
                && Settled() && Mine().charged && Mine().max == old(Mine()).max && Mine().before == before
                && state == Mine().mem.(agentAttempts := state.agentAttempts, headCommit := state.headCommit)
                && repo.clean && state.headCommit == repo.head
      ensures calm && made.id != "" ==> Peaceful(old(world), world, stop)
      ensures calm && stop.None? ==> repo == Repo(made, true)
    {
      hide IsPath, Effect, Enabled, AtPeace, AfterPoll, Partial, FinalSave, Finished, MidHead, MidEvidence,
        MidPublication, Fuel, LastIs, Logged, MarkLast;
      ChargeIsAllowed(Mine(), state, repo);
      state := state.(attempts := state.attempts + 1);
      stop, before := Fingerprint();
      if stop.Some? { return; }
      stop := Ask(true, true);
      if stop.Some? { return; }
      var head: Commit;
      stop, head := Checkpoint(made);
      if stop.Some? { return; }
      HeadIsAllowed(Mine(), state, repo);
      state := state.(headCommit := head);
    }

    /** A coding phase after its agent: charged, checkpointed, nothing else decided. */
    ghost predicate Coded(before: string)
      reads this, db
    {
      && Settled() && Mine().charged && Coding(state.phase) && Mine().before == before && status.Executing?
      && state == Mine().mem.(agentAttempts := state.agentAttempts, headCommit := state.headCommit)
    }

    /** What an attempt at a task has achieved. */
    method CountTask(task: Task, blocked: bool, before: string) returns (stop: Option<Stop>)
      requires Coded(before) && state.phase.Implement?
      requires AddsTask(state, state.(completed := state.completed + [task.id]), task)
      modifies this`state, this`status
      ensures PhaseEnd(stop)
      ensures stop.None? ==> Counted(old(state), task, blocked, before != repo.head.tree, state, status)
      ensures calm ==> stop.None?
    {
      hide IsPath, Effect, Enabled, AtPeace, AfterPoll, Partial, FinalSave, Finished, Fuel, MidHead, MidAttempts,
        MidEvidence, MidPublication, ValidPlan, Runnable;
      ghost var coded := state;
      if blocked {
        status := Blocked;
      } else {
        state := state.(completed := state.completed + [task.id]);
      }
      var after: string;
      stop, after := Fingerprint();
      if stop.Some? {
        ImplementStops(Mine(), state, repo, task);
        return;
      }
      state := state.(failureCount := if before != after then 0 else state.failureCount + 1);
      if state.failureCount >= 3 {
        status := Blocked;
      }
      state := state.(evidence := [], review := Some(Review(false, [])), judge := None);
      AttemptEnds(Mine(), coded, state, status, repo, task, blocked);
    }

    /** One coding attempt at a runnable task. */
    method ImplementTask(task: Task, blocked: bool, made: Commit) returns (stop: Option<Stop>)
      requires Ready() && state.phase.Implement? && status.Executing? && state.attempts < Mine().max
      requires HasPlan(state) && task in state.plan.value.tasks && Runnable(task, state.completed)
      modifies this`world, this`run, this`repo, this`state, this`status, db
      ensures old(run.states) <= run.states && PhaseEnd(stop)
      ensures stop.None? ==>
                TaskAttempted(old(state), task, blocked, old(repo.head.tree) != repo.head.tree, state, status)
      ensures calm && made.id != "" ==> Peaceful(old(world), world, stop)
      ensures calm && stop.None? ==> repo == Repo(made, true) && state.headCommit == made
    {
      hide IsPath, Effect, Enabled, AtPeace, AfterPoll, Partial, FinalSave, Finished, ValidPlan, Runnable, Fuel,
        MidHead, MidAttempts, MidEvidence, MidPublication;
      var before: string;
      stop, before := CodingAttempt(made);
      if stop.Some? { return; }
      stop := CountTask(task, blocked, before);
    }

    method ImplementPhase(max: nat, blocked: bool, made: Commit) returns (stop: Option<Stop>)
      requires Ready() && state.phase.Implement? && Mine().max == max && status.Running?
      modifies this`world, this`run, this`repo, this`state, this`status, db
      ensures old(run.states) <= run.states && PhaseEnd(stop)
      ensures stop.None? ==> Implemented(old(state), blocked, old(repo.head.tree) != repo.head.tree, state, status)
      ensures old(HasPlan(state) && WillCode(state)) && old(state.attempts) >= max ==>
                stop == Some(Interrupted(ByLimit)) && state == old(state) && world == old(world)
      ensures calm && old(HasPlan(state)) && (old(WillCode(state)) ==> old(state.attempts) < max && made.id != "") ==>
                Peaceful(old(world), world, stop)
      ensures calm && stop.None? ==> repo == if old(WillCode(state)) then Repo(made, true) else old(repo)
      ensures calm && stop.None? && old(WillCode(state)) ==> state.headCommit == made
    {
      hide IsPath, Effect, Enabled, AtPeace, AfterPoll, Partial, FinalSave, Finished, MidHead, MidAttempts,
        MidEvidence, MidPublication, Fuel, ValidPlan, Runnable;
      status := Executing;
      var plan: Plan;
      stop, plan := StoredPlan();
      if stop.Some? { return; }
      var task := NextTask(plan, state.completed);
      if task.None? {
        state := state.(phase := Verify);
        ImplementEnds(Mine(), state, status, repo);
        return;
      }
      if state.attempts >= max {
        return Some(Interrupted(ByLimit));
      }
      stop := ImplementTask(task.value, blocked, made);
    }

    /** What a repair has achieved. */
    method CountRepair(blocked: bool, before: string) returns (stop: Option<Stop>)
      requires Coded(before) && state.phase.Repair?
      modifies this`state, this`status
      ensures PhaseEnd(stop)
      ensures stop.None? ==> Repaired(old(state), blocked, before != repo.head.tree, state, status)
      ensures stop.None? ==> state.attempts == old(state.attempts) && state.headCommit == old(state.headCommit)
      ensures calm ==> stop.None?
    {
      hide IsPath, Effect, Enabled, AtPeace, AfterPoll, Partial, FinalSave, Finished, Fuel, MidHead, MidAttempts,
        MidEvidence, MidPublication;
      var after: string;
      stop, after := Fingerprint();
      if stop.Some? { return; }
      state := state.(failureCount := if before != after then 0 else state.failureCount + 1);
      if blocked || state.failureCount >= 3 {
        status := Blocked;
      } else {
        state := state.(phase := Verify);
      }
      RepairEnds(Mine(), state, status, repo);
    }

    method RepairPhase(max: nat, blocked: bool, made: Commit) returns (stop: Option<Stop>)
      requires Ready() && state.phase.Repair? && Mine().max == max && status.Running?
      modifies this`world, this`run, this`repo, this`state, this`status, db
      ensures old(run.states) <= run.states && PhaseEnd(stop)
      ensures stop.None? ==>
                && state.attempts == old(state.attempts) + 1
                && Repaired(old(state), blocked, old(repo.head.tree) != repo.head.tree, state, status)
      ensures old(state.attempts) >= max ==>
                stop == Some(Interrupted(ByLimit)) && state == old(state) && world == old(world)
      ensures calm && old(state.attempts) < max && made.id != "" ==> Peaceful(old(world), world, stop)
      ensures calm && stop.None? ==> repo == Repo(made, true) && state.headCommit == made
    {
      hide IsPath, Effect, Enabled, AtPeace, AfterPoll, Partial, FinalSave, Finished, Fuel, MidHead, MidAttempts,
        MidEvidence, MidPublication;
      status := Executing;
      if state.attempts >= max {
        return Some(Interrupted(ByLimit));
      }
      var before: string;
      stop, before := CodingAttempt(made);
      if stop.Some? { return; }
      stop := CountRepair(blocked, before);
    }

    method ReviewPhase(review: Review) returns (stop: Option<Stop>)
      requires Ready() && state.phase.ReviewWork? && status.Running?
      modifies this`world, this`run, this`repo, this`state, this`status, db
      ensures old(run.states) <= run.states && PhaseEnd(stop)
      ensures stop.None? ==> WorkReviewed(old(state), review, state, status)
      ensures calm ==> Peaceful(old(world), world, stop) && (stop.None? ==> repo == old(repo))
    {
      hide IsPath, Effect, Enabled, AtPeace, AfterPoll, Partial, FinalSave, Finished, MidHead, MidAttempts,
        MidEvidence, MidPublication, Fuel;
      status := Verifying;
      stop := Ask(false, true);
      if stop.Some? { return; }
      state := state.(review := Some(review),
                      phase := if review.passed && review.findings == [] then JudgeWork else Repair);
      ReviewEnds(Mine(), state, status, repo);
    }

    /** Delivery for a judgement that is ready at head_commit, repair with findings for any other. */
    method ActOnVerdict(plan: Plan, verdict: Judge)
      requires Settled() && state.phase.JudgeWork? && status.Verifying? && state.plan == Some(plan) && ValidPlan(plan)
      requires state == Mine().mem.(agentAttempts := state.agentAttempts)
      modifies this`state
      ensures PhaseEnd(None)
      ensures Judged(old(state), verdict, state, status)
    {
      hide IsPath, Effect, Enabled, AtPeace, AfterPoll, Partial, FinalSave, Finished, Fuel, MidHead, MidAttempts,
        MidEvidence, MidPublication, ValidPlan, JudgeReady, JudgeFindings;
      state := state.(judge := Some(verdict));
      if JudgeReady(plan, state.judge.value, state.headCommit) {
        state := state.(phase := Deliver);
      } else {
        var findings := JudgeFindings(plan, state.judge.value);
        if findings == [] {
          findings := ["Judge verdict was inconsistent"];
        }
        state := state.(phase := Repair, review := Some(Review(false, findings)));
      }
      JudgeEnds(Mine(), state, status, repo);
    }

    method JudgePhase(verdict: Judge) returns (stop: Option<Stop>)
      requires Ready() && state.phase.JudgeWork? && status.Running?
      modifies this`world, this`run, this`repo, this`state, this`status, db
      ensures old(run.states) <= run.states && PhaseEnd(stop)
      ensures stop.None? ==>
                Judged(old(state), verdict.(commit := old(repo.head)), state, status) && VerdictsPresent(verdict)
      ensures calm && old(HasPlan(state)) && VerdictsPresent(verdict) ==> Peaceful(old(world), world, stop)
      ensures calm && stop.None? ==> repo == old(repo)
    {
      hide IsPath, Effect, Enabled, AtPeace, AfterPoll, Partial, FinalSave, Finished, MidHead, MidAttempts,
        MidEvidence, MidPublication, Fuel, ValidPlan, JudgeReady, JudgeFindings;
      status := Verifying;
      LogAttempt();
      var plan: Plan;
      stop, plan := StoredPlan();
      if stop.Some? {
        AttemptsAreFree(Mine(), state, repo, MarkLast(state.agentAttempts, AttemptInterrupted));
        state := state.(agentAttempts := MarkLast(state.agentAttempts, AttemptInterrupted));
        return;
      }
      var head := repo.head;
      stop := RunLogged(false, VerdictsPresent(verdict));
      if stop.Some? { return; }
      ActOnVerdict(plan, verdict.(commit := head));
    }

    /** The state while the first i checks have been recorded. */
    ghost predicate Checking(plan: Plan, i: nat)
      reads this, db
    {
      && MaySave() && Mine().mem.phase.Verify? && Mine().mem.plan == Some(plan)
      && EvidenceSoFar(plan, state.evidence, state.headCommit) && |state.evidence| == i
      && (if i == 0 then repo.clean && repo.head == state.headCommit
          else Mine().sealed && state.headCommit == Mine().mem.headCommit)
    }

    /** The process of a check has exited. */
    method NoteExit(argv: seq<string>, exitCode: int)
      requires MaySave() && Mine().mem.phase.Verify? && Mine().sealed
      modifies this`world, this`run
      ensures MaySave() && old(run.states) <= run.states && Peaceful(old(world), world, None)
      ensures
        var o := old(Mine());
        Mine() == o.(exited := o.exited + {CheckRun(argv, o.mem.headCommit, exitCode, repo.head)})
    {
      hide IsPath, Fuel;
      ghost var o := Mine();
      Record(InPhase(CheckExited(argv, exitCode)));
      ExitsAreFree(o, Mine(), state, repo);
    }

    /** What the process of check i exited with becomes its entry. */
    method RecordCheck(plan: Plan, i: nat, exitCode: int)
      requires MaySave() && Mine().mem.phase.Verify? && Mine().mem.plan == Some(plan) && Mine().sealed
      requires state.headCommit == Mine().mem.headCommit && i < |plan.checks|
      requires EvidenceSoFar(plan, state.evidence, state.headCommit) && |state.evidence| == i
      modifies this`world, this`run, this`state
      ensures Checking(plan, i + 1) && old(run.states) <= run.states && Peaceful(old(world), world, None)
      ensures
        var c := plan.checks[i];
        var entry := Evidence(c.id, c.requirementIds, c.argv, exitCode, exitCode == 0, state.headCommit);
        state == old(state).(evidence := old(state.evidence) + [entry])
    {
      hide IsPath, Effect, Enabled, AtPeace, MidHead, MidAttempts, MidEvidence, MidPublication, Fuel, EvidenceSoFar,
        Runnable;
      NoteExit(plan.checks[i].argv, exitCode);
      RecordIsAllowed(Mine(), state, repo, plan, exitCode);
      state := state.(evidence := state.evidence + [EntryFor(plan.checks[i], exitCode, state.headCommit)]);
    }

    method RunCheck(plan: Plan, i: nat, exitCode: int) returns (stop: Option<Stop>)
      requires Checking(plan, i) && i < |plan.checks|
      modifies this`world, this`run, this`repo, this`state, db
      ensures old(run.states) <= run.states && Resumable(stop)
      ensures stop.None? ==> Checking(plan, i + 1)
      ensures
        var c := plan.checks[i];
        var entry := Evidence(c.id, c.requirementIds, c.argv, exitCode, exitCode == 0, state.headCommit);
        state == old(state).(evidence := if stop.None? then old(state.evidence) + [entry] else old(state.evidence))
      ensures calm ==> Peaceful(old(world), world, stop) && (stop.None? ==> repo == old(repo))
    {
      hide IsPath, Effect, Enabled, AtPeace, MidHead, MidAttempts, MidEvidence, MidPublication, Fuel, EvidenceSoFar,
        Runnable;
      stop := Poll();
      if stop.Some? { return; }
      MidSaveSelf(Mine(), repo);
      stop := RunProcess(false);
      if stop.Some? { return; }
      RecordCheck(plan, i, exitCode);
    }

    /** Every check of the plan, in order, each recorded at the checkpointed head. */
    method RunChecks(plan: Plan, exits: seq<int>) returns (stop: Option<Stop>)
      requires Checking(plan, 0) && plan.checks != []
      modifies this`world, this`run, this`repo, this`state, db
      ensures old(run.states) <= run.states && Resumable(stop)
      ensures stop.None? ==>
                Checking(plan, |plan.checks|) && Recorded(plan, exits, |plan.checks|, state.evidence, state.headCommit)
      ensures stop.None? ==> forall i :: 0 <= i < |plan.checks| && i < |exits| ==>
                state.evidence[i].exitCode == exits[i] && (state.evidence[i].passed <==> exits[i] == 0)
      ensures state == old(state).(evidence := state.evidence)
      ensures calm ==> Peaceful(old(world), world, stop) && (stop.None? ==> repo == old(repo))
    {
      hide IsPath, Effect, Enabled, MidHead, MidAttempts, MidEvidence, MidPublication, Fuel, EvidenceSoFar, AtPeace;
      for i := 0 to |plan.checks|
        invariant Checking(plan, i) && Recorded(plan, exits, i, state.evidence, state.headCommit)
        invariant old(run.states) <= run.states && state == old(state).(evidence := state.evidence)
        invariant calm ==> Peaceful(old(world), world, None) && repo == old(repo)
      {
        stop := RunCheck(plan, i, ExitOf(exits, i));
        if stop.Some? { return; }
      }
      stop := None;
    }

    /** The verdict on the recorded checks. */
    method JudgeChecks(plan: Plan) returns (stop: Option<Stop>)
      requires Checking(plan, |plan.checks|) && plan.checks != [] && ValidPlan(plan) && status.Verifying?
      requires state.repeatedFailures == Mine().mem.repeatedFailures && state.lastFailed == Mine().mem.lastFailed
      modifies this`state, this`status
      ensures PhaseEnd(stop)
      ensures stop.None? ==> Concluded(old(state), repo.clean, state, status)
      ensures stop.None? && repo.clean ==>
                (state.phase == ReviewWork <==> forall e :: e in state.evidence ==> e.exitCode == 0)
      ensures stop.None? && repo.clean && state.phase != ReviewWork ==>
                && state.phase == Repair && state.lastFailed.Some?
                && forall id :: id in state.lastFailed.value <==>
                     exists e :: e in state.evidence && e.checkId == id && e.exitCode != 0
      ensures calm ==> stop.None?
    {
      hide IsPath, Effect, Enabled, AtPeace, AfterPoll, Partial, FinalSave, Finished, MidHead, MidAttempts,
        MidEvidence, MidPublication, Fuel, ValidPlan, EvidenceSoFar;
      var fails := Fault();
      if fails { return Some(Raised("git status failed")); }
      EntriesPassByTheirExit(plan, state.evidence, state.headCommit);
      if !repo.clean {
        status := Blocked;
      } else if AllPassed(state.evidence) {
        state := state.(phase := ReviewWork);
      } else {
        var failed := FailedIds(state.evidence);
        state := state.(phase := Repair, lastFailed := Some(failed),
                        repeatedFailures := if state.lastFailed == Some(failed) then state.repeatedFailures + 1 else 1);
        if state.repeatedFailures >= 3 {
          status := Blocked;
        }
      }
      stop := None;
      VerifyEnds(Mine(), state, status, repo);
    }

    method VerifyPhase(exits: seq<int>, made: Commit) returns (stop: Option<Stop>)
      requires Ready() && state.phase.Verify? && status.Running?
      modifies this`world, this`run, this`repo, this`state, this`status, db
      ensures old(run.states) <= run.states && PhaseEnd(stop)
      ensures stop.None? ==> Verified(old(state), exits, repo.clean, state, status)
      ensures calm && old(HasPlan(state)) && old(repo.clean) ==> Peaceful(old(world), world, stop)
      ensures calm && stop.None? && old(repo.clean) ==> repo == old(repo) && state.headCommit == repo.head
    {
      hide IsPath, Effect, Enabled, AtPeace, AfterPoll, Partial, FinalSave, Finished, MidHead, MidAttempts,
        MidEvidence, MidPublication, Fuel, ValidPlan, EvidenceSoFar;
      status := Verifying;
      var plan: Plan;
      stop, plan := StoredPlan();
      if stop.Some? { return; }
      var head: Commit;
      stop, head := Checkpoint(made);
      if stop.Some? { return; }
      ValidPlanHasChecks(plan);
      EvidenceRestarts(Mine(), state, repo);
      state := state.(headCommit := head, evidence := []);
      stop := RunChecks(plan, exits);
      if stop.Some? { return; }
      stop := JudgeChecks(plan);
    }

    /** Only the target for the saved base, and only the one chosen before. */
    method ChooseTarget(target: Target) returns (stop: Option<Stop>)
      requires Ready() && state.phase.Deliver? && status.Running?
      modifies this`world, this`run, this`repo, this`state, db
      ensures old(run.states) <= run.states && Resumable(stop)
      ensures state == old(state).(target := state.target)
      ensures stop.None? ==>
                && Settled() && Mine().mem.phase.Deliver?
                && state.target == Some(target) && target.baseCommit == state.baseCommit
                && (old(state.target).None? || old(state.target).value == target)
      ensures (calm && target.baseCommit == old(state.baseCommit)
               && (old(state.target).None? || old(state.target).value == target)) ==>
                Peaceful(old(world), world, stop)
      ensures calm && stop.None? ==> repo == old(repo)
    {
      hide IsPath, Effect, Enabled, AtPeace, MidHead, MidAttempts, MidEvidence, MidPublication, Fuel, EvidenceSoFar,
        Runnable;
      var fails := Fault();
      if fails { return Some(Raised("origin is not a matching GitHub repository")); }
      stop := RunProcess(false);
      if stop.Some? { return; }
      if target.baseCommit != state.baseCommit {
        return Some(Raised("the saved base commit is not origin's default-branch tip"));
      }
      if state.target.Some? && state.target.value != target {
        return Some(Raised("the publication target has changed"));
      }
      TargetIsAllowed(Mine(), state, repo, target);
      state := state.(target := Some(target));
    }

    /** The push starts: its target is in the row. */
    method StartPush(head: Commit) returns (stop: Option<Stop>)
      requires MaySave() && Mine().mem == state && state.phase.Deliver? && state.target.Some? && db.requestPr
      requires ReadyAt(state, head)
      modifies this`world, this`run, db
      ensures old(run.states) <= run.states && Resumable(stop)
      ensures stop.None? ==> MaySave() && Mine() == old(Mine()).(pushing := Some(head))
      ensures calm ==> Peaceful(old(world), world, stop)
    {
      hide IsPath, Enabled, Effect, Fuel, MidHead, MidAttempts, MidEvidence, MidPublication, ReadyAt;
      var alive := Await();
      if !alive { return Some(Died); }
      PushStep(world, head);
      Record(InPhase(PushBranch(head)));
      MidSaveSelf(Mine(), repo);
      stop := None;
    }

    /** `git push`: the poll before it has saved the target. */
    method Push(head: Commit) returns (stop: Option<Stop>)
      requires Settled() && Mine().mem.phase.Deliver? && state.target.Some? && db.requestPr && ReadyAt(state, head)
      modifies this`world, this`run, this`repo, db
      ensures old(run.states) <= run.states && Resumable(stop)
      ensures stop.None? ==> Settled() && Mine().mem.phase.Deliver? && Mine().pushing == Some(head)
      ensures calm ==> Peaceful(old(world), world, stop) && (stop.None? ==> repo == old(repo))
    {
      hide IsPath, Enabled, Effect, MidHead, MidAttempts, MidEvidence, MidPublication, Fuel, ReadyAt, Seals, AtPeace;
      var tooLate := Fault();
      if tooLate { return Some(Interrupted(ByLimit)); }
      stop := Poll();
      if stop.Some? { return; }
      MidSaveSelf(Mine(), repo);
      stop := StartPush(head);
      if stop.Some? { return; }
      stop := LetItRun(false);
    }

    /** `git push` has exited with 0. */
    method AcceptPush()
      requires Settled() && Mine().pushing.Some?
      modifies this`world, this`run
      ensures Settled() && Mine() == old(Mine()).(published := old(Mine()).pushing) && old(run.states) <= run.states
      ensures Peaceful(old(world), world, None)
    {
      hide IsPath, Fuel;
      Record(InPhase(PushAccepted));
    }

    /** gh has shown a pull request, and its address goes into the state. */
    method SeeRequest(url: string)
      requires Settled() && Mine().mem.phase.Deliver? && Mine().published.Some?
      modifies this`world, this`run, this`state
      ensures Settled() && Mine() == old(Mine()).(seen := Some(url)) && old(run.states) <= run.states
      ensures state == old(state).(prUrl := url) && Peaceful(old(world), world, None)
    {
      hide IsPath, Fuel;
      ghost var o := Mine();
      Record(InPhase(PullRequestSeen(url)));
      SeenUrlIsFree(o, Mine(), state, repo, url);
      state := state.(prUrl := url);
    }

    /** An existing pull request for the branch, or a new one. */
    method PullRequest(gh: Publishing) returns (stop: Option<Stop>, blocked: bool)
      requires Settled() && Mine().mem.phase.Deliver? && Mine().published.Some?
      modifies this`world, this`run, this`repo, this`state, db
      ensures old(run.states) <= run.states && Resumable(stop)
      ensures state == old(state).(prUrl := state.prUrl)
      ensures stop.None? ==> Settled() && Mine().mem.phase.Deliver? && (blocked <==> !FindsRequest(gh))
      ensures stop.None? ==> (blocked <==> gh.listExit != 0 || (gh.found == None && gh.createExit != 0))
      ensures stop.None? && !blocked ==> state.prUrl == UrlOf(gh) && Mine().seen == Some(state.prUrl)
      ensures stop.None? && !blocked ==> state.prUrl == if gh.found.Some? then gh.found.value else gh.printed
      ensures calm ==> Peaceful(old(world), world, stop) && (stop.None? ==> repo == old(repo))
    {
      hide IsPath, Effect, Enabled, AtPeace, MidHead, MidAttempts, MidEvidence, MidPublication, Fuel;
      blocked := false;
      stop := RunProcess(false);
      if stop.Some? { return; }
      if gh.listExit != 0 { return None, true; }
      var unreadable := Fault();
      if unreadable { return Some(Raised("gh did not print JSON")), false; }
      if gh.found.None? {
        stop := RunProcess(false);
        if stop.Some? { return; }
        if gh.createExit != 0 { return None, true; }
      }
      SeeRequest(UrlOf(gh));
    }

    /** Pushing the branch to its pinned target and finding or creating the pull request. */
    method Publish(head: Commit, gh: Publishing) returns (stop: Option<Stop>, blocked: bool)
      requires Ready() && state.phase.Deliver? && status.Running? && db.requestPr && ReadyAt(state, head)
      modifies this`world, this`run, this`repo, this`state, db
      ensures old(run.states) <= run.states && Resumable(stop)
      ensures state == old(state).(target := state.target, prUrl := state.prUrl)
      ensures stop.None? ==>
                Settled() && Mine().mem.phase.Deliver? && (blocked <==> gh.pushExit != 0 || !FindsRequest(gh))
      ensures stop.None? && !blocked ==>
                state.prUrl == UrlOf(gh) && state.target == Some(gh.target) && Mine().seen == Some(state.prUrl)
      ensures (calm && gh.target.baseCommit == old(state.baseCommit)
               && (old(state.target).None? || old(state.target).value == gh.target)) ==>
                Peaceful(old(world), world, stop)
      ensures calm && stop.None? ==> repo == old(repo)
    {
      hide IsPath, Effect, Enabled, AtPeace, AfterPoll, MidHead, MidAttempts, MidEvidence, MidPublication, Fuel,
        ReadyAt;
      blocked := false;
      stop := ChooseTarget(gh.target);
      if stop.Some? { return; }
      ReadyWithTarget(old(state), head, state.target);
      stop := Push(head);
      if stop.Some? { return; }
      if gh.pushExit != 0 { return None, true; }
      AcceptPush();
      stop, blocked := PullRequest(gh);
    }

    method DeliverPhase(gh: Publishing) returns (stop: Option<Stop>)
      requires Ready() && state.phase.Deliver? && status.Running?
      modifies this`world, this`run, this`repo, this`state, this`status, db
      ensures old(run.states) <= run.states && PhaseEnd(stop)
      ensures stop.None? ==> DeliveredOrNot(old(state), old(repo), gh, db.requestPr, state, status)
      ensures (calm && old(HasPlan(state)) && gh.target.baseCommit == old(state.baseCommit)
               && (old(state.target).None? || old(state.target).value == gh.target)) ==>
                Peaceful(old(world), world, stop)
      ensures (calm && old(HasPlan(state) && state.judge.Some? && repo != Repo(state.judge.value.commit, true))) ==>
                Peaceful(old(world), world, stop) && (stop.None? ==> status.Blocked?)
      ensures calm && stop.None? ==> repo == old(repo)
    {
      hide IsPath, Effect, Enabled, AtPeace, AfterPoll, Partial, FinalSave, Finished, MidHead, MidAttempts,
        MidEvidence, MidPublication, Fuel, ValidPlan, CompletionReady;
      if state.judge.None? {
        state := state.(phase := JudgeWork);
        stop := None;
        DeliverEnds(Mine(), state, status, repo);
        return;
      }
      var plan: Plan;
      stop, plan := StoredPlan();
      if stop.Some? { return; }
      var head := repo.head;
      var fails := Fault();
      if fails { return Some(Raised("git status failed")); }
      var reviewed := ReviewPasses(state.review);
      var ready := CompletionReady(plan, state.completed, state.evidence, head, reviewed, state.judge);
      if !repo.clean || !ready {
        status := Blocked;
        BlockedEnds(Mine(), state, repo);
        return;
      }
      JudgedAtHead(state, head);
      if db.requestPr && state.prUrl == "" {
        var blocked: bool;
        stop, blocked := Publish(head, gh);
        if stop.Some? { return; }
        if blocked {
          status := Blocked;
          BlockedEnds(Mine(), state, repo);
          return;
        }
      }
      status := Completed;
      DeliverEnds(Mine(), state, status, repo);
    }

    // ----- The tick

    method FirstPoll() returns (stop: Option<Stop>)
      requires Owning() && status.Running? && Mine() == Begin(state, Mine().max, Mine().version)
      modifies this`world, this`run, db
      ensures old(run.states) <= run.states && Resumable(stop)
      ensures stop.None? ==> Ready() && Mine().mem == state && Mine().max == old(Mine()).max
      ensures calm ==> Peaceful(old(world), world, stop)
    {
      hide IsPath, Effect, Enabled, MidHead, MidAttempts, MidEvidence, MidPublication, Fuel;
      MidSaveSelf(Mine(), repo);
      stop := Poll();
      if stop.None? {
        MidSaveSelf(Mine(), repo);
      }
    }

    /** The two phases that start a writable agent. */
    method RunCoding(max: nat, a: Answers) returns (stop: Option<Stop>)
      requires Ready() && Coding(state.phase) && Mine().max == max && status.Running?
      modifies this`world, this`run, this`repo, this`state, this`status, db
      ensures old(run.states) <= run.states && PhaseEnd(stop)
      ensures stop.None? ==> Outcome(old(state), old(repo), a, db.requestPr, state, status, repo)
      ensures old(HasPlan(state) && WillCode(state)) && old(state.attempts) >= max ==>
                stop == Some(Interrupted(ByLimit)) && state == old(state) && world == old(world)
      ensures calm && old(Tidy()) && old(Helps(state, a, max)) ==> Peaceful(old(world), world, stop)
      ensures calm && old(Tidy()) && stop.None? ==> repo == RepoAfter(old(state), old(repo), a) && Tidy()
    {
      hide IsPath, Effect, Enabled, AtPeace, Partial, FinalSave, Finished, MidHead, MidAttempts, MidEvidence,
        MidPublication, Fuel, ValidPlan, NoneRunnable, Runnable;
      if state.phase.Implement? {
        stop := ImplementPhase(max, a.blocked, a.made);
      } else {
        stop := RepairPhase(max, a.blocked, a.made);
      }
    }

    /** Verification, review and judgement. */
    method RunChecking(ghost max: nat, a: Answers) returns (stop: Option<Stop>)
      requires Ready() && status.Running? && (state.phase.Verify? || state.phase.ReviewWork? || state.phase.JudgeWork?)
      modifies this`world, this`run, this`repo, this`state, this`status, db
      ensures old(run.states) <= run.states && PhaseEnd(stop)
      ensures stop.None? ==> Outcome(old(state), old(repo), a, db.requestPr, state, status, repo)
      ensures calm && old(Tidy()) && old(Helps(state, a, max)) ==> Peaceful(old(world), world, stop)
      ensures calm && old(Tidy()) && stop.None? ==> repo == old(repo) && Tidy()
    {
      hide IsPath, Effect, Enabled, AtPeace, Partial, FinalSave, Finished, MidHead, MidAttempts, MidEvidence,
        MidPublication, Fuel, ValidPlan, JudgeReady, JudgeFindings, Recorded, AllPassed, FailedIds;
      if state.phase.Verify? {
        stop := VerifyPhase(a.exits, a.made);
      } else if state.phase.ReviewWork? {
        stop := ReviewPhase(a.review);
      } else {
        stop := JudgePhase(a.verdict);
      }
    }

    /** The phase of the state, which in the calm ends as the answers say. */
    method RunPhase(max: nat, a: Answers) returns (stop: Option<Stop>)
      requires Ready() && Mine().max == max && status.Running? && (state.phase.Prepare? ==> state == Mine().mem)
      modifies this`world, this`run, this`repo, this`state, this`status, db
      ensures old(run.states) <= run.states && PhaseEnd(stop)
      ensures stop.None? ==> Outcome(old(state), old(repo), a, db.requestPr, state, status, repo)
      ensures old(HasPlan(state) && WillCode(state)) && old(state.attempts) >= max ==>
                stop == Some(Interrupted(ByLimit)) && state == old(state) && world == old(world)
      ensures calm && old(Tidy()) && old(Helps(state, a, max)) ==> Peaceful(old(world), world, stop)
      ensures calm && old(Spoilt(state, repo, a)) ==>
                Peaceful(old(world), world, stop) && (stop.None? ==> status.Blocked?)
      ensures calm && old(Tidy()) && stop.None? ==> repo == RepoAfter(old(state), old(repo), a) && Tidy()
    {
      hide IsPath, Effect, Enabled, AtPeace, Partial, FinalSave, Finished, MidHead, MidAttempts, MidEvidence,
        MidPublication, Fuel, ValidPlan, ReadyAt, Runnable, Implemented, Repaired, NoneRunnable, Verified, WorkReviewed,
        Judged;
      match state.phase
      case Prepare => stop := PreparePhase(a.base);
      case MakePlan => stop := PlanPhase(a.plan);
      case ReviewPlan => stop := PlanReviewPhase(a.review);
      case Implement => stop := RunCoding(max, a);
      case Verify => stop := RunChecking(max, a);
      case ReviewWork => stop := RunChecking(max, a);
      case JudgeWork => stop := RunChecking(max, a);
      case Repair => stop := RunCoding(max, a);
      case Deliver => stop := DeliverPhase(a.gh);
      case Unrecognized =>
        status := Failed;
        stop := None;
        UnrecognizedEnds(Mine(), state, repo);
    }

    /** What the first poll is followed by: recovery, then the phase. */
    method RecoverAndRun(max: nat, a: Answers) returns (stop: Option<Stop>)
      requires Ready() && Mine().max == max && status.Running? && state == Mine().mem
      modifies this`world, this`run, this`repo, this`state, this`status, db
      ensures old(run.states) <= run.states && PhaseEnd(stop)
      ensures old(Tidy()) && stop.None? ==> Outcome(old(state), old(repo), a, db.requestPr, state, status, repo)
      ensures (calm && AtPeace(old(world)) && old(Tidy()) && old(HasPlan(state) && WillCode(state))
               && old(state.attempts) >= max) ==>
                && stop == Some(Interrupted(ByLimit)) && Peaceful(old(world), world, None)
                && state == old(state).(agentAttempts := state.agentAttempts) && repo == old(repo)
      ensures calm && old(Tidy()) && old(Helps(state, a, max)) ==> Peaceful(old(world), world, stop)
      ensures calm && old(Spoilt(state, repo, a)) ==>
                Peaceful(old(world), world, stop) && (stop.None? ==> status.Blocked?)
      ensures calm && old(Tidy()) && stop.None? ==> repo == RepoAfter(old(state), old(repo), a) && Tidy()
    {
      hide IsPath, Effect, Enabled, Partial, FinalSave, Finished, MidHead, MidAttempts, MidEvidence, MidPublication,
        Fuel, AtPeace, Outcome, ValidPlan, Runnable;
      stop := None;
      if !state.phase.Prepare? {
        stop := Recover(a.rescued);
        if stop.Some? { return; }
      }
      ghost var recovered := state;
      stop := RunPhase(max, a);
      if stop.None? && old(Tidy()) {
        AttemptsDecideNothing(old(state), recovered.agentAttempts, old(repo), a, db.requestPr, state, status, repo);
      }
    }

    /** The statement that the phase ends with. */
    method WriteOutcome(final: Status, reason: string) returns (saved: Status)
      requires Valid() && world.worker.Owned? && FinalSave(Mine(), state, final, repo)
      requires final.Completed? && db.requestPr ==> Delivers(Mine(), state)
      modifies this`world, this`run, db
      ensures Valid() && old(run.states) <= run.states
      ensures world.worker == Finishing(saved, Consumed(old(Mine()).raised), old(Mine()).version)
      ensures EndedWith(old(world), world, state, final)
      ensures AtPeace(old(world)) ==> saved == final && db.reason == Clip(reason)
    {
      hide IsPath, Enabled, Effect, FinalSave, Fuel, SaveRow, EndedWith, AtPeace;
      EndSaveStep(world, state, final, reason);
      SavedAtPeace(world, Effect(world, InPhase(EndSave(state, final, reason))), state, final, reason);
      saved := db.Save(state, final, reason);
      Record(InPhase(EndSave(state, final, reason)));
    }

    method SaveOutcome(final: Status, reason: string) returns (actual: Option<Status>)
      requires Valid() && world.worker.Owned? && FinalSave(Mine(), state, final, repo)
      requires final.Completed? && db.requestPr ==> Delivers(Mine(), state)
      modifies this`world, this`run, db
      ensures Valid() && old(run.states) <= run.states
      ensures
        var o := old(Mine());
        if actual.Some? then world.worker == Finishing(actual.value, Consumed(o.raised), o.version)
        else world.worker.Idle?
      ensures calm ==> EndedWith(old(world), world, state, final)
      ensures calm && AtPeace(old(world)) ==> actual == Some(final) && db.reason == Clip(reason)
    {
      hide IsPath, FinalSave, Delivers, Consumed, EndedWith, AtPeace, Clip;
      var alive := Await();
      if !alive { return None; }
      var saved := WriteOutcome(final, reason);
      actual := Some(saved);
    }

    /** A cancelled activity still runs its `finally` block, under the status the phase has set so far. */
    method SaveCut()
      requires Valid() && world.worker.Owned? && Partial(Mine(), state, repo) && CutStatus(status)
      modifies this`world, this`run, db
      ensures Valid() && old(run.states) <= run.states && world.worker.Idle?
      ensures calm && old(db.status) !in {Completed, Failed, Canceled} ==>
                && db.snap == state && db.control == old(db.control) && db.version == old(db.version)
                && (status != Blocked ==> db.status == status)
    {
      hide IsPath, Enabled, Effect, Partial, Fuel;
      var alive := Await();
      if !alive { return; }
      CancelSaveStep(world, state, status, "");
      var _ := db.Save(state, status, "");
      Record(InPhase(CancelSave(state, status, "")));
    }

    method Acknowledge(outcome: Status, consumed: Control, version: nat) returns (result: Option<Status>)
      requires Valid() && world.worker == Finishing(outcome, consumed, version)
      modifies this`world, this`run, db
      ensures Valid() && old(run.states) <= run.states
      ensures if result.Some? then world.worker == Done(result.value) else world.worker.Idle?
      ensures calm ==> result == Some(outcome)
      ensures calm && consumed.NoControl? ==> world == old(world).(worker := world.worker)
    {
      hide IsPath, Enabled, Effect, Fuel;
      var alive := Await();
      if !alive { return None; }
      EndConsumeStep(world);
      if !consumed.NoControl? {
        db.ConsumeControl(consumed, version);
      }
      Record(Turn(EndConsume));
      result := Some(outcome);
    }

    /** The command whose interruption ends the phase. */
    static function AnswersTo(stop: Option<Stop>): Control {
      match stop
      case Some(Interrupted(why)) => if why.ByPause? then Pause else if why.ByCancel? then Cancel else NoControl
      case _ => NoControl
    }

    static function ByUser(stopped: Status): string {
      if stopped.Paused? then "Run paused by user" else "Run canceled by user"
    }

    static function ReasonOf(stop: Option<Stop>): string {
      match stop
      case Some(Interrupted(why)) =>
        if why.ByLimit? then "Run limit reached; extend limits to resume" else ByUser(StatusOf(why))
      case Some(Raised(message)) => message
      case _ => ""
    }

    static lemma ReasonsAre(message: string)
      ensures ReasonOf(Some(Raised(message))) == message
      ensures ReasonOf(Some(Interrupted(ByLimit))) == "Run limit reached; extend limits to resume"
      ensures ReasonOf(Some(Interrupted(ByPause))) == "Run paused by user"
      ensures ReasonOf(Some(Interrupted(ByCancel))) == "Run canceled by user"
    {
    }

    /** The final save, and then the acknowledgement of the command that it answers. */
    method SaveAndAnswer(final: Status, reason: string, answers: Control) returns (result: Option<Status>)
      requires Valid() && world.worker.Owned? && FinalSave(Mine(), state, final, repo)
      requires final.Completed? && db.requestPr ==> Delivers(Mine(), state)
      requires answers == Consumed(Mine().raised)
      modifies this`world, this`run, db
      ensures Valid() && old(run.states) <= run.states
      ensures if result.Some? then world.worker == Done(result.value) else world.worker.Idle?
      ensures calm && AtPeace(old(world)) && answers.NoControl? ==>
                result == Some(final) && EndedWith(old(world), world, state, final) && db.reason == Clip(reason)
    {
      hide IsPath, Effect, Enabled, FinalSave, Fuel, AtPeace, Delivers, Consumed, Clip;
      var version := world.worker.o.version;
      result := SaveOutcome(final, reason);
      if result.None? { return; }
      ghost var saved := world;
      result := Acknowledge(result.value, answers, version);
      assert calm && answers.NoControl? ==> world.row == saved.row;
    }

    /** The `finally` block: save the outcome, then acknowledge the command that interrupted it. */
    method Finish(stop: Option<Stop>) returns (result: Option<Status>)
      requires PhaseEnd(stop)
      modifies this`world, this`run, db
      ensures Valid() && old(run.states) <= run.states
      ensures if result.Some? then world.worker == Done(result.value) else world.worker.Idle?
      ensures calm && AtPeace(old(world)) && (stop.None? || stop == Some(Interrupted(ByLimit))) ==>
                && result == Some(if stop.None? then status else Exhausted)
                && EndedWith(old(world), world, state, if stop.None? then status else Exhausted)
      ensures calm && AtPeace(old(world)) && stop.Some? && stop.value.Raised? ==>
                result == Some(Blocked) && EndedWith(old(world), world, state, Blocked)
      ensures (calm && AtPeace(old(world))
               && (stop == Some(Interrupted(ByLimit)) || (stop.Some? && stop.value.Raised?))) ==>
                db.reason == Clip(ReasonOf(stop))
    {
      hide IsPath, Effect, Enabled, MidSave, Partial, FinalSave, Fuel, AtPeace, Delivers, EndedWith, Clip, ReasonOf;
      if stop == Some(Died) { return None; }
      var cancelled := Fault();
      if cancelled && stop.Some? {
        StopIsPartial(Mine(), state, repo);
        SaveCut();
        return None;
      }
      var final := FinalStatusOf(stop, status);
      StopIsFinal(Mine(), state, final, stop, repo);
      result := SaveAndAnswer(final, ReasonOf(stop), AnswersTo(stop));
    }

    /** The owned part of a tick: one phase, and the save in which it ends whatever happened. */
    method RunOwned(max: nat, a: Answers) returns (result: Option<Status>)
      requires Owning() && status.Running? && Mine() == Begin(state, max, Mine().version)
      modifies this`world, this`run, this`repo, this`state, this`status, db
      ensures Valid() && old(run.states) <= run.states
      ensures if result.Some? then world.worker == Done(result.value) else world.worker.Idle?
      ensures calm && AtPeace(old(world)) && old(Tidy()) && old(Helps(state, a, max)) ==>
                && result.Some? && EndedWith(old(world), world, db.snap, result.value)
                && Outcome(old(state), old(repo), a, db.requestPr, db.snap, result.value, repo)
                && repo == RepoAfter(old(state), old(repo), a) && AtHeadOf(db.snap, repo)
      ensures (calm && AtPeace(old(world)) && old(Tidy()) && old(HasPlan(state) && WillCode(state))
               && old(state.attempts) >= max) ==>
                && result == Some(Exhausted) && EndedWith(old(world), world, db.snap, Exhausted)
                && db.snap == old(state).(agentAttempts := db.snap.agentAttempts) && repo == old(repo)
      ensures calm && AtPeace(old(world)) && old(Spoilt(state, repo, a)) ==>
                result == Some(Blocked) && EndedWith(old(world), world, db.snap, Blocked)
    {
      hide IsPath, Effect, Enabled, Partial, FinalSave, Finished, MidSave, Fuel, AtPeace, Outcome, Helps, HasPlan,
        WillCode, Spoilt, Clip, ReasonOf;
      var stop := FirstPoll();
      if stop.None? {
        stop := RecoverAndRun(max, a);
      }
      result := Finish(stop);
    }

    /** The row is read again under the lock; nothing was written before. */
    method LockAndLoad(attach: bool) returns (row: Option<Row>)
      requires Valid() && Enabled(world, Attempt(Acquire(attach)))
      modifies this`world, this`run, db
      ensures Valid() && old(run.states) <= run.states
      ensures if row.Some? then world.worker == Decide(row.value) else world.worker.Idle?
      ensures calm ==>
                && row == Some(old(world).row) && world.row == old(world).row && world.attached == attach
                && world.flow == old(world).flow
    {
      hide IsPath, Fuel, Permitted, Decide;
      Record(Attempt(Acquire(attach)));
      var alive := Await();
      if !alive { return None; }
      var current := db.Load();
      Record(Turn(LoadRow));
      row := Some(current);
    }

    /** A stop is saved, with the state as it was loaded. */
    method SaveHalt(row: Row) returns (alive: bool)
      requires Valid() && world.worker == Halting(row.control, row.version, row.snap, false)
      modifies this`world, this`run, db
      ensures Valid() && old(run.states) <= run.states
      ensures world.worker == if alive then Halting(row.control, row.version, row.snap, true) else Idle
    {
      hide IsPath, Enabled, Effect, SaveRow, ConsumeRow, ByUser;
      alive := Await();
      if !alive { return; }
      var stopped := HaltStatus(row.control);
      var why := ByUser(stopped);
      var _ := db.Save(row.snap, stopped, why);
      HaltSaveStep(world, why);
      Record(Turn(HaltSave(why)));
    }

    /** And acknowledged. */
    method AnswerHalt(row: Row) returns (alive: bool)
      requires Valid() && world.worker == Halting(row.control, row.version, row.snap, true)
      modifies this`world, this`run, db
      ensures Valid() && old(run.states) <= run.states
      ensures world.worker == if alive then Done(HaltStatus(row.control)) else Idle
    {
      hide IsPath, Enabled, Effect, SaveRow, ConsumeRow;
      alive := Await();
      if !alive { return; }
      db.ConsumeControl(row.control, row.version);
      HaltConsumeStep(world);
      Record(Turn(HaltConsume));
    }

    /** A pause or cancel found at the start: saved without any work, then acknowledged. */
    method Halt(row: Row) returns (result: Option<Status>)
      requires Valid() && world.worker == Halting(row.control, row.version, row.snap, false)
      modifies this`world, this`run, db
      ensures Valid() && old(run.states) <= run.states
      ensures if result.Some? then world.worker == Done(result.value) else world.worker.Idle?
      ensures result.Some? && row.control == Pause ==> result == Some(Paused)
      ensures result.Some? && row.control == Cancel ==> result == Some(Canceled)
    {
      hide IsPath;
      var alive := SaveHalt(row);
      if !alive { return None; }
      alive := AnswerHalt(row);
      result := if alive then Some(HaltStatus(row.control)) else None;
    }

    /** The counters start again, and what the user had to say is appended. */
    method EditForResume(row: Row)
      requires state == row.snap
      modifies this`state
      ensures state == ResumeEdit(row.snap, row.clarification)
      ensures state == row.snap.(failureCount := 0, repeatedFailures := 0, lastFailed := None,
                                 clarifications := if row.clarification == "" then row.snap.clarifications
                                                   else row.snap.clarifications + [row.clarification])
    {
      if row.clarification != "" {
        state := state.(clarifications := state.clarifications + [row.clarification]);
      }
      state := state.(failureCount := 0, repeatedFailures := 0, lastFailed := None);
    }

    /** The resumed state is saved as running. */
    method SaveResume(row: Row) returns (alive: bool)
      requires Valid() && world.worker == Resuming(row.version, state, row.maxAttempts, false)
      modifies this`world, this`run, db
      ensures Valid() && old(run.states) <= run.states
      ensures world.worker == if alive then Resuming(row.version, state, row.maxAttempts, true) else Idle
    {
      hide IsPath, Enabled, Effect, SaveRow, ConsumeRow, Begin;
      alive := Await();
      if !alive { return; }
      var _ := db.Save(state, Running, "");
      ResumeSaveStep(world);
      Record(Turn(ResumeSave));
    }

    /** Only then is the command consumed. */
    method AnswerResume(row: Row) returns (alive: bool)
      requires Valid() && world.worker == Resuming(row.version, state, row.maxAttempts, true)
      modifies this`world, this`run, db
      ensures Valid() && old(run.states) <= run.states
      ensures if alive then world.worker == Owned(Begin(state, row.maxAttempts, row.version)) else world.worker.Idle?
    {
      hide IsPath, Enabled, Effect, SaveRow, ConsumeRow, Begin;
      alive := Await();
      if !alive { return; }
      db.ConsumeControl(Resume, row.version);
      ResumeConsumeStep(world);
      Record(Turn(ResumeConsume));
    }

    /** A resume found at the start: the state is edited, saved, and the command consumed. */
    method ApplyResume(row: Row) returns (alive: bool)
      requires Valid() && state == row.snap && status.Running?
      requires world.worker == Resuming(row.version, ResumeEdit(row.snap, row.clarification), row.maxAttempts, false)
      modifies this`world, this`run, this`state, db
      ensures Valid() && old(run.states) <= run.states
      ensures if alive then world.worker == Owned(Begin(state, row.maxAttempts, row.version)) else world.worker.Idle?
      ensures state == row.snap.(failureCount := 0, repeatedFailures := 0, lastFailed := None,
                                 clarifications := if row.clarification == "" then row.snap.clarifications
                                                   else row.snap.clarifications + [row.clarification])
    {
      hide IsPath, ResumeEdit, Begin;
      EditForResume(row);
      alive := SaveResume(row);
      if !alive { return; }
      alive := AnswerResume(row);
    }

    /** What the loaded row asks for: nothing, a stop, a resume, and otherwise one phase. */
    method Act(row: Row, a: Answers) returns (result: Option<Status>)
      requires Valid() && world.worker == Decide(row)
      modifies this`world, this`run, this`repo, this`state, this`status, db
      ensures Valid() && old(run.states) <= run.states
      ensures if result.Some? then world.worker == Done(result.value) else world.worker.Idle?
      ensures (calm && row == old(world).row && AtPeace(old(world)) && old(AtHeadOf(db.snap, repo))
               && old(Helps(db.snap, a, db.maxAttempts))) ==>
                && result.Some? && EndedWith(old(world), world, db.snap, result.value)
                && Outcome(old(db.snap), old(repo), a, db.requestPr, db.snap, result.value, repo)
                && repo == RepoAfter(old(db.snap), old(repo), a) && AtHeadOf(db.snap, repo)
      ensures (calm && row == old(world).row && AtPeace(old(world)) && old(AtHeadOf(db.snap, repo))
               && old(HasPlan(db.snap) && WillCode(db.snap) && db.snap.attempts >= db.maxAttempts)) ==>
                && result == Some(Exhausted) && EndedWith(old(world), world, db.snap, Exhausted)
                && db.snap == old(db.snap).(agentAttempts := db.snap.agentAttempts) && repo == old(repo)
      ensures calm && row == old(world).row && AtPeace(old(world)) && old(Spoilt(db.snap, repo, a)) ==>
                result == Some(Blocked) && EndedWith(old(world), world, db.snap, Blocked)
    {
      hide IsPath, Effect, Enabled, Fuel, Outcome, Helps, WillCode, HasPlan, Spoilt, AtHeadOf, ResumeEdit;
      if Terminal(row.status) {
        return Some(row.status);
      }
      if row.control.Pause? || row.control.Cancel? {
        result := Halt(row);
        return;
      }
      if Waiting(row.status) && !row.control.Resume? {
        return Some(row.status);
      }
      state, status := row.snap, Running;
      if row.control.Resume? {
        var alive := ApplyResume(row);
        if !alive { return None; }
      }
      result := RunOwned(row.maxAttempts, a);
    }

    /** An active run that waits for its next activity attempt, with nothing pending or unsaved. */
    ghost predicate Steady()
      reads this, db
    {
      && Valid() && world.worker.Idle? && !world.attached && world.flow.InTick?
      && db.control.NoControl? && Active(db.status) && AtHeadOf(db.snap, repo)
    }

    /** What a tick of a steady run in the calm leaves: its result to be taken, and a row that says the same. */
    ghost predicate Ticked(result: Option<Status>, max: nat)
      reads this, db
    {
      && Valid() && result == Some(db.status) && world.worker == Done(db.status) && world.attached && world.flow.InTick?
      && db.control.NoControl? && db.maxAttempts == max && AtHeadOf(db.snap, repo)
    }

    /**
     One activity attempt that got the repository lock: load the row, obey a pending command, and
     otherwise run one phase. `None` means that the process died or the activity was cancelled. In
     the calm the tick of a steady run has exactly the outcome that the answers decide.
     */
    method Tick(attach: bool, a: Answers) returns (result: Option<Status>)
      requires Valid() && Enabled(world, Attempt(Acquire(attach)))
      modifies this`world, this`run, this`repo, this`state, this`status, db
      ensures Valid() && old(run.states) <= run.states
      ensures if result.Some? then world.worker == Done(result.value) else world.worker.Idle?
      ensures calm && attach && old(Steady()) && old(Helps(db.snap, a, db.maxAttempts)) ==>
                && Ticked(result, old(db.maxAttempts))
                && Outcome(old(db.snap), old(repo), a, db.requestPr, db.snap, db.status, repo)
                && repo == RepoAfter(old(db.snap), old(repo), a)
      ensures (calm && attach && old(Steady())
               && old(HasPlan(db.snap) && WillCode(db.snap) && db.snap.attempts >= db.maxAttempts)) ==>
                && Ticked(result, old(db.maxAttempts)) && db.status.Exhausted?
                && db.snap == old(db.snap).(agentAttempts := db.snap.agentAttempts) && repo == old(repo)
    {
      hide IsPath, Effect, Enabled, Fuel, Outcome, Helps, WillCode, HasPlan, Decide;
      var row := LockAndLoad(attach);
      if row.None? { return None; }
      result := Act(row.value, a);
    }
  }
}
