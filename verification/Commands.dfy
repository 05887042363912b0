/**
 What the protocol promises about commands and statuses, over every interleaving: no wake-up is
 lost, no accepted command is dropped or outrun, and terminal statuses stay.
 */
module Commands {
  import opened Prelude
  import opened Rows
  import opened Phases
  import opened Protocol

  /** Whatever command is pending is newer than version v. */
  ghost predicate Newer(r: Row, v: nat) {
    !r.control.NoControl? ==> r.version > v
  }

  /** Command c was seen at version v: it is still there, consumed, or superseded. */
  ghost predicate Observed(r: Row, c: Control, v: nat) {
    v <= r.version && (r.version == v ==> r.control == c || r.control.NoControl?)
  }

  ghost predicate UserStop(c: Control) { c.Pause? || c.Cancel? }

  ghost predicate StoppedFor(r: Row, c: Control) {
    Terminal(r.status) || (c.Pause? && r.status.Paused?)
  }

  // ----- The invariant

  ghost predicate Versions(w: World) {
    && w.loaded <= w.row.version && w.drained <= w.row.version
    && (forall v :: v in w.owed ==> v <= w.row.version)
    && (forall v :: v in w.delivered ==> v <= w.row.version)
    && (w.row.status.Completed? ==> !UserStop(w.row.control))
  }

  ghost predicate Interrupted(w: World, o: OwnedTick) {
    match o.raised
    case None => true
    case Some(i) =>
      && (i.ByPause? ==> Observed(w.row, Pause, o.version) && o.version > w.loaded)
      && (i.ByCancel? ==> Terminal(w.row.status) || (Observed(w.row, Cancel, o.version) && o.version > w.loaded))
  }

  ghost predicate WorkerKnows(w: World) {
    match w.worker
    case Idle => true
    case Starting => true
    case Halting(cmd, v, _, stopped) =>
      && v == w.loaded && UserStop(cmd) && Observed(w.row, cmd, v) && !w.row.status.Completed?
      && (stopped ==> StoppedFor(w.row, cmd))
    case Resuming(v, _, _, _) => v == w.loaded && Observed(w.row, Resume, v) && !w.row.status.Completed?
    case Owned(o) => w.loaded <= o.version && Newer(w.row, w.loaded) && !w.row.status.Completed? && Interrupted(w, o)
    case Finishing(result, c, v) =>
      && Newer(w.row, w.loaded) && (Terminal(result) ==> Terminal(w.row.status))
      && (UserStop(c) ==> StoppedFor(w.row, c))
      && (c.Pause? ==> Observed(w.row, c, v) && v > w.loaded && !w.row.status.Completed?)
      && !c.Resume?
    case Done(result) => (Waiting(result) ==> Newer(w.row, w.loaded)) && (Terminal(result) ==> Terminal(w.row.status))
  }

  /** While the workflow waits with an empty queue, every delivered signal predates its last drain. */
  ghost predicate FlowKnows(w: World) {
    && (w.attached ==> w.flow.InTick? && !w.worker.Idle?)
    && (w.flow.InTick? || w.flow.BlockedOnSignal? ==> w.queue == 0 ==> forall v :: v in w.delivered ==> v <= w.drained)
    && (w.attached && !w.worker.Starting? ==> w.drained <= w.loaded)
    && (w.flow.BlockedOnSignal? ==> Newer(w.row, w.drained))
    && (w.flow.Returned? ==> Terminal(w.row.status))
  }

  ghost predicate CommandInv(w: World) {
    Versions(w) && WorkerKnows(w) && FlowKnows(w)
  }

  lemma InitialCommandInv(w: World)
    requires Initial(w)
    ensures CommandInv(w)
  {
  }

  lemma ApiKeepsVersions(w: World, a: ApiAction)
    requires CommandInv(w) && ApiPossible(w, a)
    ensures Versions(ApiEffect(w, a))
  {
    hide FlowKnows, WorkerKnows;
  }

  lemma ApiKeepsFlow(w: World, a: ApiAction)
    requires CommandInv(w) && ApiPossible(w, a)
    ensures FlowKnows(ApiEffect(w, a))
  {
    hide WorkerKnows;
  }

  /** A command that arrives is newer than all that a worker knows. */
  lemma CommandKeepsWorker(w: World, cmd: Command)
    requires CommandInv(w) && Accepts(w.row, cmd)
    ensures WorkerKnows(w.(row := ControlRow(w.row, cmd)))
  {
    hide FlowKnows;
  }

  lemma RepairKeepsWorker(w: World, st: Status, why: string)
    requires CommandInv(w) && (st.Canceled? || st.Failed?)
    ensures WorkerKnows(w.(row := EndRow(w.row, st, why)))
  {
    hide FlowKnows;
  }

  /** What the worker knows depends on nothing but itself, the row, and the version it loaded. */
  lemma WorkerKnowsTheRow(w: World, n: World)
    requires WorkerKnows(w) && n.worker == w.worker && n.row == w.row && n.loaded == w.loaded
    ensures WorkerKnows(n)
  {
  }

  lemma ApiKeepsWorker(w: World, a: ApiAction)
    requires CommandInv(w) && ApiPossible(w, a)
    ensures WorkerKnows(ApiEffect(w, a))
  {
    hide FlowKnows, WorkerKnows, Versions, ControlRow, EndRow;
    var n := ApiEffect(w, a);
    match a
    case AcceptCommand(cmd) =>
      CommandKeepsWorker(w, cmd);
      WorkerKnowsTheRow(w.(row := ControlRow(w.row, cmd)), n);
    case EndRun(why) =>
      var st := if w.flow.Aborted? && w.flow.canceled then Canceled else Failed;
      RepairKeepsWorker(w, st, why);
      WorkerKnowsTheRow(w.(row := EndRow(w.row, st, why)), n);
    case _ => WorkerKnowsTheRow(w, n);
  }

  lemma ApiKeepsCommands(w: World, a: ApiAction)
    requires CommandInv(w) && ApiPossible(w, a)
    ensures CommandInv(ApiEffect(w, a))
  {
    hide Versions, FlowKnows, WorkerKnows, ApiEffect;
    ApiKeepsVersions(w, a);
    ApiKeepsFlow(w, a);
    ApiKeepsWorker(w, a);
  }

  lemma FlowKeepsCommands(w: World, a: FlowAction)
    requires CommandInv(w) && FlowPossible(w, a)
    ensures CommandInv(FlowEffect(w, a))
  {
  }

  lemma AttemptKeepsCommands(w: World, a: AttemptAction)
    requires CommandInv(w) && AttemptPossible(w, a)
    ensures CommandInv(AttemptEffect(w, a))
  {
  }

  lemma TurnKeepsCommands(w: World, a: TurnAction)
    requires CommandInv(w) && TurnPossible(w, a)
    ensures CommandInv(TurnEffect(w, a))
  {
  }

  lemma PhaseKeepsFlow(w: World, a: PhaseAction)
    requires CommandInv(w) && PhasePossible(w, a)
    ensures FlowKnows(PhaseEffect(w, a))
  {
    hide WorkerKnows, Fuel;
  }

  lemma PhaseKeepsWorker(w: World, a: PhaseAction)
    requires CommandInv(w) && PhasePossible(w, a)
    ensures WorkerKnows(PhaseEffect(w, a))
  {
    hide FlowKnows, Fuel;
  }

  lemma PhaseKeepsVersions(w: World, a: PhaseAction)
    requires CommandInv(w) && PhasePossible(w, a)
    ensures Versions(PhaseEffect(w, a))
  {
    hide FlowKnows, Fuel;
  }

  lemma PhaseKeepsCommands(w: World, a: PhaseAction)
    requires CommandInv(w) && PhasePossible(w, a)
    ensures CommandInv(PhaseEffect(w, a))
  {
    hide FlowKnows, WorkerKnows, Versions, PhaseEffect;
    PhaseKeepsFlow(w, a);
    PhaseKeepsWorker(w, a);
    PhaseKeepsVersions(w, a);
  }

  lemma StepKeepsCommands(w: World, a: Action)
    requires CommandInv(w) && Enabled(w, a)
    ensures CommandInv(Effect(w, a))
  {
    hide CommandInv;
    match a
    case Api(x) => ApiKeepsCommands(w, x);
    case Workflow(x) => FlowKeepsCommands(w, x);
    case Attempt(x) => AttemptKeepsCommands(w, x);
    case Turn(x) => TurnKeepsCommands(w, x);
    case InPhase(x) => PhaseKeepsCommands(w, x);
  }

  lemma {:induction false} CommandInvAlways(r: Run, i: nat)
    requires IsRun(r) && i < |r.states|
    ensures CommandInv(r.states[i])
  {
    hide Effect, Enabled, CommandInv;
    if i == 0 {
      InitialCommandInv(r.states[0]);
    } else {
      CommandInvAlways(r, i - 1);
      assert StepAt(r, i - 1);
      StepKeepsCommands(r.states[i - 1], r.actions[i - 1]);
    }
  }

  // ----- No lost wake-up

  /**
   Whenever the workflow is blocked with an empty queue while a command is pending, no wake signal
   for that command has been delivered yet. And a tick that handed its waiting result over leaves
   pending only commands newer than the row it had loaded.
   */
  lemma NoLostWakeUp(r: Run, i: nat)
    requires IsRun(r) && i < |r.states|
    ensures
      var w := r.states[i];
      && (w.flow.BlockedOnSignal? && w.queue == 0 && !w.row.control.NoControl? ==> w.row.version !in w.delivered)
      && (w.worker.Done? && Waiting(w.worker.result) && !w.row.control.NoControl? ==> w.row.version > w.loaded)
  {
    hide Effect, Enabled;
    CommandInvAlways(r, i);
  }

  // ----- Every pending command can still be answered

  function AnswerTo(c: Control): Status
    requires !c.NoControl?
  {
    match c
    case Pause => Paused
    case Cancel => Canceled
    case Resume => Running
  }

  /** A flow that can take the run over: its worker is gone, and it is at its loop or waits for an attempt. */
  ghost predicate Free(w: World) {
    w.worker.Idle? && !w.attached && (w.flow.AtLoop? || w.flow.InTick?)
  }

  /** A blocked workflow with a command pending is woken by the reconciler's next pass. */
  lemma ReconcilerWakes(r: Run) returns (n: Run)
    requires r.states != [] && IsPath(r) && Last(r).flow.BlockedOnSignal?
    requires !Terminal(Last(r).row.status) && !Last(r).row.control.NoControl?
    ensures Extends(r, n) && Last(n).row == Last(r).row && Last(n).worker == Last(r).worker
    ensures Last(n).attached == Last(r).attached && Last(n).flow == AtLoop(Last(r).flow.tick + 1)
  {
    hide IsPath, Permitted;
    n := Extend(r, Api(NoticeCommand));
    n := Extend(n, Api(SendSignal(Last(r).row.version)));
    n := Extend(n, Workflow(Receive));
  }

  /** A workflow whose last attempt has died, or that never began, gets to where an attempt may start. */
  lemma FlowBecomesFree(r: Run) returns (n: Run)
    requires r.states != [] && IsPath(r) && Last(r).worker.Idle? && !Last(r).attached
    requires !Terminal(Last(r).row.status) && !Last(r).row.control.NoControl?
    requires IsRunning(Last(r).flow) || Last(r).flow.NotStarted?
    ensures Extends(r, n) && Last(n).row == Last(r).row && Free(Last(n))
  {
    hide IsPath, Permitted;
    if Last(r).flow.BlockedOnSignal? {
      n := ReconcilerWakes(r);
    } else if Last(r).flow.NotStarted? {
      n := Extend(r, Api(StartFlow));
    } else {
      n := r;
    }
  }

  lemma AttemptTakesOver(r: Run) returns (n: Run)
    requires r.states != [] && IsPath(r) && Free(Last(r))
    ensures Extends(r, n) && Last(n).row == Last(r).row && Last(n).worker == Decide(Last(r).row)
    ensures Last(n).flow.InTick?
  {
    hide IsPath, Permitted, Decide;
    n := r;
    if Last(n).flow.AtLoop? {
      if Last(n).flow.tick >= 100 {
        n := Extend(n, Workflow(ContinueAsNew));
      }
      n := Extend(n, Workflow(Drain));
    }
    n := Extend(n, Attempt(Acquire(true)));
    n := Extend(n, Turn(LoadRow));
  }

  lemma TickAnswers(r: Run) returns (n: Run)
    requires r.states != [] && IsPath(r) && Last(r).worker == Decide(Last(r).row)
    requires !Terminal(Last(r).row.status) && !Last(r).row.control.NoControl?
    ensures Extends(r, n) && Last(n).row.version == Last(r).row.version && Last(n).row.control.NoControl?
    ensures Last(n).row.status == AnswerTo(Last(r).row.control)
  {
    hide IsPath, Permitted, Begin;
    if Last(r).row.control.Resume? {
      n := Extend(r, Turn(ResumeSave));
      n := Extend(n, Turn(ResumeConsume));
    } else {
      n := Extend(r, Turn(HaltSave("stopped by user")));
      n := Extend(n, Turn(HaltConsume));
    }
  }

  lemma AnswerFrom(w: World) returns (n: Run)
    requires CommandInv(w) && !Terminal(w.row.status) && !w.row.control.NoControl?
    ensures n.states != [] && IsPath(n) && n.states[0] == w
    ensures if w.flow.Aborted? then Terminal(Last(n).row.status)
            else Last(n).row.version == w.row.version && Last(n).row.control.NoControl?
                 && Last(n).row.status == AnswerTo(w.row.control)
  {
    hide WorkerKnows, Permitted, Decide;
    n := Run([w], []);
    assert IsPath(n);
    hide IsPath;
    if !w.worker.Idle? {
      n := Extend(n, Attempt(Crash));
    }
    if w.flow.Aborted? {
      n := Extend(n, Api(EndRun("closed from outside")));
    } else {
      n := FlowBecomesFree(n);
      n := AttemptTakesOver(n);
      n := TickAnswers(n);
    }
  }

  /**
   From every reachable state with a pending command some continuation answers exactly that command:
   paused, canceled or running again, and consumed. Only an execution closed from outside cannot;
   the reconciler then makes the run terminal.
   */
  lemma PendingCommandCanBeAnswered(r: Run, i: nat) returns (n: Run)
    requires IsRun(r) && i < |r.states|
    requires !Terminal(r.states[i].row.status) && !r.states[i].row.control.NoControl?
    ensures n.states != [] && IsPath(n) && n.states[0] == r.states[i]
    ensures
      var w, e := r.states[i], Last(n);
      if w.flow.Aborted? then Terminal(e.row.status)
      else e.row.version == w.row.version && e.row.control.NoControl? && e.row.status == AnswerTo(w.row.control)
  {
    hide Effect, Enabled;
    CommandInvAlways(r, i);
    n := AnswerFrom(r.states[i]);
  }

  // ----- A resume may be applied again

  /** The command of version v is gone: consumed, or superseded. */
  ghost predicate Spent(r: Row, v: nat) {
    r.version > v || (r.version == v && r.control.NoControl?)
  }

  /** The resume of version v has been saved: its tick has still to acknowledge it, or it is gone. */
  ghost predicate Saved(w: World, v: nat) {
    if w.worker.Resuming? && w.worker.version == v then w.worker.resumed else Spent(w.row, v)
  }

  lemma TurnKeepsSaved(w: World, a: TurnAction, v: nat)
    requires CommandInv(w) && Saved(w, v) && TurnPossible(w, a)
    ensures Saved(TurnEffect(w, a), v)
  {
    hide FlowKnows, Versions, Begin, ResumeEdit;
  }

  lemma PhaseKeepsSaved(w: World, a: PhaseAction, v: nat)
    requires Saved(w, v) && PhasePossible(w, a)
    ensures Saved(PhaseEffect(w, a), v)
  {
    hide Fuel;
  }

  lemma StepKeepsSaved(w: World, a: Action, v: nat)
    requires CommandInv(w) && Saved(w, v) && Enabled(w, a) && a != Attempt(Crash)
    ensures Saved(Effect(w, a), v)
  {
    hide CommandInv, TurnEffect, PhaseEffect, Permitted, Decide;
    match a
    case Turn(x) => TurnKeepsSaved(w, x, v);
    case InPhase(x) => PhaseKeepsSaved(w, x, v);
    case _ =>
  }

  lemma {:induction false} SavedStays(r: Run, i: nat, j: nat)
    requires IsRun(r) && i < j < |r.states| && r.actions[i] == Turn(ResumeSave)
    requires forall k :: i < k < j ==> r.actions[k] != Attempt(Crash)
    ensures r.states[i].worker.Resuming? && Saved(r.states[j], r.states[i].worker.version)
    decreases j
  {
    hide CommandInv, Permitted, FlowKnows, Decide;
    assert StepAt(r, i);
    if j > i + 1 {
      SavedStays(r, i, j - 1);
      CommandInvAlways(r, j - 1);
      assert StepAt(r, j - 1);
      hide Effect, Enabled, Saved;
      StepKeepsSaved(r.states[j - 1], r.actions[j - 1], r.states[i].worker.version);
    }
  }

  /** One accepted resume is saved twice only if a process died in between. */
  lemma ResumeRepeatsOnlyAfterDeath(r: Run, i: nat, j: nat)
    requires IsRun(r) && i < j < |r.actions| && r.actions[i] == r.actions[j] == Turn(ResumeSave)
    ensures r.states[i].worker.Resuming? && r.states[j].worker.Resuming?
    ensures r.states[i].worker.version == r.states[j].worker.version ==>
              exists k :: i < k < j && r.actions[k] == Attempt(Crash)
  {
    hide CommandInv, Permitted;
    assert StepAt(r, i) && StepAt(r, j);
    if forall k :: i < k < j ==> r.actions[k] != Attempt(Crash) {
      SavedStays(r, i, j);
    }
  }

  lemma SaveResume(r: Run) returns (n: Run)
    requires r.states != [] && IsPath(r) && Last(r).worker == Decide(Last(r).row)
    requires !Terminal(Last(r).row.status) && Last(r).row.control.Resume?
    ensures Extends(r, n) && Last(n).flow == Last(r).flow && !Last(n).worker.Idle?
    ensures
      var row := Last(r).row;
      var edited := ResumeEdit(row.snap, row.clarification);
      && Last(n).worker == Resuming(row.version, edited, row.maxAttempts, true)
      && Last(n).row == row.(status := Running, reason := "", snap := edited)
  {
    hide IsPath, Permitted;
    n := Extend(r, Turn(ResumeSave));
  }

  /** And it can be: a death between the save and the acknowledgement has the next tick append its note again. */
  lemma ResumeCanRepeat(r: Run) returns (n: Run)
    requires r.states != [] && IsPath(r) && Free(Last(r))
    requires Waiting(Last(r).row.status) && Last(r).row.control.Resume? && Last(r).row.clarification != ""
    ensures Extends(r, n) && Last(n).row.control.NoControl? && Last(n).row.version == Last(r).row.version
    ensures
      var note := Last(r).row.clarification;
      Last(n).row.snap.clarifications == Last(r).row.snap.clarifications + [note] + [note]
  {
    hide IsPath, Permitted, Begin, Decide, FlowEffect, ApiEffect, PhaseEffect, FlowPossible, PhasePossible;
    n := AttemptTakesOver(r);
    n := SaveResume(n);
    n := Extend(n, Attempt(Crash));
    n := AttemptTakesOver(n);
    n := SaveResume(n);
    n := Extend(n, Turn(ResumeConsume));
  }

  // ----- Terminal statuses

  ghost predicate KeepsOutcome(before: Row, after: Row) {
    after.status == before.status && (before.status.Completed? ==> after.snap == before.snap)
  }

  lemma TerminalTurn(w: World, a: TurnAction)
    requires CommandInv(w) && TurnPossible(w, a) && Terminal(w.row.status)
    ensures KeepsOutcome(w.row, TurnEffect(w, a).row)
  {
    hide FlowKnows;
  }

  lemma TerminalPhase(w: World, a: PhaseAction)
    requires CommandInv(w) && PhasePossible(w, a) && Terminal(w.row.status)
    ensures KeepsOutcome(w.row, PhaseEffect(w, a).row)
  {
    hide FlowKnows;
  }

  lemma TerminalStep(w: World, a: Action)
    requires CommandInv(w) && Enabled(w, a) && Terminal(w.row.status)
    ensures KeepsOutcome(w.row, Effect(w, a).row)
    ensures a.Api? && a.api.EndRun? ==> Effect(w, a).row == w.row
  {
    hide CommandInv, Permitted, TurnEffect, PhaseEffect;
    match a
    case Turn(x) => TerminalTurn(w, x);
    case InPhase(x) => TerminalPhase(w, x);
    case _ =>
  }

  /** Terminal statuses are absorbing, and the snapshot of a completed run never changes again. */
  lemma {:induction false} TerminalIsForever(r: Run, i: nat, j: nat)
    requires IsRun(r) && i <= j < |r.states| && Terminal(r.states[i].row.status)
    ensures KeepsOutcome(r.states[i].row, r.states[j].row)
    decreases j - i
  {
    hide Effect, Enabled, CommandInv;
    if i < j {
      TerminalIsForever(r, i, j - 1);
      CommandInvAlways(r, j - 1);
      assert StepAt(r, j - 1);
      TerminalStep(r.states[j - 1], r.actions[j - 1]);
    }
  }

  lemma NormalReturnIsTerminalNow(r: Run)
    requires IsRun(r) && r.states[|r.states| - 1].flow.Returned?
    ensures Terminal(r.states[|r.states| - 1].row.status)
  {
    hide Effect, Enabled;
    CommandInvAlways(r, |r.states| - 1);
  }

  /** The workflow returns normally only for a terminal row, so the reconciler then changes nothing. */
  lemma NormalReturnIsTerminal(r: Run, i: nat)
    requires IsRun(r) && i < |r.actions| && r.states[i].flow.Returned?
    ensures Terminal(r.states[i].row.status)
    ensures r.actions[i].Api? && r.actions[i].api.EndRun? ==> r.states[i + 1].row == r.states[i].row
  {
    hide Effect, Enabled;
    CommandInvAlways(r, i);
    assert StepAt(r, i);
    TerminalStep(r.states[i], r.actions[i]);
  }

  // ----- Commands are never dropped or outrun

  /** What has become of the stop command c accepted as version v. */
  ghost predicate Answered(w: World, c: Control, v: nat) {
    || w.row.version > v
    || (w.row.version == v && !w.row.status.Completed? && w.row.control == c)
    || (w.row.version == v && !w.row.status.Completed? && w.row.control.NoControl? && StoppedFor(w.row, c)
        && (Terminal(w.row.status) || w.worker.Idle? || w.worker.Starting? || w.worker.Done?))
  }

  lemma TurnKeepsAnswer(w: World, a: TurnAction, c: Control, v: nat)
    requires CommandInv(w) && TurnPossible(w, a) && UserStop(c) && Answered(w, c, v)
    ensures Answered(TurnEffect(w, a), c, v)
  {
    hide FlowKnows;
  }

  lemma PhaseKeepsAnswer(w: World, a: PhaseAction, c: Control, v: nat)
    requires CommandInv(w) && PhasePossible(w, a) && UserStop(c) && Answered(w, c, v)
    ensures Answered(PhaseEffect(w, a), c, v)
  {
    hide FlowKnows;
  }

  lemma StepKeepsAnswer(w: World, a: Action, c: Control, v: nat)
    requires CommandInv(w) && Enabled(w, a) && UserStop(c) && Answered(w, c, v)
    ensures Answered(Effect(w, a), c, v)
  {
    hide CommandInv, TurnEffect, PhaseEffect, Permitted;
    match a
    case Turn(x) => TurnKeepsAnswer(w, x, c, v);
    case InPhase(x) => PhaseKeepsAnswer(w, x, c, v);
    case _ =>
  }

  /**
   After an accepted pause or cancel, until a newer command replaces it, the run is never
   completed; the command disappears only by being consumed, and then the run is terminal (for a
   cancel) or paused or terminal (for a pause).
   */
  lemma {:induction false} CommandIsNotOutrun(r: Run, i: nat, j: nat)
    requires IsRun(r) && i <= j < |r.states|
    requires UserStop(r.states[i].row.control)
    ensures Answered(r.states[j], r.states[i].row.control, r.states[i].row.version)
    decreases j - i
  {
    hide Effect, Enabled;
    if i == j {
      CommandInvAlways(r, i);
    } else {
      CommandIsNotOutrun(r, i, j - 1);
      CommandInvAlways(r, j - 1);
      assert StepAt(r, j - 1);
      StepKeepsAnswer(r.states[j - 1], r.actions[j - 1], r.states[i].row.control, r.states[i].row.version);
    }
  }

  /** The command and version that the tick is about to acknowledge. */
  ghost predicate Acknowledges(worker: Worker, a: Action, c: Control, v: nat) {
    match worker
    case Halting(cmd, version, _, _) => a == Turn(HaltConsume) && c == cmd && v == version
    case Resuming(version, _, _, _) => a == Turn(ResumeConsume) && c.Resume? && v == version
    case Finishing(_, consume, version) => a == Turn(EndConsume) && c == consume && v == version
    case _ => false
  }

  /** One step of a pending command: kept, consumed as the version its tick observed, or replaced. */
  ghost predicate ConsumedOrReplaced(w: World, a: Action, next: Row) {
    || (next.control == w.row.control && next.version == w.row.version)
    || (a.Api? && a.api.AcceptCommand? && next.version == w.row.version + 1)
    || (Acknowledges(w.worker, a, w.row.control, w.row.version) && next.control.NoControl?
        && next.version == w.row.version)
  }

  lemma PendingInPhase(w: World, a: PhaseAction)
    requires PhasePossible(w, a)
    ensures PhaseEffect(w, a).row.control == w.row.control && PhaseEffect(w, a).row.version == w.row.version
  {
  }

  lemma PendingInTurn(w: World, a: TurnAction)
    requires TurnPossible(w, a) && !w.row.control.NoControl?
    ensures ConsumedOrReplaced(w, Turn(a), TurnEffect(w, a).row)
  {
    hide Decide, Begin;
  }

  lemma PendingStep(w: World, a: Action)
    requires Enabled(w, a) && !w.row.control.NoControl?
    ensures ConsumedOrReplaced(w, a, Effect(w, a).row)
  {
    hide Permitted, PhaseEffect, TurnEffect;
    if a.InPhase? { PendingInPhase(w, a.inner); }
    if a.Turn? { PendingInTurn(w, a.turn); }
  }

  /**
   A pending command vanishes only by a newer accepted command, or by the acknowledgement of the
   tick that observed exactly this command at exactly this version.
   */
  lemma CommandOnlyConsumedOrReplaced(r: Run, i: nat)
    requires IsRun(r) && i < |r.actions| && !r.states[i].row.control.NoControl?
    ensures ConsumedOrReplaced(r.states[i], r.actions[i], r.states[i + 1].row)
  {
    hide Effect, Enabled;
    assert StepAt(r, i);
    PendingStep(r.states[i], r.actions[i]);
  }
}
