# HarnessFlow: a verified model of the coding-run protocol

HarnessFlow drives coding agents through long runs that survive crashes. One run is a row in
Postgres and a snapshot of its state, written by four parties that know nothing of each other's
timing: the API accepts commands, a durable workflow drains wake signals and schedules ticks, a
worker's tick runs one of nine phases, and a reconciler repairs what got lost in between. This
project models that protocol, the two dependency-graph algorithms that runs and workflows rest on,
and three smaller cores, and proves what they promise.

## How it is built

- `Protocol.dfy` is the whole protocol as a transition system: every action is one SQL statement,
  one workflow step, one signal, or one effect outside the database. `Phases.dfy` says what a tick
  may save in the middle and at the end of each phase. Agent answers, verdicts and exit codes are
  inputs of a tick; Git results, the clock and the moments of crashes are free choices.
- `Commands`, `Obedience`, `Snapshots`, `Witnesses`, `Budget`, `Publication`, `Discipline`, `Progress`
  and `Affordability` prove theorems about all runs of that system, that is, about all interleavings.
- `Rows.dfy` is the row as an object whose methods are the single statements. `Engine.dfy` is the
  tick as the worker runs it: an object that changes its state dictionary phase by phase, polls,
  saves, and may die or be cancelled before any statement. Its history records each atomic step, and
  the methods prove that the history is always a path of the protocol, so what holds of all runs of
  the protocol holds of the engine; `Lifetime.dfy` draws the conclusion for any sequence of ticks,
  deaths and foreign writes. `ProjectFlow.dfy` does the same for the workflow loop and the
  reconciler's pass. `Endings.dfy` has the facts about saves that the phases share.
- `Outcomes.dfy` says what each phase makes of its answers, exactly. The engine's phases promise it,
  and its tick promises it for the row when the engine is `calm`: nobody else acts and nothing
  fails. `Completion.dfy` drives a calm engine through its workflow. That a run can complete is
  proved there, of the engine, since the protocol allows more than the engine does.
- `Names`, `Dependencies`, `Parser`, `Plans`, `Compiler` and `Deciders` hold the graph algorithms
  and what runs along their orders. `Workspace`, `Turns` with `Consumer`, and `Gate` are the smaller
  cores: `Consumer` is the event consumer as an object, `Turns` what its turns do to a topic.

`dafny verify dfyconfig.toml` checks everything.

## What the proofs showed about the code

- A message on which parsing raises anything but a JSONDecodeError, or an object with a value that the
  sink's schema refuses, ends the consumer before it commits, in every life: with it goes everything
  that the same poll returned, of whatever partition. A topic without JSON objects is not committed
  either, since only a batch is. How far commits can still come is an if and only if, for any way in
  which the broker hands the backlog out, in `Turns.CommitsPastExactlyWhen`; `Turns.StuckTopics` has an
  input for each failure, and `Turns.CleanTopicsAreCommitted` what is promised without them.
- A worktree whose creation died after its base file was created and before it was filled, or that left
  a directory without the run branch checked out, is lost to its run: no later `prepare` returns. If
  HEAD was already on the run branch, the next one does return, over a tree that lacks files. In every
  other state the next one that nothing befalls returns, if the run branch is checked out.
- A run that was asked for a pull request is completed only after one was listed or created for the
  pushed commit. The stored address is what gh gave, and so empty exactly if that was empty.
- An activity cancelled by its worker still saves its partial state, under the status of its phase and
  without acknowledging anything. Every invariant absorbs that save.
- A resume that is interrupted by a death between its save and its acknowledgement is applied again, and
  its clarification is then in the state twice (`Commands.ResumeCanRepeat`); nothing else repeats it.
- Delivery's guard passes exactly a clean tree at the commit that was judged and at which all checks
  passed (`Discipline.DeliveryPassesExactlyWhen`). If read-only agents and acceptance commands leave HEAD
  and the worktree alone it always passes; if they do not, `Completion.DeliveryCanBlock` is a run of the
  engine that it stops. Nobody edits the worktree between ticks in this model.

## Model

| member | source | states |
|---|---|---|
| `Commands.NoLostWakeUp` | apps/api/internal/workflow/project.go:36-64 | Over every interleaving of command writes, signal sends, lost signals, drains, ticks, crashes and continue-as-new: when the workflow is blocked with an empty queue and a command is pending, that command's wake signal has not been delivered yet; a waiting result handed over leaves pending only commands newer than the row its tick loaded |
| `Commands.PendingCommandCanBeAnswered` | apps/api/internal/server/projectservice.go:277-326 | From every reachable state with a pending command, crashes and lost signals behind it, some continuation answers exactly that command: paused, canceled or running again, and consumed; if the execution was closed from outside, the reconciler makes the run terminal |
| `Commands.ReconcilerWakes` | apps/api/internal/server/projectservice.go:319-323 | A pass of the reconciler brings a blocked workflow with a command pending back into its loop, the row untouched |
| `Commands.ResumeRepeatsOnlyAfterDeath` | apps/worker/harnessflow_worker/projects/engine.py:82-90 | One accepted resume is saved twice only if a process died between the two saves |
| `Commands.ResumeCanRepeat` | apps/worker/harnessflow_worker/projects/engine.py:82-90 | A death between the save of a resume and its acknowledgement has a next tick that appends the clarification a second time before the resume is consumed |
| `Commands.TerminalIsForever` | apps/worker/harnessflow_worker/projects/store.py:31-47 | Terminal statuses are absorbing for ever under any interleaving of all writers, and a completed run's snapshot never changes again |
| `Commands.NormalReturnIsTerminal` | apps/api/internal/workflow/project.go:46-48 | The workflow returns normally only when the row is terminal, so the reconciler's repair never alters a run that ended normally |
| `Commands.NormalReturnIsTerminalNow` | apps/api/internal/workflow/project.go:46-48 | The same, for the last state of a run: a returned workflow means a terminal row |
| `Commands.CommandIsNotOutrun` | apps/worker/harnessflow_worker/projects/store.py:31-60 | After an accepted pause or cancel, until a newer command replaces it, no save by anybody makes the run completed; the command disappears only by consumption, and then the run is terminal (cancel) or paused or terminal (pause) |
| `Commands.StepKeepsAnswer` | apps/worker/harnessflow_worker/projects/engine.py:426-442 | One step of any party keeps a stop command pending, answered, or superseded by a newer version |
| `Commands.CommandOnlyConsumedOrReplaced` | apps/worker/harnessflow_worker/projects/store.py:54-60 | A pending command vanishes only by a newer accepted command, or by the acknowledgement of the tick that observed exactly this command at exactly this version |
| `Commands.StepKeepsCommands` | apps/worker/harnessflow_worker/projects/engine.py:62-131 | The command invariant (versions observed, drained, delivered and consumed; what each worker and workflow state knows) is kept by every step |
| `Commands.CommandInvAlways` | apps/worker/harnessflow_worker/projects/engine.py:62-131 | The command invariant holds in every reachable state |
| `Obedience.TickObeysTheStop` | apps/worker/harnessflow_worker/projects/engine.py:118-131 | A pause or cancel accepted while a tick is at work stops it at its next poll: from then on it launches, pushes, polls and saves its work no more, and ends paused or canceled (or failed, if the run was ended from outside) with the command acknowledged, or dead |
| `Obedience.StopsAreNotExchanged` | apps/worker/harnessflow_worker/projects/store.py:31-52 | Over every interleaving a tick cancels over a pending pause only if a cancel interrupted it or was loaded, and pauses over a pending cancel only for a pause; a phase that ends completed, blocked or exhausted is canceled by a pending cancel and paused by a pending pause; an interrupted one ends as its interruption says |
| `Obedience.LoadedRowDecides` | apps/worker/harnessflow_worker/projects/engine.py:70-90 | An ended run is left alone, a pending pause or cancel obeyed first, a resume resets the counters and appends the clarification, a waiting run without one is left alone, any other goes on at its row |
| `Obedience.NoTickWithoutASignal` | apps/api/internal/workflow/project.go:49-51 | After a paused, blocked or exhausted result the workflow ticks again only once it has received a signal |
| `Obedience.NoTickAfterTheEnd` | apps/api/internal/workflow/project.go:46-48 | After a completed, failed or canceled result the workflow has returned and never ticks again |
| `Obedience.ResultDecides` | apps/api/internal/workflow/project.go:46-62 | Each of the eleven statuses a tick can return ends the workflow, makes it wait for a signal, or leads to the next tick |
| `Obedience.SignalsAreCounted` | apps/api/internal/workflow/project.go:36-51 | A signal sent is queued once and wakes the workflow once; draining discards what is queued |
| `Obedience.AcceptedCommandIsDue` | apps/api/internal/server/projectservice.go:223-241 | An accepted command met every condition of the service, is in the row under the next version with its limits added and its note kept, and its wake signal is due |
| `Obedience.RepairSaysHowItEnded` | apps/api/internal/server/projectservice.go:307-318 | The repair of an ended execution makes a run that is not terminal canceled if the execution was canceled and failed otherwise, and touches no other |
| `Snapshots.CompletedRunsCertifyThemselves` | apps/worker/harnessflow_worker/projects/engine.py:446-464 | In every reachable completed row the stored snapshot satisfies the completion predicate at the commit its judge assessed, and every requirement of a valid plan has a completed task, a check with the frozen argv that exited 0 at that commit, and exactly one verdict, which passed |
| `Snapshots.CompletedTasksAreAPrefix` | apps/worker/harnessflow_worker/projects/engine.py:240-277 | In every reachable state with a frozen plan the completed tasks are distinct, belong to the plan, form a topological prefix of its graph, and are all of its tasks in every phase after implementation |
| `Snapshots.PlanStaysFrozen` | apps/worker/harnessflow_worker/projects/engine.py:226-230 | Once a stored run is in implementation or later, its plan stays the same valid plan without open clarification in every later state, through repair, interruption and resume, and with it the plan review that passed without findings; the base commit is fixed too |
| `Snapshots.FreezingTakesTheReviewedPlan` | apps/worker/harnessflow_worker/projects/engine.py:214-239 | The only step that freezes a plan leads from plan review to implementation, keeps the plan that was reviewed, and stores a plan review that passed without findings |
| `Snapshots.StepKeepsSnapshots` | apps/worker/harnessflow_worker/projects/engine.py:165-443 | Plan, completed tasks, evidence, review and judgement fit the phase after every step, and while the row is not terminal the lock holder's snapshot is the stored one |
| `Snapshots.SnapshotInvAlways` | apps/worker/harnessflow_worker/projects/engine.py:165-443 | The snapshot invariant holds in every reachable state |
| `Snapshots.FinalSaveFits` | apps/worker/harnessflow_worker/projects/engine.py:435-443 | Whatever way a phase ends by itself, with a result, an exception or an interruption, the snapshot its last save stores fits its phase |
| `Snapshots.PhaseSavesFit` | apps/worker/harnessflow_worker/projects/engine.py:118-131 | Every save a tick may make fits its phase: a poll's, the final one, and the one that the finally block still makes when the activity is cancelled; a completed one certifies itself |
| `Snapshots.AllTasksCompleted` | apps/worker/harnessflow_worker/projects/engine.py:244-249 | When implementation finds no runnable task, every task of the plan is completed |
| `Witnesses.CompletedChecksWereRun` | apps/worker/harnessflow_worker/projects/engine.py:285-301 | Every check of a completed run was really run: some process with exactly its argv exited with 0, for the commit that the run is certified at and, under the discipline, with that commit checked out |
| `Witnesses.StepKeepsWitnesses` | apps/worker/harnessflow_worker/projects/engine.py:285-301 | One step of any party keeps it: every entry of evidence stored or held has the argv, commit and exit code of a check process that has exited |
| `Witnesses.RunsAtHead` | apps/worker/harnessflow_worker/projects/engine.py:281-301 | In every state of a run under the discipline each check process has exited with the commit checked out that its entry records |
| `Budget.LaunchesStayWithinBudget` | apps/worker/harnessflow_worker/projects/engine.py:251-253 | Over the whole run, crashes and resumes included, writable agent launches never exceed max_attempts, and max_attempts equals its start value plus what accepted resumes granted |
| `Budget.LaunchesAreCounted` | apps/worker/harnessflow_worker/projects/engine.py:139-154 | The launches counted are exactly the steps of the run that start a writable agent |
| `Budget.LaunchIsPaidFor` | apps/worker/harnessflow_worker/projects/engine.py:139-154 | When a writable agent starts, the stored attempt counter already exceeds the number of launches, unless the run has ended |
| `Budget.AllPushesAgree` | apps/worker/harnessflow_worker/projects/engine.py:573-617 | Across every retry and crash all pushes of a run go to one identical target whose base is the saved base commit, each pushing a commit for which the completion predicate held |
| `Budget.PushIsWrittenAhead` | apps/worker/harnessflow_worker/projects/engine.py:484-502 | When a push starts, its target is already stored, unless the run has ended |
| `Budget.StepKeepsPublication` | apps/worker/harnessflow_worker/projects/engine.py:602-617 | One step keeps the stored and held targets equal to the first push's target and made for the saved base |
| `Publication.RequestedPublicationHappened` | apps/worker/harnessflow_worker/projects/engine.py:484-559 | A completed run that was asked for a pull request has pushed the very commit at which it is certified, the push was seen to succeed, and after it a pull request was listed or created, whose address, as gh gave it, is the stored one |
| `Publication.StepKeepsPublished` | apps/worker/harnessflow_worker/projects/engine.py:503-559 | One step keeps it: a stored address is that of a pull request seen, in a delivery phase, after the push of the judged commit |
| `Publication.StepKeepsPushed` | apps/worker/harnessflow_worker/projects/engine.py:489-502 | One step keeps it: a pull request is looked up or made only for a commit whose push succeeded, and only a push that was started can succeed |
| `Discipline.EvidenceIsAtHead` | apps/worker/harnessflow_worker/projects/engine.py:278-394 | If read-only agents and acceptance commands leave HEAD and the worktree alone: from review on the tree is clean, HEAD is head_commit and the evidence has exactly one passing entry per plan check, in plan order, at it; in judge and deliver the review passed; in deliver the judge is ready at it |
| `Discipline.DeliveryNeverBlocksOnEvidence` | apps/worker/harnessflow_worker/projects/engine.py:453-464 | Under the same discipline a tick in delivery always finds a clean tree and a snapshot that is complete at HEAD, so delivery's own check never blocks |
| `Discipline.DeliveryPassesExactlyWhen` | apps/worker/harnessflow_worker/projects/engine.py:453-464 | In every reachable tick that delivers, disciplined or not, delivery's check passes if and only if the tree is clean and HEAD is the commit that the judge assessed and every check passed at |
| `Discipline.DeliveryIsReadyExactlyWhen` | apps/worker/harnessflow_worker/projects/models.py:122-147 | For a delivery snapshot the completion predicate comes down to the commit being the judged one and the one that every check passed at |
| `Completion.DeliveryCanBlock` | apps/worker/harnessflow_worker/projects/engine.py:453-464 | The guard is needed: for every affordable valid plan and all willing agents there is a run of the engine whose delivery tick finds an edited worktree, fails its check, and ends blocked |
| `Completion.EditedDelivery` | apps/worker/harnessflow_worker/projects/engine.py:446-464 | A delivery tick of the engine whose worktree is edited between its load and its phase ends blocked, whether recovery commits the edit or not |
| `Discipline.DeliverySnapshotIsReady` | apps/worker/harnessflow_worker/projects/models.py:122-147 | A delivery snapshot tied to the checked-out commit meets the completion predicate there |
| `Discipline.EvidenceForIsTheEntry` | apps/worker/harnessflow_worker/projects/models.py:138-147 | With distinct check ids the dictionary of evidence finds, for every check, exactly the entry recorded for it |
| `Discipline.StepKeepsHead` | apps/worker/harnessflow_worker/projects/engine.py:171-178 | One step of any party, recovery and checkpoints included, keeps evidence and judgement tied to HEAD |
| `Progress.RunStopsWithinItsFuel` | apps/worker/harnessflow_worker/projects/engine.py:179-425 | With no command pending or arriving, the ticks that end with the run still active are at most its fuel, and so at most 7 * max_attempts + 19; crashed ticks are free to occur in any number |
| `Progress.ActiveTicksAreCounted` | apps/worker/harnessflow_worker/projects/engine.py:435-443 | The counter of active ticks counts exactly the final saves after which the row is queued, running, planning, executing or verifying |
| `Progress.ActiveTickBurns` | apps/worker/harnessflow_worker/projects/engine.py:179-425 | Every tick that ends with the run still active leaves strictly less fuel than it found, in every phase and branch |
| `Progress.PotentialNeverGrows` | apps/worker/harnessflow_worker/projects/engine.py:95-443 | Along a run without commands the active ticks done plus the fuel left never grow, over crashes, aborts and retries |
| `Affordability.CompletedRunsWereAffordable` | apps/worker/harnessflow_worker/projects/engine.py:251-268 | A completed run's plan has no more tasks than attempts were charged, and those are within max_attempts |
| `Affordability.PaidAlways` | apps/worker/harnessflow_worker/projects/engine.py:251-268 | In every reachable state there are at most as many completed tasks as charged attempts, also while an attempt is charged but not yet spent |
| `Completion.CompletesExactlyWhenAffordable` | apps/worker/harnessflow_worker/projects/engine.py:43-443 | The engine itself, driven by its workflow with nobody interfering, nothing failing and willing agents whatever they answer in detail, completes a valid plan without open questions if and only if it has at most max_attempts tasks; otherwise it ends exhausted with one task completed for every attempt |
| `Completion.Cycle` | apps/api/internal/workflow/project.go:36-63 | One round of the workflow, drain, tick and switch on the result: undisturbed, the tick has exactly the outcome that its answers decide, or ends exhausted when no attempt is left |
| `Completion.CodeAll` | apps/worker/harnessflow_worker/projects/engine.py:240-277 | The scheduler completes one task for every attempt, until there is no task or no attempt left |
| `Completion.Check` | apps/worker/harnessflow_worker/projects/engine.py:278-394 | Verification, review and judgement that pass leave a delivery phase whose evidence and judgement are about the commit checked out |
| `Completion.Conclude` | apps/worker/harnessflow_worker/projects/engine.py:240-253 | With no task left the run completes; with tasks left and no attempt it is exhausted and keeps what it has completed |
| `Engine.Engine.constructor` | apps/api/internal/server/projectservice.go:163 | A freshly queued run with its limits, from which the recorded history starts |
| `Engine.Engine.Tick` | apps/worker/harnessflow_worker/projects/engine.py:43-92 | One activity attempt under the lock: the row is re-read, a pending command obeyed, else one phase run; every atomic step, with others acting and the process dying or the activity being cancelled in between, is a step of the protocol; undisturbed, the row then has exactly the outcome that the answers decide |
| `Engine.Engine.Act` | apps/worker/harnessflow_worker/projects/engine.py:62-92 | A terminal or waiting row is left alone, a stop acknowledged, a resume applied and then one phase run; at peace with exactly the outcome that the answers decide, and blocked if delivery finds the worktree spoilt |
| `Engine.Engine.LockAndLoad` | apps/worker/harnessflow_worker/projects/engine.py:52-59 | Nothing is written before the row is loaded under the lock; what is loaded decides what the tick does |
| `Engine.Engine.Halt` | apps/worker/harnessflow_worker/projects/engine.py:75-79 | A pause or cancel found at the start is saved and then acknowledged at the version that was loaded |
| `Engine.Engine.ApplyResume` | apps/worker/harnessflow_worker/projects/engine.py:82-90 | The counters are reset, the clarification is appended if there is one, and `running` is saved before the command is consumed |
| `Engine.Engine.EditForResume` | apps/worker/harnessflow_worker/projects/engine.py:82-88 | Exactly the failure counters are reset, and the clarification is appended if there is one |
| `Engine.Engine.RunOwned` | apps/worker/harnessflow_worker/projects/engine.py:165-443 | Poll, recover, run one phase, and end in one final save, or in the save of a cancelled activity |
| `Engine.Engine.RecoverAndRun` | apps/worker/harnessflow_worker/projects/engine.py:171-425 | Recovery, then the phase, whose outcome recovery does not change |
| `Engine.Engine.FirstPoll` | apps/worker/harnessflow_worker/projects/engine.py:166 | The first poll of a tick, which saves the state it loaded or stops it |
| `Engine.Engine.RunPhase` | apps/worker/harnessflow_worker/projects/engine.py:179-425 | Each of the nine phases, and an unknown one, ends in exactly the snapshot and status that the answers decide, or in a state that a stopped phase may save; with the attempts used up a coding phase changes nothing |
| `Engine.Engine.RunCoding` | apps/worker/harnessflow_worker/projects/engine.py:240-277 | Implementation and repair end as their answers decide, or stop at the attempt limit with nothing changed |
| `Engine.Engine.RunChecking` | apps/worker/harnessflow_worker/projects/engine.py:278-394 | Verification, review and judgement end as their answers decide and leave HEAD and a clean tree alone when undisturbed |
| `Engine.Engine.PollRow` | apps/worker/harnessflow_worker/projects/engine.py:118-130 | The load half of poll goes on only if the newest row and the clock let it; a failing database raises |
| `Engine.Engine.Observe` | apps/worker/harnessflow_worker/projects/engine.py:121-130 | A canceled or failed row interrupts the tick as canceled; else a pending pause or cancel interrupts it as what it is, at the version read; else only the time limit can; otherwise the tick goes on |
| `Engine.Engine.Poll` | apps/worker/harnessflow_worker/projects/engine.py:118-131 | A poll that does not stop the tick has saved the present state; one that stops it leaves a state that may be saved, also when the database raises before or after the statement |
| `Engine.Engine.RunProcess` | apps/worker/harnessflow_worker/projects/process.py:74-94 | A process starts only after a poll that saved the state; a read-only one leaves HEAD and tree alone in a disciplined world |
| `Engine.Engine.Checkpoint` | apps/worker/harnessflow_worker/projects/workspace.py:79-83 | A checkpoint leaves a clean tree and returns its HEAD; it does not move HEAD on a clean tree |
| `Engine.Engine.Ask` | apps/worker/harnessflow_worker/projects/engine.py:139-163 | The attempt is in the saved state before its process starts; an invalid answer raises; only the attempt list changes |
| `Engine.Engine.RunLogged` | apps/worker/harnessflow_worker/projects/engine.py:146-163 | The attempt's entry ends completed exactly if its process ended with a valid answer, and interrupted otherwise |
| `Engine.Engine.Recover` | apps/worker/harnessflow_worker/projects/engine.py:171-178 | Attempts left running are checkpointed and marked interrupted; every other entry stays as it was |
| `Engine.Engine.PreparePhase` | apps/worker/harnessflow_worker/projects/engine.py:179-189 | The prepared base and HEAD are recorded and planning comes next, nothing else changing |
| `Engine.Engine.PlanPhase` | apps/worker/harnessflow_worker/projects/engine.py:190-213 | Only a plan accepted by the validator is stored; an open clarification blocks in the plan phase |
| `Engine.Engine.StorePlan` | apps/worker/harnessflow_worker/projects/engine.py:208-213 | A validated plan is stored and reviewed next, or blocks with what it asks the user |
| `Engine.Engine.PlanReviewPhase` | apps/worker/harnessflow_worker/projects/engine.py:214-239 | A passing review without findings freezes the plan; otherwise planning again, blocked at the third failure |
| `Engine.Engine.ActOnPlanReview` | apps/worker/harnessflow_worker/projects/engine.py:226-239 | Exactly a pass without findings freezes the plan; any other review is stored, sends the run back to planning, and blocks it at the third failure |
| `Engine.Engine.ImplementPhase` | apps/worker/harnessflow_worker/projects/engine.py:240-253 | The scheduler's choice: verification when no task is runnable, exhaustion when the attempts are used up, else one attempt |
| `Engine.Engine.ImplementTask` | apps/worker/harnessflow_worker/projects/engine.py:253-277 | One charged attempt; completed only if not blocked; old evidence, review and judgement dropped; blocked at the third attempt without progress |
| `Engine.Engine.CountTask` | apps/worker/harnessflow_worker/projects/engine.py:265-277 | Completed unless blocked, the failure counter reset exactly by a changed tree, old evidence, review and judgement gone, and the status that follows |
| `Engine.Engine.CountRepair` | apps/worker/harnessflow_worker/projects/engine.py:409-418 | The failure counter reset exactly by a changed tree; verification next unless blocked by the agent or at the third failure |
| `Engine.Engine.ActOnVerdict` | apps/worker/harnessflow_worker/projects/engine.py:367-394 | Delivery exactly for a judgement that is ready at head_commit; otherwise repair with the findings the judgement implies |
| `Engine.Engine.RunCheck` | apps/worker/harnessflow_worker/projects/engine.py:285-301 | One process that exits, and one entry with the check's frozen fields and the exit code it had, at head_commit, passed exactly if that was 0 |
| `Engine.Engine.NoteExit` | apps/worker/harnessflow_worker/projects/engine.py:287-289 | A check process exits with the recorded commit, its argv and its exit code, while verification is sealed |
| `Engine.Engine.CodingAttempt` | apps/worker/harnessflow_worker/projects/engine.py:253-264 | The incremented counter is saved before the writable agent starts, and its work is checkpointed |
| `Engine.Engine.VerifyPhase` | apps/worker/harnessflow_worker/projects/engine.py:278-326 | Checkpoint, every check once at that commit, then the verdict on them |
| `Engine.Engine.RunChecks` | apps/worker/harnessflow_worker/projects/engine.py:285-301 | One entry per check in plan order, with the exit code it had |
| `Engine.Engine.JudgeChecks` | apps/worker/harnessflow_worker/projects/engine.py:302-326 | A changed tree blocks; on a clean one review follows exactly if every exit code was 0; else repair, with exactly the ids of the checks that did not exit 0, blocked when the same set has failed three times |
| `Engine.Engine.ReviewPhase` | apps/worker/harnessflow_worker/projects/engine.py:327-342 | Only a review that passed without findings goes on to the judge |
| `Engine.Engine.JudgePhase` | apps/worker/harnessflow_worker/projects/engine.py:343-394 | Only a judgement that is ready at head_commit goes on to delivery; otherwise repair with at least one finding |
| `Engine.Engine.RepairPhase` | apps/worker/harnessflow_worker/projects/engine.py:395-418 | One charged attempt, then verification again, blocked by the agent or at the third attempt without progress |
| `Engine.Engine.DeliverPhase` | apps/worker/harnessflow_worker/projects/engine.py:419-464 | Completed if and only if the tree is clean, the snapshot complete at HEAD, and publication, if due, pushed the branch and found or created a pull request |
| `Engine.Engine.Publish` | apps/worker/harnessflow_worker/projects/engine.py:484-557 | Blocked exactly when the push, or both looking up and creating the pull request, fail; otherwise target and address are in the state |
| `Engine.Engine.ChooseTarget` | apps/worker/harnessflow_worker/projects/engine.py:573-617 | Only the target for the saved base commit, and only the one chosen before |
| `Engine.Engine.Push` | apps/worker/harnessflow_worker/projects/engine.py:489-502 | The poll before the push has saved the target; the pushed commit meets the completion predicate |
| `Engine.Engine.PullRequest` | apps/worker/harnessflow_worker/projects/engine.py:503-559 | Blocked exactly when the list fails, or shows none and creating one fails; otherwise the address stored is the one listed, or else the one printed |
| `Engine.Engine.Finish` | apps/worker/harnessflow_worker/projects/engine.py:426-443 | The `finally` block: an exception ends blocked with its message, the limit exhausted, a pause paused, a cancel canceled, anything else in the phase's status; only the interrupting command is acknowledged |
| `Engine.Engine.SaveAndAnswer` | apps/worker/harnessflow_worker/projects/engine.py:438-443 | The final save, then the acknowledgement of the command that interrupted the phase; undisturbed the row has the status and the reason given |
| `Engine.Engine.SaveCut` | apps/worker/harnessflow_worker/projects/engine.py:438-440 | A cancelled activity still stores its state under the status of its phase, and acknowledges nothing |
| `Engine.Engine.StoredPlan` | apps/worker/harnessflow_worker/projects/engine.py:242 | The stored plan is used only if it still validates |
| `Lifetime.Live` | apps/worker/harnessflow_worker/projects/engine.py:43-92 | Any number of rounds of the engine with crashes, cancellations and other writers in between: completed rows certify themselves, a requested pull request was seen, frozen plans are valid, launches stay within the limit, pushes agree |
| `Lifetime.Round` | apps/api/internal/workflow/project.go:36-63 | Others act, a result is handed over or lost, or an attempt gets the lock and ticks; all of it is a run of the protocol |
| `ProjectFlow.ProjectWorkflow.Execute` | apps/api/internal/workflow/project.go:36-64 | Finishes exactly for a completed, failed or canceled result, with the row terminal; waits only after a paused, blocked or exhausted one; continues as new only after a hundred returned ticks; and waits for no command whose signal was delivered |
| `ProjectFlow.ProjectWorkflow.Round` | apps/api/internal/workflow/project.go:36-62 | One turn of the loop, drain, tick and switch: ends the execution exactly for a terminal result, waits for a signal exactly after a waiting one, or leads to the next turn |
| `ProjectFlow.ProjectWorkflow.ProjectTick` | apps/api/internal/workflow/project.go:42-62 | Whatever attempts die in between: a completed, failed or canceled result ends the workflow, a paused, blocked or exhausted one makes it wait for a signal, any other leads to the next tick |
| `ProjectFlow.ProjectWorkflow.ReceiveSignal` | apps/api/internal/workflow/project.go:49-51 | A blocked workflow loops again exactly when a queued signal is received |
| `ProjectFlow.ProjectWorkflow.Reconcile` | apps/api/internal/server/projectservice.go:277-326 | One pass over a run that has not ended, everybody acting in between: an execution never started is started, an ended one leaves a terminal row, and the command found has its wake signal delivered, unless the call fails because the execution has ended meanwhile |
| `Rows.RunRow.Save` | apps/worker/harnessflow_worker/projects/store.py:31-52 | The guarded update, status by status: an ended run keeps its row unless its own status is saved again; completed, blocked and exhausted become canceled under a pending cancel and paused under a pending pause; any other status is stored as given, with the state and the clipped reason; returns the status of the row |
| `Rows.RunRow.ConsumeControl` | apps/worker/harnessflow_worker/projects/store.py:54-60 | Clears the command only when both the action and the version are the observed ones, and changes nothing else |
| `Rows.RunRow.ControlRun` | apps/api/internal/server/projectservice.go:217-243 | Accepted exactly for a well-formed pause, resume or cancel of a run that has not ended, a resume only of a waiting run without a pending command, with limits in range; one statement then writes command, version, limits and note, and a rejection nothing |
| `Rows.RunRow.MarkEnded` | apps/api/internal/server/projectservice.go:307-318 | Touches only a run that is not completed, failed or canceled, and makes it canceled or failed |
| `Rows.RunRow.constructor` | apps/api/internal/server/projectservice.go:163 | A new row is queued, without command, with an empty snapshot |
| `Rows.RunLimits` | apps/api/internal/server/projectservice.go:138-149 | Zero means the default; accepted exactly within the ranges, and what is accepted is in range |
| `Parser.TopoSort` | apps/api/internal/workflow/parser.go:38-83 | Returns the lexicographically least topological order: wherever another order first differs from it, its step has the name that comes first, a proper prefix or the smaller character; fails exactly when no order exists, with an unknown step exactly when one is named |
| `Names.TextLessExactly` | apps/api/internal/workflow/parser.go:53-64 | The comparison of names is that of texts: one is a proper prefix of the other, or has the smaller character where they first differ |
| `Parser.CountEdges` | apps/api/internal/workflow/parser.go:39-52 | Counts and edges agree with the multiplicities in `after`, or an unknown dependency is named |
| `Parser.SortChildren` | apps/api/internal/workflow/parser.go:53-56 | Sorting the children changes no edge count |
| `Parser.InitialReady` | apps/api/internal/workflow/parser.go:58-64 | The ready list starts with exactly the steps without dependencies |
| `Parser.RelaxChildren` | apps/api/internal/workflow/parser.go:71-76 | Placing a step lowers every count by its multiplicity, and exactly the steps that reach zero become ready |
| `Parser.KahnEnds` | apps/api/internal/workflow/parser.go:66-82 | When the ready list is empty, the order is complete if and only if a topological order exists, and then it is the least |
| `Parser.LeastOfReady` | apps/api/internal/workflow/parser.go:66-78 | Taking the head of the sorted ready list always takes the least step that is ready |
| `Dependencies.LeastChoiceIsLexLeast` | apps/api/internal/workflow/parser.go:66-78 | Always taking the least ready step gives the lexicographically least topological order |
| `Dependencies.LeastOrderIsUnique` | apps/api/internal/workflow/parser.go:35-38 | There is only one such order, so the result does not depend on map iteration |
| `Dependencies.SomethingIsReady` | apps/api/internal/workflow/parser.go:79-81 | While a graph with an order is not finished, something is ready |
| `Dependencies.TransitiveDependenciesComeFirst` | apps/api/internal/workflow/parser.go:66-78 | In such an order every transitive dependency of a step comes earlier |
| `Deciders.Decide` | apps/worker/harnessflow_worker/projects/models.py:70-75 | On one and the same graph topoSort and the layering loop of complete_graph accept and reject alike, and topoSort's order is one the scheduler could follow |
| `Deciders.RunWorkflow` | apps/api/internal/workflow/compiler.go:51-100 | From the steps' own `after` lists to the result: an order is found exactly if one exists, an unknown step is reported exactly if a list names none, every step runs after all that its list names and is given exactly their recorded outputs, and nothing runs without an order |
| `Deciders.OrderSteps` | apps/api/internal/workflow/parser.go:38-83 | From the steps' own `after` lists: an order exactly if one exists, in which every step comes after all it names, and an unknown step exactly if a list names none |
| `Plans.CompleteGraph` | apps/worker/harnessflow_worker/projects/models.py:49-76 | Accepts exactly the plans that are consistent, covering and orderable; each error names the first thing that is wrong |
| `Plans.ValidPlanExactly` | apps/worker/harnessflow_worker/projects/models.py:14-76 | A plan is valid exactly if no required list or id is empty and every check executes something, no id occurs twice, tasks and checks refer to its own requirements only and leave none out, and its tasks can be put in an order in which each comes after all that it depends on |
| `Plans.ExecutableMeans` | apps/worker/harnessflow_worker/projects/models.py:34-38 | Blank and no-op executables are refused, and any other with a visible character is not |
| `Plans.LayersReachAll` | apps/worker/harnessflow_worker/projects/models.py:70-75 | The layering loop terminates and reaches every task exactly when a topological order exists |
| `Plans.AllDistinct` | apps/worker/harnessflow_worker/projects/models.py:51-57 | Comparing list and set sizes decides whether ids repeat |
| `Plans.NextTask` | apps/worker/harnessflow_worker/projects/engine.py:244-247 | The first runnable task in plan order, or none exactly when no task is runnable |
| `Plans.NoFindingsMeansInconsistent` | apps/worker/harnessflow_worker/projects/engine.py:376-393 | A judgement that is not ready names no gap, so that the fallback finding is used, exactly when it says itself it did not pass, is about another commit, or has a repeated or foreign verdict |
| `Plans.SchedulerNeverDeadlocks` | apps/worker/harnessflow_worker/projects/engine.py:244-249 | For an accepted plan no runnable task means that all are completed |
| `Plans.CompletingExtendsPrefix` | apps/worker/harnessflow_worker/projects/engine.py:268 | Completing a runnable task extends a topological prefix to a longer one |
| `Plans.CompletionAccountsForEverything` | apps/worker/harnessflow_worker/projects/models.py:104-147 | The completion predicate gives every requirement a completed task, a proving entry and exactly one passing verdict at the commit |
| `Plans.CompletionReadyExactly` | apps/worker/harnessflow_worker/projects/models.py:122-147 | The completion predicate holds exactly if the commit is named, the review passed, the judge acquits the plan at it, exactly the plan's tasks are completed, and the last entry for each check shows exit 0, the commit, the argv and the requirements of that check |
| `Plans.JudgeReadyExactly` | apps/worker/harnessflow_worker/projects/models.py:104-119 | A judgement is ready exactly if it passes without findings at the commit and has one complete, passing verdict for each requirement and for nothing else |
| `Plans.FindingsAre` | apps/worker/harnessflow_worker/projects/engine.py:376-391 | What repair is told after a judgement is exactly its findings, each requirement it left out, and the reason of each verdict that did not pass |
| `Compiler.RunSteps` | apps/api/internal/workflow/compiler.go:51-100 | Each activity gets the recorded outputs of exactly the steps before it, among them all that its `after` list names and all transitive dependencies; at success or failure on step n exactly the first n steps have outputs and the totals are their sums as int64 values; only a step of an unknown type fails without a call |
| `Compiler.OrdersAreOrders` | apps/api/internal/workflow/parser.go:38-51 | The topological orders of the dependency graph are the sequences of all steps, once each, in which every step comes after all that its `after` list names |
| `Compiler.OrderedStepsNameSteps` | apps/api/internal/workflow/parser.go:44-48 | An order exists only if every entry of every `after` list names a step |
| `Compiler.AddConserves` | apps/api/internal/workflow/compiler.go:94-97 | Recording one result and adding it to wrapped totals keeps them equal to the wrapped sums |
| `Compiler.PriorIsComplete` | apps/api/internal/workflow/compiler.go:73-80 | Along a topological order the prior outputs hold every transitive dependency |
| `Workspace.Workspace.Prepare` | apps/worker/harnessflow_worker/projects/workspace.py:44-77 | Every successful call returns the base recorded first, with the run branch created from exactly it and checked out; an undisturbed call returns if and only if the base file was not left empty, the directory is not useless, and no other branch is checked out; the base file and the directory after every call are fixed, and so is when a call makes the run hopeless |
| `Workspace.Workspace.LinkWorktree` | apps/worker/harnessflow_worker/projects/workspace.py:71-76 | Linking the worktree returns the base the branch was created from; a cut or failing one leaves no directory, a useless one, or one on the run branch whose files are not complete |
| `Workspace.ManyCalls` | apps/worker/harnessflow_worker/projects/workspace.py:44-77 | Over any sequence of calls, deaths and moves of the source HEAD all successful calls return one and the same nonempty base, the branch's start |
| `Workspace.LaterCalls` | apps/worker/harnessflow_worker/projects/workspace.py:46-67 | After a death that left the base file empty, or a useless directory, no later call ever returns; in every other state the next undisturbed one does |
| `Workspace.TwoWaysToLose` | apps/worker/harnessflow_worker/projects/workspace.py:46-77 | From a fresh workspace one first call that dies before the base file is filled, or leaves a useless directory, is enough for no later call ever to return |
| `Workspace.ReturnsOverAnIncompleteTree` | apps/worker/harnessflow_worker/projects/workspace.py:46-55 | After a death with HEAD already on the run branch and files missing, the next call returns the base over the incomplete tree |
| `Consumer.Operate` | apps/event-consumer/harnessflow_events/consumer.py:55-91 | Over any production, polling, writing, committing, dying and restarting: every parseable message below a committed offset is in a written object, written records are storable records of the topic, no object has a record twice, and a record is in two objects only across a restart that found it uncommitted |
| `Turns.CommitsPastExactlyWhen` | apps/event-consumer/harnessflow_events/consumer.py:61-91 | Between two turns, for any way in which the backlog is handed out: some sequence of turns commits past an uncommitted offset if and only if, from the position or after a death from the commits, polls without a message that raises or is refused lead past it and one of some partition has an object |
| `Turns.WholeCommitsPastExactlyWhen` | apps/event-consumer/harnessflow_events/consumer.py:61-91 | When a poll hands out all there is: if and only if the offset has been passed or the rest of its partition is clean, and the rest of some partition is clean and has an object |
| `Turns.StuckTopics` | apps/event-consumer/harnessflow_events/consumer.py:82-91 | An input for each failure: a message that raises before an object, an object that the sink refuses, JSON that is no object, and an object with a raising message behind it, which is committed exactly if a poll is cut between the two |
| `Turns.CleanTopicsAreCommitted` | apps/event-consumer/harnessflow_events/consumer.py:61-79 | If nothing uncommitted raises or is refused, one undisturbed turn makes up for every death before it: each object below the end of its poll is committed |
| `Turns.UncleanStopsCommits` | apps/event-consumer/harnessflow_events/sink.py:55-66 | Wherever polls are cut, commits grow and never get past a message that raises or an object with a value that the sink's schema refuses |
| `Turns.CommitsNeedAnObject` | apps/event-consumer/harnessflow_events/consumer.py:68-71 | Wherever polls are cut, nothing is committed without an uncommitted object |
| `Turns.TurnsReach` | apps/event-consumer/harnessflow_events/consumer.py:61-71 | Every position and commit along any turns is reached by clean polls from the position or, after a death, from the commits |
| `Consumer.RaisingPollIsForgotten` | apps/event-consumer/harnessflow_events/consumer.py:61-67 | A poll that raises leaves nothing behind: the next life starts as if it had taken no message of any partition |
| `Consumer.EventConsumer.Flush` | apps/event-consumer/harnessflow_events/consumer.py:73-79 | It survives exactly with no batch, or one that the sink stores and no failure; then the batch is written and its position committed; else it is unwritten, or written but uncommitted |
| `Consumer.EventConsumer.Take` | apps/event-consumer/harnessflow_events/consumer.py:63-67 | One message is parsed into the batch or skipped, or raises and leaves everything as it was |
| `Consumer.EventConsumer.TakePart` | apps/event-consumer/harnessflow_events/consumer.py:64-67 | One partition's messages are taken in order up to where the poll ends, or to the first that raises |
| `Consumer.EventConsumer.Poll` | apps/event-consumer/harnessflow_events/consumer.py:62-67 | What getmany returned is taken to the end of each partition, in its order, and the batch then holds exactly its objects; it raises only if a message in it does |
| `Consumer.EventConsumer.Turn` | apps/event-consumer/harnessflow_events/consumer.py:61-71 | One turn makes of commits and positions exactly what the turn of the topic's view does, and is a sequence of takes and then a flush, a death with the batch, or one between writing and committing, with a restart from the commits |
| `Consumer.BetweenTurns` | apps/event-consumer/harnessflow_events/consumer.py:61-71 | Between two turns all that was passed is clean, and no object lies between commit and position |
| `Consumer.StoredFits` | apps/event-consumer/harnessflow_events/consumer.py:78 | Writing the batch as an object keeps the delivery invariant: each record of the batch is then in an object, once in this life |
| `Consumer.AfterFits` | apps/event-consumer/harnessflow_events/consumer.py:55-91 | The delivery invariant holds after every possible history of arrivals, takes, flushes and deaths |
| `Gate.AggregateResults` | apps/eval-runner/harnessflow_eval/report.py:44-75 | One mean per scorer that any case mentions, once each, missing scores counted as zero; cases and counts carried over |
| `Gate.MeanOfParts` | apps/eval-runner/harnessflow_eval/report.py:44-75 | Every case weighs the same: the mean over two parts is made of their means by their sizes, and that of one case is its score, or 0 without one |
| `Gate.MeanOfOne` | apps/eval-runner/harnessflow_eval/report.py:44-75 | The mean over one case is its score, or 0 if it has none |
| `Gate.EvaluateGate` | apps/eval-runner/harnessflow_eval/gate.py:46-130 | Refuses a threshold outside [0,1]; otherwise the errors are exactly what is wrong, the regressions exactly the scorers that fell by more than the threshold, and it passes exactly when both are empty |
| `Gate.CheckEvidence` | apps/eval-runner/harnessflow_eval/gate.py:66-96 | One candidate's faults, each present exactly when it is reported |
| `Gate.IsCloseExactly` | apps/eval-runner/harnessflow_eval/gate.py:93 | Close means within 1e-9, absolutely or relative to the larger of the two |
| `Gate.ContradictedExactly` | apps/eval-runner/harnessflow_eval/gate.py:88-96 | A mean is contradicted only if every case has the score and their mean is not close to it |
| `Gate.FindRegressions` | apps/eval-runner/harnessflow_eval/gate.py:110-125 | The scorers of both reports whose mean fell by more than the threshold, and no others |
| `Gate.AggregatePassesAlone` | apps/eval-runner/harnessflow_eval/gate.py:62-108 | In exact arithmetic an aggregated report passes without a baseline if and only if its cases are nonempty, completed, differently named and share one nonempty scorer set with scores in [0,1], and seeds are at least 1 |
| `Gate.AggregatesPass` | apps/eval-runner/harnessflow_eval/gate.py:98-130 | Against an aggregated baseline it passes if and only if both are sound over the same dataset, seeds and cases, and no scorer of the baseline lost more than the threshold in its mean; new scorers do not matter |
| `Gate.GatesCompose` | apps/eval-runner/harnessflow_eval/gate.py:110-130 | B within m1 of A and C within m2 of B give C within m1 + m2 of A |
| `Gate.PassingBoundsTheCases` | apps/eval-runner/harnessflow_eval/gate.py:88-96 | Whoever wrote the reports, passing bounds the drop of the mean over the cases themselves by the threshold plus 2e-9 |
| `Gate.FaultlessSides` | apps/eval-runner/harnessflow_eval/gate.py:98-108 | The error list is empty exactly when both candidates are faultless and cover the same scorers, dataset, seeds and cases |

## Left out

- ProjectFlow.ProjectWorkflow.Execute: the methods of this class are ghost, because they observe the whole protocol state; the signal queue is a counter, since the loop never reads a signal's content.
- Engine.Engine.Tick: the repository lock is taken as mutual exclusion between ticks, with leftover attempts of an earlier activity allowed; an attempt that finds the lock taken, by whomever, is the workflow's contention step.
- Engine.Engine.Poll: elapsed time is a free choice at every poll, so the time limit may strike anywhere; no bound on active_seconds is claimed.
- Engine.Engine.Finish: a database error in the final save or while a tick is loaded counts as the death of its process, and reasons are stated only for an exception and for the limit.
- Engine.Engine.SaveCut: the reason that a blocked agent gave is not stored with it.
- Engine.Engine.Work: between ticks nobody edits the worktree; during a tick only processes that agents and commands have started do, at any moment of it.
- Completion.CompletesExactlyWhenAffordable: nobody interferes, nothing fails and the clock never runs out; what happens otherwise is what the theorems over all runs bound.
- Engine.Engine.JudgeChecks: the sorted list of failed check ids is modelled as a set; the ids are distinct.
- Engine.Engine.RunChecks: time limits and output of checks, and checks that cannot be isolated, are failures of the process at any point.
- Engine.Engine.PullRequest: what `gh` prints is a free choice; a list that does not parse raises like any other failure.
- Rows.RunRow.Save: the update and the fallback select that reads the status back are one step; the version column does not overflow.
- Rows.RunRow.ControlRun: identifiers and the database's own failures are not modelled; an overflow of the INTEGER limits is a rejection.
- Plans.CompleteGraph: descriptions, titles, instructions and the time limit of a check, which are validated before the graph, are not in the model.
- Progress.RunStopsWithinItsFuel: bounds the ticks that end with an active run; how many ticks crash in between is not bounded.
- Commands.PendingCommandCanBeAnswered: a continuation exists; that the reconciler and the worker keep running is not stated.
- Compiler.RunSteps: approval gates and status records are left out; they change no output and no total.
- Workspace.Workspace.Prepare: a cut write of the base file leaves it empty, not partly written.
- Workspace.ReturnsOverAnIncompleteTree: what a run then makes of the missing files is not followed further.
- Consumer.Operate: one consumer owns all partitions; rebalancing between several is not modelled.
- Turns.CommitsPastExactlyWhen: with nothing more produced; a new JSON object can be what makes a later commit possible. Up to where a partition is handed out depends on its offset only.
- Turns.UncleanStopsCommits: whether the sink's schema takes a value is an input, one bit for each object.
- Gate.EvaluateGate: exact reals instead of floating point, so values that are not finite do not occur; the order of the error list is not stated.
- Gate.AggregateResults: latency percentiles and the cost total are left out; the gate does not read them.
- Snapshot fields that nothing branches on: events, tokens, cost, summary, artifacts, current_task_id, branch, workspace_path, timestamps.
- Model and Git internals, prompts, subprocess supervision, HTTP, dashboard, command line, retrieval, scorers and telemetry: plumbing or input and output.
- `validateCrossField` and YAML parsing: one-branch checks of single fields.
