/**
 Progress without commands: every tick that ends with the run still active has burnt fuel, and a
 crashed tick never adds any, so the run stops after linearly many ticks in its attempt limit.
 */
module Progress {
  import opened Plans
  import opened Rows
  import opened Phases
  import opened Protocol
  import opened Snapshots

  /** No command is pending, and no tick is still carrying one out. */
  ghost predicate Quiet(w: World) {
    && w.row.control.NoControl? && !w.worker.Halting? && !w.worker.Resuming?
    && (w.worker.Owned? ==> w.worker.o.max == w.row.maxAttempts)
  }

  /** Work left: that of the tick in progress when it began, or that of the stored active run. */
  ghost function Potential(w: World): nat {
    if w.worker.Owned? then w.worker.o.start
    else if Active(w.row.status) then Fuel(w.row.snap, w.row.maxAttempts)
    else 0
  }

  /** What a tick has burnt so far: a charged attempt pays for a whole coding round. */
  ghost predicate Burnt(o: OwnedTick) {
    Fuel(o.mem, o.max) + (if o.charged then 7 else 0) <= o.start
  }

  ghost predicate FuelInv(w: World) {
    w.worker.Owned? ==> Burnt(w.worker.o) && (!Terminal(w.row.status) ==> Active(w.row.status))
  }

  lemma MidSaveBurns(o: OwnedTick, s: Snapshot, repo: Repo)
    requires MidSave(o, s, repo) && Burnt(o)
    ensures Burnt(AfterPoll(o, s, repo))
  {
    hide MidHead, MidEvidence, MidPublication;
  }

  lemma CheckingTickBurns(o: OwnedTick, s: Snapshot, st: Status, repo: Repo)
    requires Finished(o, s, st, repo) && Active(st) && Burnt(o) && AllTasksDone(o.mem.phase)
    ensures Fuel(s, o.max) < o.start
  {
    hide MidHead, MidEvidence, MidPublication, ValidPlan, EvidenceComplete, AllPassed, FailedIds, Certified,
      JudgeReady, ReviewPasses;
  }

  lemma PlanningTickBurns(o: OwnedTick, s: Snapshot, st: Status, repo: Repo)
    requires Finished(o, s, st, repo) && Active(st) && Burnt(o) && !AllTasksDone(o.mem.phase)
    ensures Fuel(s, o.max) < o.start
  {
    hide MidHead, MidEvidence, MidPublication, ValidPlan, Runnable, CompletesTask;
  }

  /** A tick that leaves the run active leaves it with strictly less work than it found. */
  lemma ActiveTickBurns(o: OwnedTick, s: Snapshot, st: Status, repo: Repo)
    requires FinalSave(o, s, st, repo) && Active(st) && Burnt(o)
    ensures Fuel(s, o.max) < o.start
  {
    hide Partial, MidHead, MidEvidence, MidPublication, ValidPlan, Runnable, CompletesTask, EvidenceComplete,
      AllPassed, FailedIds, Certified, JudgeReady, ReviewPasses;
    assert Finished(o, s, st, repo);
    if AllTasksDone(o.mem.phase) {
      CheckingTickBurns(o, s, st, repo);
    } else {
      PlanningTickBurns(o, s, st, repo);
    }
  }

  /** A cancelled tick leaves no more work than it found. */
  lemma PartialBurns(o: OwnedTick, s: Snapshot, repo: Repo)
    requires Partial(o, s, repo) && Burnt(o)
    ensures Fuel(s, o.max) <= o.start
  {
    hide MidHead, MidEvidence, MidPublication, CompletesTask;
  }

  lemma {:induction false} FuelIsLinear(s: Snapshot, max: nat)
    ensures Fuel(s, max) <= 7 * max + 19
  {
    assert AtLeastZero(max - s.attempts) <= max && AtLeastZero(3 - s.failureCount) <= 3;
  }

  // ----- The invariants along a run

  lemma TurnKeepsFuel(w: World, a: TurnAction)
    requires FuelInv(w) && TurnPossible(w, a)
    requires a.ResumeConsume? && !Terminal(w.row.status) ==> Active(w.row.status)
    ensures FuelInv(TurnEffect(w, a))
  {
    hide Fuel;
  }

  lemma PhaseKeepsFuel(w: World, a: PhaseAction)
    requires FuelInv(w) && PhasePossible(w, a)
    requires a.PollSave? ==> Burnt(AfterPoll(w.worker.o, a.s, w.repo))
    ensures FuelInv(PhaseEffect(w, a))
  {
    hide Fuel;
  }

  /** A resumed tick has saved an active status before it goes on. */
  ghost predicate ResumedIsActive(w: World) {
    w.worker.Resuming? && w.worker.resumed && !Terminal(w.row.status) ==> Active(w.row.status)
  }

  lemma StepKeepsFuel(w: World, a: Action)
    requires FuelInv(w) && ResumedIsActive(w) && Enabled(w, a)
    ensures FuelInv(Effect(w, a))
  {
    hide FinalSave, MidSave, Burnt, Fuel, TurnEffect, PhaseEffect, ApiEffect, FlowEffect, AttemptEffect;
    match a
    case Turn(x) => TurnKeepsFuel(w, x);
    case InPhase(x) =>
      if x.PollSave? { MidSaveBurns(w.worker.o, x.s, w.repo); }
      PhaseKeepsFuel(w, x);
    case _ => OutsideStepFrame(w, a);
  }

  lemma StepKeepsResumed(w: World, a: Action)
    requires ResumedIsActive(w) && Enabled(w, a)
    ensures ResumedIsActive(Effect(w, a))
  {
    hide FinalSave, MidSave, Fuel, ApiEffect, FlowEffect, AttemptEffect;
    if IsOutside(a) { OutsideStepFrame(w, a); }
  }

  lemma {:induction false} FuelAlways(r: Run, i: nat)
    requires IsRun(r) && i < |r.states|
    ensures FuelInv(r.states[i]) && ResumedIsActive(r.states[i])
  {
    hide Effect, Enabled, Burnt;
    if i > 0 {
      FuelAlways(r, i - 1);
      assert StepAt(r, i - 1);
      StepKeepsFuel(r.states[i - 1], r.actions[i - 1]);
      StepKeepsResumed(r.states[i - 1], r.actions[i - 1]);
    }
  }

  // ----- Quiet steps

  lemma QuietOutside(w: World, a: Action)
    requires Quiet(w) && Enabled(w, a) && IsOutside(a) && Effect(w, a).row.version == w.row.version
    ensures Quiet(Effect(w, a))
  {
    hide Permitted;
  }

  /** Crash, abort and the like: the potential of the stored run never exceeds the tick's start. */
  lemma PotentialOutside(w: World, n: World)
    requires FuelInv(w) && InStep(w) && Quiet(w) && Quiet(n) && OutsideFrame(w, n)
    requires n.row.maxAttempts == w.row.maxAttempts
    ensures n.activeTicks + Potential(n) <= w.activeTicks + Potential(w)
  {
    hide Fuel;
  }

  lemma QuietTurn(w: World, a: TurnAction)
    requires Quiet(w) && TurnPossible(w, a)
    ensures var n := TurnEffect(w, a);
            Quiet(n) && n.activeTicks + Potential(n) <= w.activeTicks + Potential(w)
  {
    hide Fuel;
  }

  lemma QuietPhase(w: World, a: PhaseAction)
    requires Quiet(w) && FuelInv(w) && PhasePossible(w, a)
    requires a.EndSave? && Active(a.st) ==> Fuel(a.s, w.worker.o.max) < w.worker.o.start
    requires a.CancelSave? ==> Fuel(a.s, w.worker.o.max) <= w.worker.o.start
    ensures var n := PhaseEffect(w, a);
            Quiet(n) && n.activeTicks + Potential(n) <= w.activeTicks + Potential(w)
  {
    hide Fuel, Burnt;
  }

  lemma QuietBurns(w: World, a: PhaseAction)
    requires FuelInv(w) && PhasePossible(w, a) && Permitted(w, a) && a.EndSave? && Active(a.st)
    ensures Fuel(a.s, w.worker.o.max) < w.worker.o.start
  {
    hide FinalSave, Burnt, Fuel;
    ActiveTickBurns(w.worker.o, a.s, a.st, w.repo);
  }

  lemma QuietCut(w: World, a: PhaseAction)
    requires FuelInv(w) && PhasePossible(w, a) && Permitted(w, a) && a.CancelSave?
    ensures Fuel(a.s, w.worker.o.max) <= w.worker.o.start
  {
    hide Partial, Burnt, Fuel;
    PartialBurns(w.worker.o, a.s, w.repo);
  }

  lemma LimitStaysPut(w: World, a: Action)
    requires Enabled(w, a) && IsOutside(a) && Effect(w, a).row.version == w.row.version
    ensures Effect(w, a).row.maxAttempts == w.row.maxAttempts
  {
    hide Permitted;
  }

  lemma QuietStep(w: World, a: Action)
    requires Quiet(w) && FuelInv(w) && InStep(w) && Enabled(w, a) && Effect(w, a).row.version == w.row.version
    ensures var n := Effect(w, a);
            Quiet(n) && n.activeTicks + Potential(n) <= w.activeTicks + Potential(w)
  {
    hide FinalSave, Partial, Burnt, Fuel, InStep, TurnEffect, PhaseEffect, Potential, Quiet;
    match a
    case Turn(x) => QuietTurn(w, x);
    case InPhase(x) =>
      if x.EndSave? && Active(x.st) { QuietBurns(w, x); }
      if x.CancelSave? { QuietCut(w, x); }
      QuietPhase(w, x);
    case _ =>
      QuietOutside(w, a);
      OutsideStepFrame(w, a);
      LimitStaysPut(w, a);
      PotentialOutside(w, Effect(w, a));
  }

  lemma {:induction false} PotentialNeverGrows(r: Run, i: nat, j: nat)
    requires IsRun(r) && i <= j < |r.states|
    requires Quiet(r.states[i])
    requires forall k :: i <= k <= j ==> r.states[k].row.version == r.states[i].row.version
    ensures Quiet(r.states[j])
    ensures r.states[j].activeTicks + Potential(r.states[j]) <= r.states[i].activeTicks + Potential(r.states[i])
    decreases j - i
  {
    hide Effect, Enabled, Quiet, Potential, FuelInv, InStep, SnapshotFits, Certified;
    if i < j {
      PotentialNeverGrows(r, i, j - 1);
      FuelAlways(r, j - 1);
      SnapshotInvAlways(r, j - 1);
      assert StepAt(r, j - 1);
      QuietStep(r.states[j - 1], r.actions[j - 1]);
    }
  }

  /** A tick ends here and leaves the run active. */
  ghost predicate EndsActive(a: Action, n: World) {
    a.InPhase? && a.inner.EndSave? && n.row.status in {Queued, Running, Planning, Executing, Verifying}
  }

  /** How many of the steps from i to j end a tick that leaves the run active. */
  ghost function ActiveEnds(r: Run, i: nat, j: nat): nat
    requires i <= j <= |r.actions| < |r.states|
    decreases j - i
  {
    if i == j then 0 else ActiveEnds(r, i, j - 1) + if EndsActive(r.actions[j - 1], r.states[j]) then 1 else 0
  }

  lemma PhaseCounts(w: World, a: PhaseAction)
    requires PhasePossible(w, a)
    ensures PhaseEffect(w, a).activeTicks == w.activeTicks + if EndsActive(InPhase(a), PhaseEffect(w, a)) then 1 else 0
  {
    hide Fuel, SaveRow;
  }

  lemma TurnCounts(w: World, a: TurnAction)
    requires TurnPossible(w, a)
    ensures TurnEffect(w, a).activeTicks == w.activeTicks
  {
    hide Fuel, SaveRow, Decide;
  }

  lemma {:induction false} ActiveTicksAreCounted(r: Run, i: nat, j: nat)
    requires IsRun(r) && i <= j < |r.states|
    ensures r.states[j].activeTicks - r.states[i].activeTicks == ActiveEnds(r, i, j)
    decreases j - i
  {
    hide Permitted, PhaseEffect, TurnEffect, ApiEffect, FlowEffect, AttemptEffect;
    if i < j {
      ActiveTicksAreCounted(r, i, j - 1);
      assert StepAt(r, j - 1);
      match r.actions[j - 1]
      case Turn(x) => TurnCounts(r.states[j - 1], x);
      case InPhase(x) => PhaseCounts(r.states[j - 1], x);
      case _ => OutsideStepFrame(r.states[j - 1], r.actions[j - 1]);
    }
  }

  /**
   From any reachable state with no tick in progress and no command pending or arriving, the ticks
   that end with the run still active number at most its fuel, which is linear in the attempt limit.
   */
  lemma RunStopsWithinItsFuel(r: Run, i: nat, j: nat)
    requires IsRun(r) && i <= j < |r.states|
    requires r.states[i].worker.Idle? && r.states[i].row.control.NoControl?
    requires forall k :: i <= k <= j ==> r.states[k].row.version == r.states[i].row.version
    ensures ActiveEnds(r, i, j) <= Fuel(r.states[i].row.snap, r.states[i].row.maxAttempts)
    ensures ActiveEnds(r, i, j) <= 7 * r.states[i].row.maxAttempts + 19
  {
    hide Effect, Enabled, Fuel;
    ActiveTicksAreCounted(r, i, j);
    PotentialNeverGrows(r, i, j);
    FuelIsLinear(r.states[i].row.snap, r.states[i].row.maxAttempts);
  }
}
