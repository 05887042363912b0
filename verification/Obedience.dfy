/**
 What each command, status and result leads to, in so many words and over every interleaving: which
 status a stop ends in, that a tick obeys it at its next poll, and when the workflow waits.
 */
module Obedience {
  import opened Prelude
  import opened Plans
  import opened Rows
  import opened Phases
  import opened Protocol
  import opened Commands

  // ----- A pause pauses and a cancel cancels

  /** One step of the tick. */
  predicate IsTickStep(a: Action) { a.Turn? || a.InPhase? }

  lemma TurnStops(w: World, a: TurnAction)
    requires CommandInv(w) && TurnPossible(w, a)
    ensures w.row.control == Pause && w.row.status != Canceled && TurnEffect(w, a).row.status == Canceled ==>
              w.worker.Halting? && w.worker.cmd == Cancel
    ensures w.row.control == Cancel && w.row.status != Paused && TurnEffect(w, a).row.status == Paused ==>
              w.worker.Halting? && w.worker.cmd == Pause
  {
    hide Decide, Begin, FlowKnows, Versions;
  }

  lemma PhaseStops(w: World, a: PhaseAction)
    requires PhasePossible(w, a)
    ensures w.row.control == Pause && w.row.status != Canceled && PhaseEffect(w, a).row.status == Canceled ==>
              w.worker.o.raised == Some(ByCancel)
    ensures w.row.control == Cancel && w.row.status != Paused && PhaseEffect(w, a).row.status == Paused ==>
              w.worker.o.raised == Some(ByPause)
    ensures a.EndSave? && w.row.status !in {Completed, Failed, Canceled} ==>
              && (w.worker.o.raised == Some(ByPause) ==> PhaseEffect(w, a).row.status == Paused)
              && (w.worker.o.raised == Some(ByCancel) ==> PhaseEffect(w, a).row.status == Canceled)
              && (w.worker.o.raised == Some(ByLimit) ==> a.st == Exhausted)
    ensures a.EndSave? && a.st in {Completed, Blocked, Exhausted} && w.row.status !in {Completed, Failed, Canceled} ==>
              PhaseEffect(w, a).row.status ==
                if w.row.control == Cancel then Canceled else if w.row.control == Pause then Paused else a.st
  {
    hide Fuel;
  }

  /**
   The two stops are never exchanged: over a pending pause a tick cancels only if it has been
   interrupted by a cancel or has loaded one, and over a pending cancel it pauses only if it has been
   interrupted by a pause or has loaded one. No end of a phase gets past either of them, and an
   interrupted one ends as its interruption says.
   */
  lemma StopsAreNotExchanged(r: Run, i: nat)
    requires IsRun(r) && i < |r.actions| && IsTickStep(r.actions[i])
    ensures
      var w, n := r.states[i], r.states[i + 1];
      && (w.row.control == Pause && w.row.status != Canceled && n.row.status == Canceled ==>
            || (w.worker.Owned? && w.worker.o.raised == Some(ByCancel))
            || (w.worker.Halting? && w.worker.cmd == Cancel))
      && (w.row.control == Cancel && w.row.status != Paused && n.row.status == Paused ==>
            || (w.worker.Owned? && w.worker.o.raised == Some(ByPause))
            || (w.worker.Halting? && w.worker.cmd == Pause))
      && (r.actions[i].InPhase? && r.actions[i].inner.EndSave?
          && r.actions[i].inner.st in {Completed, Blocked, Exhausted}
          && w.row.status !in {Completed, Failed, Canceled} ==>
            n.row.status == if w.row.control == Cancel then Canceled else if w.row.control == Pause then Paused
                            else r.actions[i].inner.st)
      && (r.actions[i].InPhase? && r.actions[i].inner.EndSave? && w.worker.Owned?
          && w.row.status !in {Completed, Failed, Canceled} ==>
            && (w.worker.o.raised == Some(ByPause) ==> n.row.status == Paused)
            && (w.worker.o.raised == Some(ByCancel) ==> n.row.status == Canceled)
            && (w.worker.o.raised == Some(ByLimit) ==> r.actions[i].inner.st == Exhausted))
  {
    hide Permitted, TurnEffect, PhaseEffect;
    assert StepAt(r, i);
    CommandInvAlways(r, i);
    match r.actions[i]
    case Turn(x) => TurnStops(r.states[i], x);
    case InPhase(x) => PhaseStops(r.states[i], x);
  }

  // ----- A tick obeys a stop at its next poll

  /** The interruption that a stop command is. */
  function StopOf(c: Control): Interruption
    requires c in {Pause, Cancel}
  {
    match c
    case Pause => ByPause
    case Cancel => ByCancel
  }

  /** The statuses in which such an interruption may end: its own, or that of a run ended meanwhile. */
  ghost predicate EndsFor(c: Control, result: Status) {
    result in {Canceled, Failed} || (c == Pause && result == Paused)
  }

  /** The tick is interrupted by command c of version v, ends for it, and acknowledges it; or it is dead. */
  ghost predicate Obeying(w: World, c: Control, v: nat)
    requires c in {Pause, Cancel}
  {
    && Observed(w.row, c, v)
    && match w.worker
       case Owned(o) => o.raised == Some(StopOf(c)) && o.version == v
       case Finishing(result, consume, version) => EndsFor(c, result) && consume == c && version == v
       case Done(result) => EndsFor(c, result) && (w.row.version > v || w.row.control == NoControl)
       case Idle => true
       case _ => false
  }

  lemma PollObeys(w: World, limit: bool)
    requires CommandInv(w) && PhasePossible(w, PollLoad(limit))
    requires w.row.control in {Pause, Cancel} && w.row.status !in {Canceled, Failed}
    ensures Obeying(PhaseEffect(w, PollLoad(limit)), w.row.control, w.row.version)
  {
  }

  lemma TurnKeepsObeying(w: World, a: TurnAction, c: Control, v: nat)
    requires c in {Pause, Cancel} && Obeying(w, c, v) && TurnPossible(w, a)
    ensures Obeying(TurnEffect(w, a), c, v)
  {
  }

  lemma PhaseKeepsObeying(w: World, a: PhaseAction, c: Control, v: nat)
    requires c in {Pause, Cancel} && CommandInv(w) && Obeying(w, c, v) && PhasePossible(w, a)
    ensures Obeying(PhaseEffect(w, a), c, v)
    ensures !a.Launch? && !a.PollLoad? && !a.PollSave? && !a.PushBranch?
  {
    hide FlowKnows, Versions, Fuel;
  }

  lemma StepKeepsObeying(w: World, a: Action, c: Control, v: nat)
    requires c in {Pause, Cancel} && CommandInv(w) && Obeying(w, c, v) && Enabled(w, a)
    requires !(a.Attempt? && a.attempt.Acquire?)
    ensures Obeying(Effect(w, a), c, v)
  {
    hide CommandInv, TurnEffect, PhaseEffect, Permitted;
    match a
    case Turn(x) => TurnKeepsObeying(w, x, c, v);
    case InPhase(x) => PhaseKeepsObeying(w, x, c, v);
    case _ =>
  }

  /** No attempt takes the lock between these two steps. */
  ghost predicate SameAttempt(r: Run, i: nat, j: nat) {
    forall k :: i < k < j && k < |r.actions| ==> !(r.actions[k].Attempt? && r.actions[k].attempt.Acquire?)
  }

  lemma {:induction false} ObeysFromThePoll(r: Run, i: nat, j: nat)
    requires IsRun(r) && i < j < |r.states| && r.actions[i].InPhase? && r.actions[i].inner.PollLoad?
    requires r.states[i].row.control in {Pause, Cancel} && r.states[i].row.status !in {Canceled, Failed}
    requires SameAttempt(r, i, j)
    ensures Obeying(r.states[j], r.states[i].row.control, r.states[i].row.version)
    decreases j
  {
    hide CommandInv, Permitted, Obeying, PhaseEffect, TurnEffect;
    CommandInvAlways(r, j - 1);
    assert StepAt(r, j - 1);
    if j == i + 1 {
      PollObeys(r.states[i], r.actions[i].inner.limit);
    } else {
      ObeysFromThePoll(r, i, j - 1);
      hide Effect, Enabled;
      StepKeepsObeying(r.states[j - 1], r.actions[j - 1], r.states[i].row.control, r.states[i].row.version);
    }
  }

  /** A stop has arrived while a tick was at work, and is not answered before that tick ends. */
  ghost predicate StopAwaits(w: World) {
    && !w.worker.Starting? && !w.worker.Halting? && !w.worker.Resuming?
    && (w.worker.Owned? ==> w.row.control in {Pause, Cancel})
  }

  lemma PhaseKeepsStop(w: World, a: PhaseAction)
    requires StopAwaits(w) && PhasePossible(w, a)
    ensures StopAwaits(PhaseEffect(w, a))
  {
    hide Fuel;
  }

  lemma StepKeepsStop(w: World, a: Action)
    requires StopAwaits(w) && Enabled(w, a) && !(a.Attempt? && a.attempt.Acquire?)
    ensures StopAwaits(Effect(w, a))
  {
    hide Permitted, PhaseEffect, Begin;
    if a.InPhase? { PhaseKeepsStop(w, a.inner); }
  }

  lemma {:induction false} StopIsThere(r: Run, k: nat, i: nat)
    requires IsRun(r) && k < i < |r.states| && r.actions[k].Api? && r.actions[k].api.AcceptCommand?
    requires r.actions[k].api.cmd.control in {Pause, Cancel} && r.states[k].worker.Owned?
    requires SameAttempt(r, k, i)
    ensures StopAwaits(r.states[i])
    decreases i
  {
    hide Permitted, PhaseEffect, TurnEffect, FlowEffect, AttemptEffect;
    assert StepAt(r, i - 1);
    if i > k + 1 {
      StopIsThere(r, k, i - 1);
      hide Effect, Enabled;
      StepKeepsStop(r.states[i - 1], r.actions[i - 1]);
    }
  }

  /**
   A pause or cancel accepted while a tick is at work stops it at its next poll, k < i: from there on,
   j > i, it launches, pushes, polls and saves its work no more, and ends paused, canceled (or failed, if
   the run was ended from outside) and with the command acknowledged, or dead.
   */
  lemma TickObeysTheStop(r: Run, k: nat, i: nat, j: nat)
    requires IsRun(r) && k < i < j < |r.states|
    requires r.actions[k].Api? && r.actions[k].api.AcceptCommand? && r.actions[k].api.cmd.control in {Pause, Cancel}
    requires r.states[k].worker.Owned? && SameAttempt(r, k, j)
    requires r.actions[i].InPhase? && r.actions[i].inner.PollLoad? && r.states[i].row.status !in {Canceled, Failed}
    ensures r.states[i].row.control in {Pause, Cancel}
    ensures Obeying(r.states[j], r.states[i].row.control, r.states[i].row.version)
    ensures j < |r.actions| && r.actions[j].InPhase? ==>
              var a := r.actions[j].inner; !a.Launch? && !a.PollLoad? && !a.PollSave? && !a.PushBranch?
  {
    hide CommandInv, Permitted, Effect, Obeying;
    StopIsThere(r, k, i);
    assert StepAt(r, i);
    ObeysFromThePoll(r, i, j);
    if j < |r.actions| && r.actions[j].InPhase? {
      assert StepAt(r, j);
      CommandInvAlways(r, j);
      PhaseKeepsObeying(r.states[j], r.actions[j].inner, r.states[i].row.control, r.states[i].row.version);
    }
  }

  // ----- What a tick makes of the row it loads

  /** An ended run is left alone, a stop is obeyed first, a run that waits goes on only when resumed. */
  lemma LoadedRowDecides(r: Row)
    ensures r.status in {Completed, Failed, Canceled} ==> Decide(r) == Done(r.status)
    ensures r.status !in {Completed, Failed, Canceled} && r.control in {Pause, Cancel} ==>
              Decide(r) == Halting(r.control, r.version, r.snap, false)
    ensures r.status !in {Completed, Failed, Canceled} && r.control == Resume ==>
              && Decide(r).Resuming? && !Decide(r).resumed && Decide(r).version == r.version
              && Decide(r).max == r.maxAttempts
              && Decide(r).mem == r.snap.(failureCount := 0, repeatedFailures := 0, lastFailed := None,
                   clarifications := if r.clarification == "" then r.snap.clarifications
                                     else r.snap.clarifications + [r.clarification])
    ensures r.status in {Paused, Blocked, Exhausted} && r.control == NoControl ==> Decide(r) == Done(r.status)
    ensures r.status in {Queued, Running, Planning, Executing, Verifying} && r.control == NoControl ==>
              && Decide(r).Owned? && Decide(r).o.mem == r.snap && Decide(r).o.max == r.maxAttempts
              && Decide(r).o.version == r.version && Decide(r).o.raised.None?
  {
    hide Fuel;
  }

  // ----- What the workflow makes of a result

  /** Every result has one of three consequences. */
  lemma ResultDecides(tick: nat, result: Status)
    ensures result in {Completed, Failed, Canceled} ==> NextFlow(tick, result) == Returned
    ensures result in {Paused, Blocked, Exhausted} ==> NextFlow(tick, result) == BlockedOnSignal(tick)
    ensures result in {Queued, Running, Planning, Executing, Verifying} ==> NextFlow(tick, result) == AtLoop(tick + 1)
  {
  }

  /** A signal sent is queued once and wakes once; draining and continuing as new discard what is queued. */
  lemma SignalsAreCounted(r: Run, i: nat)
    requires IsRun(r) && i < |r.actions|
    ensures
      var a, before, after := r.actions[i], r.states[i].queue, r.states[i + 1].queue;
      && (a.Api? && a.api.SendSignal? ==> after == before + 1)
      && (a == Workflow(Receive) ==> before > 0 && after == before - 1)
      && (a == Workflow(Drain) || a == Workflow(ContinueAsNew) ==> after == 0)
  {
    hide Permitted;
    assert StepAt(r, i);
  }

  predicate TakesResult(w: World, a: Action, results: set<Status>) {
    a == Workflow(TakeResult) && w.worker.Done? && w.worker.result in results
  }

  lemma FlowStaysEnded(w: World, a: Action)
    requires Enabled(w, a) && (w.flow.Returned? || w.flow.Aborted?)
    ensures Effect(w, a).flow == w.flow && a != Workflow(Drain)
  {
    hide Permitted;
  }

  lemma FlowStaysBlocked(w: World, a: Action)
    requires Enabled(w, a) && (w.flow.BlockedOnSignal? || w.flow.Returned? || w.flow.Aborted?)
    requires a != Workflow(Receive)
    ensures Effect(w, a).flow.BlockedOnSignal? || Effect(w, a).flow.Returned? || Effect(w, a).flow.Aborted?
    ensures a != Workflow(Drain)
  {
    hide Permitted;
  }

  lemma {:induction false} EndedAfter(r: Run, i: nat, j: nat)
    requires IsRun(r) && i < j < |r.states| && i < |r.actions|
    requires TakesResult(r.states[i], r.actions[i], {Completed, Failed, Canceled})
    ensures r.states[j].flow.Returned?
    decreases j
  {
    hide Permitted;
    assert StepAt(r, j - 1);
    if j == i + 1 {
      ResultDecides(r.states[i].flow.tick, r.states[i].worker.result);
    } else {
      EndedAfter(r, i, j - 1);
      FlowStaysEnded(r.states[j - 1], r.actions[j - 1]);
    }
  }

  /** After a completed, failed or canceled result the workflow has returned, and never ticks again. */
  lemma NoTickAfterTheEnd(r: Run, i: nat, j: nat)
    requires IsRun(r) && i < j < |r.actions|
    requires TakesResult(r.states[i], r.actions[i], {Completed, Failed, Canceled})
    ensures r.states[j].flow.Returned? && r.actions[j] != Workflow(Drain)
  {
    hide Permitted, Effect;
    EndedAfter(r, i, j);
    assert StepAt(r, j);
  }

  lemma {:induction false} BlockedAfter(r: Run, i: nat, j: nat)
    requires IsRun(r) && i < j < |r.states| && i < |r.actions|
    requires TakesResult(r.states[i], r.actions[i], {Paused, Blocked, Exhausted})
    requires forall k :: i < k < j && k < |r.actions| ==> r.actions[k] != Workflow(Receive)
    ensures r.states[j].flow.BlockedOnSignal? || r.states[j].flow.Returned? || r.states[j].flow.Aborted?
    decreases j
  {
    hide Permitted;
    assert StepAt(r, j - 1);
    if j == i + 1 {
      ResultDecides(r.states[i].flow.tick, r.states[i].worker.result);
    } else {
      BlockedAfter(r, i, j - 1);
      FlowStaysBlocked(r.states[j - 1], r.actions[j - 1]);
    }
  }

  /** After a paused, blocked or exhausted result the workflow ticks again only once it has received a signal. */
  lemma NoTickWithoutASignal(r: Run, i: nat, j: nat)
    requires IsRun(r) && i < j < |r.actions| && r.actions[j] == Workflow(Drain)
    requires TakesResult(r.states[i], r.actions[i], {Paused, Blocked, Exhausted})
    ensures exists k :: i < k < j && r.actions[k] == Workflow(Receive)
  {
    hide Permitted, Effect;
    assert StepAt(r, j);
    if forall k :: i < k < j ==> r.actions[k] != Workflow(Receive) {
      BlockedAfter(r, i, j);
    }
  }

  // ----- What the API writes

  /** An accepted command is in the row under a new version, and its wake signal is due, once more. */
  lemma AcceptedCommandIsDue(r: Run, i: nat)
    requires IsRun(r) && i < |r.actions| && r.actions[i].Api? && r.actions[i].api.AcceptCommand?
    ensures
      var w, n, c := r.states[i], r.states[i + 1], r.actions[i].api.cmd;
      && w.row.status !in {Completed, Failed, Canceled} && c.control in {Pause, Resume, Cancel}
      && c.attempts >= 0 && c.seconds >= 0
      && (c.control == Resume ==> w.row.status in {Paused, Blocked, Exhausted} && w.row.control == NoControl)
      && n.row == w.row.(control := c.control, version := w.row.version + 1,
                         clarification := if c.note == "" then w.row.clarification else c.note,
                         maxAttempts := w.row.maxAttempts + c.attempts, maxSeconds := w.row.maxSeconds + c.seconds)
      && n.owed[n.row.version] == w.owed[n.row.version] + 1
  {
    assert StepAt(r, i);
  }

  // ----- What the reconciler writes

  /** A run whose execution was canceled is canceled; one whose execution ended in any other way has failed. */
  lemma RepairSaysHowItEnded(r: Run, i: nat)
    requires IsRun(r) && i < |r.actions| && r.actions[i].Api? && r.actions[i].api.EndRun?
    ensures
      var w, n := r.states[i], r.states[i + 1];
      if w.row.status in {Completed, Failed, Canceled} then n.row == w.row
      else n.row == w.row.(status := if w.flow == Aborted(true) then Canceled else Failed,
                           reason := r.actions[i].api.why)
  {
    assert StepAt(r, i);
  }
}
