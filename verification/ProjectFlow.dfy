/**
 The durable workflow loop: drain the wake signals, run one tick, then finish, block on a signal,
 or loop, and continue as new after a hundred ticks. Everybody else acts at every wait.
 */
module ProjectFlow {
  import opened Prelude
  import opened Rows
  import opened Protocol
  import Commands

  /** How an execution ended, or that it is still waiting when the observation stops. */
  datatype Outcome = Finished | ContinuedAsNew | Ended | StillWaiting

  lemma FlowIsMine(w: World, a: Action)
    requires Enabled(w, a) && (a.Workflow? ==> a.flow.AbortFlow?)
    ensures Effect(w, a).flow == w.flow || Effect(w, a).flow.Aborted? || w.flow.NotStarted?
  {
    hide Permitted;
  }

  lemma FlowStaysStarted(w: World, a: Action)
    requires Enabled(w, a) && !w.flow.NotStarted?
    ensures !Effect(w, a).flow.NotStarted?
  {
    hide Permitted;
  }

  lemma Drains(w: World)
    requires w.flow.AtLoop? && w.flow.tick < 100
    ensures Enabled(w, Workflow(Drain)) && Effect(w, Workflow(Drain)).flow == InTick(w.flow.tick)
  {
  }

  lemma Continues(w: World)
    requires w.flow.AtLoop? && w.flow.tick >= 100
    ensures Enabled(w, Workflow(ContinueAsNew)) && Effect(w, Workflow(ContinueAsNew)).flow == AtLoop(0)
  {
  }

  lemma Notices(w: World)
    requires !Terminal(w.row.status) && !w.row.control.NoControl?
    ensures Enabled(w, Api(NoticeCommand)) && w.row.version in Effect(w, Api(NoticeCommand)).owed
  {
  }

  lemma Starts(w: World)
    requires w.flow.NotStarted?
    ensures Enabled(w, Api(StartFlow)) && Effect(w, Api(StartFlow)) == w.(flow := AtLoop(0))
  {
  }

  lemma EndsRun(w: World, why: string)
    requires w.flow.Returned? || w.flow.Aborted?
    ensures Enabled(w, Api(EndRun(why))) && Terminal(Effect(w, Api(EndRun(why))).row.status)
    ensures Effect(w, Api(EndRun(why))).flow == w.flow
  {
  }

  lemma Sends(w: World, v: nat)
    requires v in w.owed && IsRunning(w.flow)
    ensures Enabled(w, Api(SendSignal(v))) && v in Effect(w, Api(SendSignal(v))).delivered
    ensures Effect(w, Api(SendSignal(v))).flow == w.flow
  {
  }

  class ProjectWorkflow {
    ghost var world: World
    ghost var run: Run

    ghost predicate Valid()
      reads this
    {
      IsRun(run) && run.states[|run.states| - 1] == world
    }

    ghost constructor (start: World)
      requires Initial(start)
      ensures Valid() && world == start
    {
      world, run := start, Run([start], []);
    }

    ghost method Take(a: Action)
      requires Valid() && Enabled(world, a)
      modifies this
      ensures Valid() && world == Effect(old(world), a)
    {
      hide Effect, Enabled;
      ExtendPath(run, a);
      run := Run(run.states + [Effect(world, a)], run.actions + [a]);
      world := Effect(world, a);
    }

    /** API, reconciler, activity attempts and ticks take any steps; the execution may be closed from outside. */
    ghost method OthersAct()
      requires Valid()
      modifies this
      ensures Valid() && (world.flow == old(world.flow) || world.flow.Aborted? || old(world.flow).NotStarted?)
    {
      var steps: nat := *;
      while steps > 0
        invariant Valid() && (world.flow == old(world.flow) || world.flow.Aborted? || old(world.flow).NotStarted?)
      {
        var a: Action := *;
        if Enabled(world, a) && (a.Workflow? ==> a.flow.AbortFlow?) {
          FlowIsMine(world, a);
          Take(a);
        }
        steps := steps - 1;
      }
    }

    /** The activity: retried until an attempt returns its status, or answers that it found the lock taken. */
    ghost method ProjectTick(tick: nat) returns (result: Option<Status>)
      requires Valid() && world.flow == InTick(tick)
      modifies this
      ensures Valid()
      ensures match result
              case None => world.flow.Aborted? || world.flow == InTick(tick)
              case Some(st) =>
                world.flow == if st in {Completed, Failed, Canceled} then Returned
                              else if st in {Paused, Blocked, Exhausted} then BlockedOnSignal(tick)
                              else AtLoop(tick + 1)
    {
      var waits: nat := *;
      while waits > 0
        invariant Valid() && (world.flow == InTick(tick) || world.flow.Aborted?)
      {
        OthersAct();
        if world.flow.Aborted? { return None; }
        if world.attached && world.worker.Done? {
          var st := world.worker.result;
          Take(Workflow(TakeResult));
          return Some(st);
        }
        var contended: bool := *;
        if contended && !world.attached {
          Take(Workflow(Contention));
          return Some(Running);
        }
        waits := waits - 1;
      }
      result := None;
    }

    /** Receive: blocks until a signal is queued. */
    ghost method ReceiveSignal(tick: nat) returns (received: bool)
      requires Valid() && world.flow == BlockedOnSignal(tick)
      modifies this
      ensures Valid()
      ensures if received then world.flow == AtLoop(tick + 1)
              else world.flow.Aborted? || world.flow == BlockedOnSignal(tick)
    {
      var waits: nat := *;
      while waits > 0
        invariant Valid() && world.flow == BlockedOnSignal(tick)
      {
        OthersAct();
        if world.flow.Aborted? { return false; }
        if world.queue > 0 {
          Take(Workflow(Receive));
          return true;
        }
        waits := waits - 1;
      }
      received := false;
    }

    /**
     The body of the loop: drain, tick, and switch on the result. It ends the execution, `outcome`, or
     leads to the next round; `result` is what the tick returned.
     */
    ghost method Round(tick: nat) returns (outcome: Option<Outcome>, result: Option<Status>)
      requires Valid() && world.flow == AtLoop(tick) && tick < 100
      modifies this
      ensures Valid() && (outcome.None? ==> world.flow == AtLoop(tick + 1) && result.Some?)
      ensures outcome == Some(Finished) <==> result.Some? && result.value in {Completed, Failed, Canceled}
      ensures outcome == Some(Finished) ==> world.flow.Returned? && world.row.status in {Completed, Failed, Canceled}
      ensures world.flow.BlockedOnSignal? ==> result.Some? && result.value in {Paused, Blocked, Exhausted}
      ensures outcome == Some(Ended) ==> world.flow.Aborted?
      ensures outcome != Some(ContinuedAsNew)
      ensures (outcome == Some(StillWaiting) && world.flow.BlockedOnSignal? && world.queue == 0
               && !world.row.control.NoControl?) ==>
                world.row.version !in world.delivered
    {
      hide Effect, Enabled, Commands.Versions, Commands.WorkerKnows;
      OthersAct();
      if world.flow.Aborted? { return Some(Ended), None; }
      Drains(world);
      Take(Workflow(Drain));
      result := ProjectTick(tick);
      if result.None? { return Some(if world.flow.Aborted? then Ended else StillWaiting), result; }
      if Terminal(result.value) {
        Commands.NormalReturnIsTerminalNow(run);
        return Some(Finished), result;
      }
      if Waiting(result.value) {
        var received := ReceiveSignal(tick);
        if world.flow.Aborted? { return Some(Ended), result; }
        if !received {
          Commands.NoLostWakeUp(run, |run.states| - 1);
          return Some(StillWaiting), result;
        }
      }
      outcome := None;
    }

    /**
     One execution, with the number of its ticks that have returned and the last of their results. It
     finishes exactly for a completed, failed or canceled result, and then the run is terminal; it waits
     for a signal only after a paused, blocked or exhausted one; it continues as new only after a hundred
     ticks; and when seen waiting on a signal with an empty queue waits for no command whose wake signal
     was delivered.
     */
    ghost method Execute() returns (outcome: Outcome, ticks: nat, last: Option<Status>)
      requires Valid() && world.flow == AtLoop(0)
      modifies this
      ensures Valid()
      ensures outcome.Finished? <==> last.Some? && last.value in {Completed, Failed, Canceled}
      ensures outcome.Finished? ==> world.flow.Returned? && world.row.status in {Completed, Failed, Canceled}
      ensures world.flow.BlockedOnSignal? ==> last.Some? && last.value in {Paused, Blocked, Exhausted}
      ensures ticks <= 100 && (outcome.ContinuedAsNew? ==> ticks == 100 && last.Some? && world.flow == AtLoop(0))
      ensures outcome.Ended? ==> world.flow.Aborted?
      ensures (outcome.StillWaiting? && world.flow.BlockedOnSignal? && world.queue == 0
               && !world.row.control.NoControl?) ==>
                world.row.version !in world.delivered
    {
      hide Effect, Enabled, IsPath;
      ticks, last := 0, None;
      for tick := 0 to 100
        invariant Valid() && world.flow == AtLoop(tick) && ticks == tick && (last.Some? <==> tick > 0)
        invariant last.Some? ==> last.value !in {Completed, Failed, Canceled}
      {
        var ended: Option<Outcome>, result: Option<Status> := Round(tick);
        if result.Some? {
          ticks, last := ticks + 1, result;
        }
        if ended.Some? { return ended.value, ticks, last; }
      }
      Continues(world);
      Take(Workflow(ContinueAsNew));
      outcome := ContinuedAsNew;
    }

    /** Anybody takes any steps, but nobody sends the signal that the caller itself has noticed to be due. */
    ghost method AllAct(mine: Option<nat>)
      requires Valid() && (mine.Some? ==> mine.value in world.owed)
      modifies this
      ensures Valid() && (mine.Some? ==> mine.value in world.owed)
      ensures !old(world.flow).NotStarted? ==> !world.flow.NotStarted?
    {
      var steps: nat := *;
      while steps > 0
        invariant Valid() && (mine.Some? ==> mine.value in world.owed)
        invariant !old(world.flow).NotStarted? ==> !world.flow.NotStarted?
      {
        var a: Action := *;
        if Enabled(world, a) && (mine.Some? ==> mine.value in Effect(world, a).owed) {
          if !world.flow.NotStarted? { FlowStaysStarted(world, a); }
          Take(a);
        }
        steps := steps - 1;
      }
    }

    /**
     The reconciler's pass over this run, everybody acting between its steps: an execution that has
     ended leaves a terminal row, and the command found in the row gets its wake signal delivered,
     unless the call fails, which ends the pass and leaves both to the next one. An execution that was
     never started is started.
     */
    ghost method Reconcile() returns (ended: bool, failed: bool)
      requires Valid()
      modifies this
      ensures Valid()
      ensures ended ==> world.row.status in {Completed, Failed, Canceled}
      ensures old(world.row).status !in {Completed, Failed, Canceled} ==> !world.flow.NotStarted?
      ensures failed ==> !old(world.row.control).NoControl? && !IsRunning(world.flow)
      ensures !ended && !failed && !old(world.row.control).NoControl? ==> old(world.row.version) in world.delivered
    {
      hide Effect, Enabled, IsRun, Permitted;
      ended, failed := Terminal(world.row.status), false;
      if ended { return; }
      var command := if world.row.control.NoControl? then None else Some(world.row.version);
      if command.Some? {
        Notices(world);
        Take(Api(NoticeCommand));
      }
      AllAct(command);
      if world.flow.NotStarted? {
        Starts(world);
        Take(Api(StartFlow));
      }
      AllAct(command);
      if world.flow.Returned? || world.flow.Aborted? {
        var why := "Temporal execution ended without a terminal checkpoint";
        EndsRun(world, why);
        Take(Api(EndRun(why)));
        return true, false;
      }
      if command.Some? {
        var v := command.value;
        if !IsRunning(world.flow) { return false, true; }
        Sends(world, v);
        Take(Api(SendSignal(v)));
      }
    }
  }
}
