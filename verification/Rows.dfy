/** The durable row of one run: its snapshot, and the SQL statements of its four writers. */
module Rows {
  import opened Prelude
  import opened Names
  import opened Plans

  // ----- The snapshot column: the state dictionary of the engine

  datatype Phase =
    | Prepare | MakePlan | ReviewPlan | Implement | Verify | ReviewWork | JudgeWork | Repair | Deliver
    | Unrecognized

  datatype AttemptStatus = AttemptRunning | AttemptCompleted | AttemptInterrupted
  datatype AgentAttempt = AgentAttempt(phase: Phase, status: AttemptStatus)
  datatype Target = Target(repository: string, baseBranch: string, baseCommit: Commit, pushUrl: string)

  datatype Snapshot = Snapshot(
    phase: Phase,
    attempts: nat,
    completed: seq<Name>,
    plan: Option<Plan>,
    baseCommit: Commit,
    headCommit: Commit,
    evidence: seq<Evidence>,
    planReview: Option<Review>,
    review: Option<Review>,
    judge: Option<Judge>,
    failureCount: nat,
    repeatedFailures: nat,
    lastFailed: Option<set<Name>>,
    agentAttempts: seq<AgentAttempt>,
    target: Option<Target>,
    prUrl: string,
    clarifications: seq<string>)

  const EMPTY_SNAPSHOT :=
    Snapshot(Prepare, 0, [], None, NO_COMMIT, NO_COMMIT, [], None, None, None, 0, 0, None, [], None, "", [])

  /** `review.get("passed") and not review.get("findings")`; an absent review does not pass. */
  predicate ReviewPasses(r: Option<Review>) {
    r.Some? && r.value.passed && r.value.findings == []
  }

  // ----- Status and control columns

  datatype Status =
    | Queued | Running | Planning | Executing | Verifying
    | Paused | Blocked | Exhausted
    | Completed | Failed | Canceled
  datatype Control = NoControl | Pause | Resume | Cancel

  predicate Terminal(s: Status) { s.Completed? || s.Failed? || s.Canceled? }
  predicate Waiting(s: Status) { s.Paused? || s.Blocked? || s.Exhausted? }
  predicate Active(s: Status) { !Terminal(s) && !Waiting(s) }
  /** Outcomes that a pending pause or cancel overrides. */
  predicate Overridable(s: Status) { s.Completed? || s.Blocked? || s.Exhausted? }

  datatype Row = Row(
    status: Status,
    reason: string,
    snap: Snapshot,
    control: Control,
    version: nat,
    clarification: string,
    maxAttempts: nat,
    maxSeconds: nat,
    requestPr: bool)

  const MAX_INTEGER := 0x7fff_ffff
  const STOPPED_BY_USER := "Stopped by user request"

  function Clip(reason: string): string {
    if |reason| > 8000 then reason[..8000] else reason
  }

  /** ProjectStore.save: guarded by the terminal statuses, overridden by a pending pause or cancel. */
  function SaveRow(r: Row, s: Snapshot, st: Status, reason: string): Row {
    if Terminal(r.status) && r.status != st then r
    else if Overridable(st) && r.control.Cancel? then r.(snap := s, status := Canceled, reason := STOPPED_BY_USER)
    else if Overridable(st) && r.control.Pause? then r.(snap := s, status := Paused, reason := STOPPED_BY_USER)
    else r.(snap := s, status := st, reason := Clip(reason))
  }

  /** ProjectStore.consume_control: clears the command only at the version its tick observed. */
  function ConsumeRow(r: Row, c: Control, version: nat): Row {
    if r.control == c && r.version == version then r.(control := NoControl) else r
  }

  datatype Command = Command(control: Control, attempts: int, seconds: int, note: string)

  /** ControlRun's argument checks. */
  predicate WellFormed(c: Command) {
    && !c.control.NoControl?
    && 0 <= c.attempts <= 10000 && 0 <= c.seconds <= 604800 && |c.note| <= 100000
    && (!c.control.Resume? ==> c.attempts == 0 && c.seconds == 0 && c.note == "")
  }

  /** ControlRun's WHERE clause, with the INTEGER range of the two limits. */
  predicate Accepts(r: Row, c: Command) {
    && WellFormed(c)
    && !Terminal(r.status)
    && (c.control.Resume? ==> Waiting(r.status) && r.control.NoControl?)
    && r.maxAttempts + c.attempts <= MAX_INTEGER && r.maxSeconds + c.seconds <= MAX_INTEGER
  }

  function ControlRow(r: Row, c: Command): Row
    requires WellFormed(c)
  {
    r.(control := c.control, version := r.version + 1,
       clarification := if c.note == "" then r.clarification else c.note,
       maxAttempts := r.maxAttempts + c.attempts, maxSeconds := r.maxSeconds + c.seconds)
  }

  /** reconcile's repair of a run whose workflow has ended. */
  function EndRow(r: Row, st: Status, reason: string): Row {
    if Terminal(r.status) then r else r.(status := st, reason := reason)
  }

  /** The row in Postgres. Each method is one atomic statement. */
  class RunRow {
    var status: Status
    var reason: string
    var snap: Snapshot
    var control: Control
    var version: nat
    var clarification: string
    var maxAttempts: nat
    var maxSeconds: nat
    const requestPr: bool

    constructor (attempts: nat, seconds: nat, requestPr: bool)
      ensures Value() == Row(Queued, "", EMPTY_SNAPSHOT, NoControl, 0, "", attempts, seconds, requestPr)
    {
      status, reason, snap := Queued, "", EMPTY_SNAPSHOT;
      control, version, clarification := NoControl, 0, "";
      maxAttempts, maxSeconds, this.requestPr := attempts, seconds, requestPr;
    }

    function Value(): Row
      reads this
    {
      Row(status, reason, snap, control, version, clarification, maxAttempts, maxSeconds, requestPr)
    }

    method Load() returns (r: Row)
      ensures r == Value()
    {
      r := Value();
    }

    method Save(s: Snapshot, st: Status, why: string) returns (actual: Status)
      modifies this
      ensures Value() == SaveRow(old(Value()), s, st, why)
      ensures actual == status
      ensures old(status) in {Completed, Failed, Canceled} && st != old(status) ==> Value() == old(Value())
      ensures old(status) !in {Completed, Failed, Canceled} || st == old(status) ==>
                && snap == s
                && status == (if st !in {Completed, Blocked, Exhausted} then st
                              else if old(control) == Cancel then Canceled
                              else if old(control) == Pause then Paused
                              else st)
                && reason == (if st in {Completed, Blocked, Exhausted} && old(control) in {Pause, Cancel}
                              then "Stopped by user request"
                              else if |why| > 8000 then why[..8000] else why)
                && Value() == old(Value()).(snap := s, status := status, reason := reason)
    {
      if !Terminal(status) || status == st {
        snap := s;
        if Overridable(st) && (control.Cancel? || control.Pause?) {
          status := if control.Cancel? then Canceled else Paused;
          reason := STOPPED_BY_USER;
        } else {
          status := st;
          reason := Clip(why);
        }
      }
      actual := status;
    }

    method ConsumeControl(c: Control, v: nat)
      modifies this
      ensures Value() == ConsumeRow(old(Value()), c, v)
      ensures control == if old(control) == c && old(version) == v then NoControl else old(control)
      ensures Value() == old(Value()).(control := control)
    {
      if control == c && version == v {
        control := NoControl;
      }
    }

    /** ControlRun: rejected without any change, or saved in one statement with a new version. */
    method ControlRun(c: Command) returns (accepted: bool)
      modifies this
      ensures accepted <==> Accepts(old(Value()), c)
      ensures Value() == if accepted then ControlRow(old(Value()), c) else old(Value())
      ensures accepted <==>
                && c.control in {Pause, Resume, Cancel} && old(status) !in {Completed, Failed, Canceled}
                && (c.control == Resume ==> old(status) in {Paused, Blocked, Exhausted} && old(control) == NoControl)
                && (c.control != Resume ==> c.attempts == 0 && c.seconds == 0 && c.note == "")
                && 0 <= c.attempts <= 10000 && 0 <= c.seconds <= 604800 && |c.note| <= 100000
                && old(maxAttempts) + c.attempts <= 2147483647 && old(maxSeconds) + c.seconds <= 2147483647
      ensures accepted ==>
                && control == c.control && version == old(version) + 1
                && clarification == (if c.note == "" then old(clarification) else c.note)
                && maxAttempts == old(maxAttempts) + c.attempts && maxSeconds == old(maxSeconds) + c.seconds
                && status == old(status) && reason == old(reason) && snap == old(snap)
    {
      if !WellFormed(c) {
        return false;
      }
      if Terminal(status) || (c.control.Resume? && !(Waiting(status) && control.NoControl?)) {
        return false;
      }
      if maxAttempts + c.attempts > MAX_INTEGER || maxSeconds + c.seconds > MAX_INTEGER {
        return false;
      }
      control, version := c.control, version + 1;
      if c.note != "" {
        clarification := c.note;
      }
      maxAttempts, maxSeconds := maxAttempts + c.attempts, maxSeconds + c.seconds;
      accepted := true;
    }

    method MarkEnded(canceled: bool, why: string)
      modifies this
      ensures Value() == EndRow(old(Value()), if canceled then Canceled else Failed, why)
      ensures Value() == if old(status) in {Completed, Failed, Canceled} then old(Value())
                         else old(Value()).(status := if canceled then Canceled else Failed, reason := why)
    {
      if !Terminal(status) {
        status := if canceled then Canceled else Failed;
        reason := why;
      }
    }
  }

  /** runLimits: defaults for absent limits, and the accepted ranges. */
  method RunLimits(attempts0: int, seconds0: int) returns (r: Option<(int, int)>)
    ensures r.Some? <==> (attempts0 == 0 || 1 <= attempts0 <= 10000) && (seconds0 == 0 || 60 <= seconds0 <= 604800)
    ensures r.Some? ==> 1 <= r.value.0 <= 10000 && 60 <= r.value.1 <= 604800
    ensures r.Some? && attempts0 != 0 ==> r.value.0 == attempts0
    ensures r.Some? && seconds0 != 0 ==> r.value.1 == seconds0
    ensures r.Some? && attempts0 == 0 ==> r.value.0 == 30
    ensures r.Some? && seconds0 == 0 ==> r.value.1 == 14400
  {
    var attempts, seconds := attempts0, seconds0;
    if attempts == 0 {
      attempts := 30;
    }
    if seconds == 0 {
      seconds := 14400;
    }
    if attempts < 1 || attempts > 10000 || seconds < 60 || seconds > 604800 {
      return None;
    }
    r := Some((attempts, seconds));
  }
}
