/** The event consumer: poll, write one object, then commit; with the process dying anywhere in between. */
module Consumer {
  import opened Prelude
  import opened Turns

  datatype Record = Record(partition: nat, offset: nat, event: Event)

  /** An object in the store, with the life of the consumer process that wrote it. */
  datatype Written = Written(life: nat, records: seq<Record>)

  /**
   The topic's partitions; per partition the committed offset and the position of this life of the
   process; its batch; the objects in the store; and the committed offsets each life started from.
   */
  datatype State = State(
    log: Log,
    committed: seq<nat>,
    position: seq<nat>,
    batch: seq<Record>,
    objects: seq<Written>,
    life: nat,
    starts: seq<seq<nat>>)

  /** The record that a parseable message becomes. */
  ghost predicate IsRecordOf(log: Log, r: Record) {
    && r.partition < |log| && r.offset < |log[r.partition]|
    && log[r.partition][r.offset] == JsonObject(r.event)
  }

  ghost predicate InSomeObject(objects: seq<Written>, r: Record) {
    exists i :: 0 <= i < |objects| && r in objects[i].records
  }

  // ----- The invariant

  ghost predicate Offsets(s: State) {
    && |s.committed| == |s.position| == |s.log| && |s.starts| == s.life + 1
    && (forall l :: 0 <= l <= s.life ==> |s.starts[l]| == |s.log|)
    && (forall p :: 0 <= p < |s.log| ==> s.starts[s.life][p] <= s.committed[p] <= s.position[p] <= |s.log[p]|)
    && (forall p, o :: 0 <= p < |s.log| && 0 <= o < s.position[p] ==> !s.log[p][o].Raising?)
  }

  /** A parseable message below the position is written or in the batch; below the committed offset, written. */
  ghost predicate NothingSkipped(s: State)
    requires Offsets(s)
  {
    && (forall r :: IsRecordOf(s.log, r) && r.offset < s.position[r.partition] ==>
          InSomeObject(s.objects, r) || r in s.batch)
    && (forall r :: IsRecordOf(s.log, r) && r.offset < s.committed[r.partition] ==> InSomeObject(s.objects, r))
  }

  /** A record of the log that life l took: not committed when it began, and below its position. */
  ghost predicate Taken(s: State, r: Record, l: nat)
    requires Offsets(s)
  {
    && IsRecordOf(s.log, r) && l <= s.life && s.starts[l][r.partition] <= r.offset
    && (l == s.life ==> r.offset < s.position[r.partition])
  }

  /** The batch has records of this life, once each, that are neither committed nor written in it. */
  ghost predicate BatchFits(s: State)
    requires Offsets(s)
  {
    && NoDup(s.batch)
    && (forall r :: r in s.batch ==> Taken(s, r, s.life) && s.committed[r.partition] <= r.offset)
    && (forall i, r :: 0 <= i < |s.objects| && r in s.objects[i].records && s.objects[i].life == s.life ==>
          r !in s.batch)
  }

  /** The sink can store this batch: its schema refuses none of the records. */
  predicate Storable(batch: seq<Record>) {
    forall r :: r in batch ==> r.event.storable
  }

  ghost predicate ObjectsFit(s: State)
    requires Offsets(s)
  {
    && (forall i :: 0 <= i < |s.objects| ==> NoDup(s.objects[i].records) && Storable(s.objects[i].records))
    && (forall i, r :: 0 <= i < |s.objects| && r in s.objects[i].records ==> Taken(s, r, s.objects[i].life))
  }

  ghost predicate OncePerLife(s: State) {
    && (forall i :: 0 <= i < |s.objects| ==> s.objects[i].life <= s.life)
    && (forall i, j, r :: 0 <= i < j < |s.objects| && r in s.objects[i].records && r in s.objects[j].records ==>
          s.objects[i].life < s.objects[j].life)
  }

  ghost predicate Fits(s: State) {
    Offsets(s) && NothingSkipped(s) && BatchFits(s) && ObjectsFit(s) && OncePerLife(s)
  }

  // ----- The steps

  function Produced(s: State, p: nat, m: Message): State
    requires p < |s.log|
  {
    s.(log := s.log[p := s.log[p] + [m]])
  }

  function Restarted(s: State): State {
    s.(position := s.committed, batch := [], life := s.life + 1, starts := s.starts + [s.committed])
  }

  predicate CanConsume(s: State, p: nat) {
    && p < |s.log| && p < |s.position| && s.position[p] < |s.log[p]|
    && Parse(s.log[p][s.position[p]]).Success?
  }

  /** The next message of partition p, parsed into the batch or skipped. */
  function Consumed(s: State, p: nat): State
    requires CanConsume(s, p)
  {
    var record := Parse(s.log[p][s.position[p]]).value;
    s.(position := s.position[p := s.position[p] + 1],
       batch := if record.Some? then s.batch + [Record(p, s.position[p], record.value)] else s.batch)
  }

  function Stored(s: State): State {
    s.(objects := s.objects + [Written(s.life, s.batch)], batch := [])
  }

  function Flushed(s: State): State {
    Stored(s).(committed := s.position)
  }

  lemma ProducedFits(s: State, p: nat, m: Message)
    requires Fits(s) && p < |s.log|
    ensures Fits(Produced(s, p, m))
  {
  }

  lemma RestartedFits(s: State)
    requires Fits(s)
    ensures Fits(Restarted(s))
  {
  }

  lemma ConsumedSkipsNothing(s: State, p: nat)
    requires Offsets(s) && NothingSkipped(s) && CanConsume(s, p)
    ensures Offsets(Consumed(s, p)) && NothingSkipped(Consumed(s, p))
  {
  }

  /** What a batch or an object of this life holds is below the position. */
  lemma TakenLives(s: State)
    requires Fits(s)
    ensures forall i, r :: 0 <= i < |s.objects| && r in s.objects[i].records && s.objects[i].life == s.life ==>
              r.partition < |s.log| && r.offset < s.position[r.partition]
  {
    hide NothingSkipped, BatchFits, OncePerLife;
  }

  lemma ConsumedBatch(s: State, p: nat)
    requires Fits(s) && CanConsume(s, p)
    ensures Offsets(Consumed(s, p)) && BatchFits(Consumed(s, p))
  {
    hide NothingSkipped, ObjectsFit;
    TakenLives(s);
  }

  lemma ConsumedObjects(s: State, p: nat)
    requires Fits(s) && CanConsume(s, p)
    ensures Offsets(Consumed(s, p)) && ObjectsFit(Consumed(s, p)) && OncePerLife(Consumed(s, p))
  {
    hide NothingSkipped, BatchFits;
  }

  lemma ConsumedFits(s: State, p: nat)
    requires Fits(s) && CanConsume(s, p)
    ensures Fits(Consumed(s, p))
  {
    hide Consumed, CanConsume, NothingSkipped, BatchFits, ObjectsFit, OncePerLife;
    ConsumedSkipsNothing(s, p);
    ConsumedBatch(s, p);
    ConsumedObjects(s, p);
  }

  /** What is written or in the batch is written once the batch is. */
  lemma StoredHolds(s: State)
    ensures forall r :: InSomeObject(s.objects, r) || r in s.batch ==> InSomeObject(Stored(s).objects, r)
  {
    var n := Stored(s);
    forall r | InSomeObject(s.objects, r) || r in s.batch
      ensures InSomeObject(n.objects, r)
    {
      if r in s.batch {
        assert r in n.objects[|s.objects|].records;
      } else {
        var i :| 0 <= i < |s.objects| && r in s.objects[i].records;
        assert r in n.objects[i].records;
      }
    }
  }

  lemma StoredSkipsNothing(s: State)
    requires Fits(s)
    ensures Offsets(Stored(s)) && NothingSkipped(Stored(s)) && Offsets(Flushed(s)) && NothingSkipped(Flushed(s))
  {
    hide BatchFits, ObjectsFit, OncePerLife, IsRecordOf, InSomeObject;
    StoredHolds(s);
  }

  lemma StoredObjects(s: State, n: State)
    requires Fits(s) && Storable(s.batch) && (n == Stored(s) || n == Flushed(s)) && Offsets(n)
    ensures ObjectsFit(n) && OncePerLife(n) && BatchFits(n)
  {
    hide NothingSkipped, IsRecordOf;
    assert forall r: Record, l: nat :: Taken(s, r, l) ==> Taken(n, r, l);
  }

  /** The batch as an object: all its records are then in the store, each once in this life. */
  lemma StoredFits(s: State)
    requires Fits(s) && Storable(s.batch)
    ensures Fits(Stored(s)) && Fits(Flushed(s))
  {
    hide Stored, Flushed, NothingSkipped, BatchFits, ObjectsFit, OncePerLife, Offsets, Storable;
    StoredSkipsNothing(s);
    StoredObjects(s, Stored(s));
    StoredObjects(s, Flushed(s));
  }

  // ----- Histories

  /** Flushes: written and committed. CutShort: written, then the process ends. Dies: it ends with its batch. */
  datatype Move = Arrives(p: nat, m: Message) | Takes(p: nat) | Flushes | CutShort | Dies

  predicate Can(s: State, m: Move) {
    match m
    case Arrives(p, _) => p < |s.log|
    case Takes(p) => CanConsume(s, p)
    case Flushes => s.batch != [] && Storable(s.batch)
    case CutShort => s.batch != [] && Storable(s.batch)
    case Dies => true
  }

  function Apply(s: State, m: Move): State
    requires Can(s, m)
  {
    match m
    case Arrives(p, message) => Produced(s, p, message)
    case Takes(p) => Consumed(s, p)
    case Flushes => Flushed(s)
    case CutShort => Restarted(Stored(s))
    case Dies => Restarted(s)
  }

  /** The state after a sequence of moves, if each of them is possible in its turn. */
  function After(s: State, moves: seq<Move>): Option<State> {
    if moves == [] then Some(s)
    else
      var before := After(s, moves[..|moves| - 1]);
      if before.Some? && Can(before.value, moves[|moves| - 1]) then Some(Apply(before.value, moves[|moves| - 1]))
      else None
  }

  ghost predicate NothingArrives(moves: seq<Move>) {
    forall m :: m in moves ==> !m.Arrives?
  }

  lemma MoveFits(s: State, m: Move)
    requires Fits(s) && Can(s, m)
    ensures Fits(Apply(s, m))
  {
    hide Fits, Produced, Consumed, CanConsume, Stored, Flushed, Restarted;
    match m
    case Arrives(p, message) => ProducedFits(s, p, message);
    case Takes(p) => ConsumedFits(s, p);
    case Flushes => StoredFits(s);
    case CutShort => StoredFits(s); RestartedFits(Stored(s));
    case Dies => RestartedFits(s);
  }

  lemma {:induction false} AfterFits(s: State, moves: seq<Move>)
    requires Fits(s) && After(s, moves).Some?
    ensures Fits(After(s, moves).value)
  {
    hide Fits, Apply, Can;
    if moves != [] {
      AfterFits(s, moves[..|moves| - 1]);
      MoveFits(After(s, moves[..|moves| - 1]).value, moves[|moves| - 1]);
    }
  }

  lemma OneMore(s: State, moves: seq<Move>, m: Move)
    requires After(s, moves).Some? && Can(After(s, moves).value, m)
    ensures After(s, moves + [m]) == Some(Apply(After(s, moves).value, m))
    ensures NothingArrives(moves) && !m.Arrives? ==> NothingArrives(moves + [m])
  {
    assert (moves + [m])[..|moves|] == moves;
  }

  // ----- Between two turns

  function MarksOf(s: State): Marks {
    Marks(s.committed, s.position)
  }

  /** No batch is pending, and nothing that is worth one has been passed without a commit. */
  ghost predicate Between(s: State) {
    && s.batch == [] && |s.committed| == |s.position| == |s.log|
    && forall p :: 0 <= p < |s.log| ==> !ObjectIn(s.log[p], s.committed[p], s.position[p])
  }

  lemma BetweenTurns(s: State)
    requires Fits(s) && Between(s)
    ensures MarksFit(s.log, MarksOf(s))
  {
    forall p, k | 0 <= p < |s.log| && 0 <= k < s.position[p]
      ensures Clean(s.log[p][k])
    {
      if s.log[p][k].JsonObject? {
        assert IsRecordOf(s.log, Record(p, k, s.log[p][k].event));
      }
    }
  }

  /** What getmany returns: some partitions, once each, as far as these offsets. */
  predicate Returned(log: Log, m: Marks, returned: seq<nat>, ends: seq<nat>) {
    && Allowed(log, m, ends) && (forall p :: p in returned ==> p < |log|)
    && (forall i, j :: 0 <= i < j < |returned| ==> returned[i] != returned[j])
    && forall p :: 0 <= p < |log| && p !in returned ==> ends[p] == m.position[p]
  }

  /** The batch has exactly what was taken from `from` on. */
  ghost predicate HoldsFrom(s: State, from: seq<nat>) {
    && |from| == |s.position| == |s.log|
    && forall r :: r in s.batch <==>
         IsRecordOf(s.log, r) && from[r.partition] <= r.offset < s.position[r.partition]
  }

  lemma NothingHeld(s: State)
    requires s.batch == [] && |s.position| == |s.log|
    ensures HoldsFrom(s, s.position)
  {
  }

  lemma ConsumedHolds(s: State, p: nat, from: seq<nat>)
    requires HoldsFrom(s, from) && CanConsume(s, p) && from[p] <= s.position[p]
    ensures HoldsFrom(Consumed(s, p), from)
    ensures Consumed(s, p).position == s.position[p := s.position[p] + 1]
  {
  }

  /** A batch with all that a poll handed out is empty, or refused, just when that had no object, or one refused. */
  lemma HeldBatch(s: State, from: seq<nat>)
    requires Offsets(s) && HoldsFrom(s, from)
    ensures s.batch == [] <==> !SomeObject(s.log, from, s.position)
    ensures Storable(s.batch) <==> AllClean(s.log, from, s.position)
  {
    forall p, k | 0 <= p < |s.log| && from[p] <= k < s.position[p] && s.log[p][k].JsonObject?
      ensures Record(p, k, s.log[p][k].event) in s.batch
    {
      assert IsRecordOf(s.log, Record(p, k, s.log[p][k].event));
    }
    if s.batch != [] {
      var r := s.batch[0];
      assert r in s.batch && s.log[r.partition][r.offset].JsonObject?;
      assert ObjectIn(s.log[r.partition], from[r.partition], s.position[r.partition]);
    }
    if AllClean(s.log, from, s.position) {
      forall r | r in s.batch
        ensures r.event.storable
      {
        assert Clean(s.log[r.partition][r.offset]);
      }
    }
  }

  lemma NothingPassed(s: State, n: State)
    requires Fits(s) && Between(s) && Offsets(n) && n.log == s.log && n.committed == s.committed && n.batch == []
    requires !SomeObject(s.log, s.position, n.position)
    ensures Between(n)
  {
    forall p | 0 <= p < |n.log|
      ensures !ObjectIn(n.log[p], n.committed[p], n.position[p])
    {
      assert !ObjectIn(n.log[p], s.position[p], n.position[p]) && !ObjectIn(n.log[p], s.committed[p], s.position[p]);
    }
  }

  /** What a turn makes of a poll that did not raise. */
  lemma PolledTurn(s: State, n: State, t: Turn)
    requires Fits(s) && Between(s) && Fits(n) && n.log == s.log && n.committed == s.committed
    requires Allowed(s.log, MarksOf(s), t.ends) && n.position == t.ends && HoldsFrom(n, s.position)
    ensures
      Turned(s.log, MarksOf(s), t) ==
        if t.luck.Killed? || !Storable(n.batch) || (n.batch != [] && !t.luck.Fine?)
        then Marks(n.committed, n.committed)
        else if n.batch == [] then MarksOf(n) else MarksOf(Flushed(n))
    ensures n.batch == [] ==> Between(n)
  {
    hide NothingSkipped, BatchFits, ObjectsFit, OncePerLife, ObjectIn, CleanPart;
    HeldBatch(n, s.position);
    if n.batch == [] { NothingPassed(s, n); }
  }

  /** A poll that raises leaves nothing behind: what it had batched, of whatever partition, is gone with it. */
  lemma {:induction false} RaisingPollIsForgotten(s: State, takes: seq<Move>)
    requires After(s, takes).Some? && forall m :: m in takes ==> m.Takes?
    ensures Apply(After(s, takes).value, Dies) == Apply(s, Dies)
  {
    if takes != [] {
      var last := takes[|takes| - 1];
      var before := After(s, takes[..|takes| - 1]).value;
      assert last in takes && After(s, takes) == Some(Consumed(before, last.p));
      RaisingPollIsForgotten(s, takes[..|takes| - 1]);
    }
  }

  // ----- The consumer

  class EventConsumer {
    var log: Log
    var committed: seq<nat>
    var position: seq<nat>
    var batch: seq<Record>
    var objects: seq<Written>
    var life: nat
    var starts: seq<seq<nat>>

    constructor (partitions: nat)
      ensures Ready() && log == seq(partitions, _ => []) && MarksOf(Value()) == Unread(log) && objects == []
    {
      var zeros: seq<nat> := seq(partitions, _ => 0);
      log, committed, position := seq(partitions, _ => []), zeros, zeros;
      batch, objects := [], [];
      life, starts := 0, [zeros];
      new;
      assert MarksOf(Value()) == Unread(log);
    }

    function Value(): State
      reads this
    {
      State(log, committed, position, batch, objects, life, starts)
    }

    ghost predicate Valid()
      reads this
    {
      Fits(Value())
    }

    /** At the head of the loop. */
    ghost predicate Ready()
      reads this
    {
      Valid() && Between(Value())
    }

    /** A producer appends a message; the consumer takes no part. */
    method Produce(p: nat, m: Message)
      requires Valid() && p < |log|
      modifies this`log
      ensures Valid() && Value() == Produced(old(Value()), p, m)
      ensures old(Between(Value())) ==> Between(Value())
    {
      ProducedFits(Value(), p, m);
      log := log[p := log[p] + [m]];
    }

    /** The process dies and a new one starts from the committed offsets with an empty batch. */
    method Restart()
      requires Valid()
      modifies this`position, this`batch, this`life, this`starts
      ensures Valid() && Value() == Restarted(old(Value()))
    {
      hide Fits;
      RestartedFits(Value());
      position, batch := committed, [];
      life, starts := life + 1, starts + [committed];
    }

    /** The next message of partition p, if there is one; false if parsing it raises. */
    method Take(p: nat) returns (alive: bool)
      requires Valid() && p < |log|
      modifies this`position, this`batch
      ensures Valid() && alive == (old(position)[p] == |log[p]| || !log[p][old(position)[p]].Raising?)
      ensures old(position)[p] < |log[p]| && alive ==>
                && position == old(position)[p := old(position)[p] + 1]
                && batch == match log[p][old(position)[p]]
                            case JsonObject(event) => old(batch) + [Record(p, old(position)[p], event)]
                            case _ => old(batch)
      ensures if CanConsume(old(Value()), p) then Value() == Consumed(old(Value()), p) else Value() == old(Value())
    {
      hide NothingSkipped, BatchFits, ObjectsFit, OncePerLife;
      if position[p] == |log[p]| { return true; }
      var record := Parse(log[p][position[p]]);
      if record.Failure? { return false; }
      ConsumedFits(Value(), p);
      if record.value.Some? {
        batch := batch + [Record(p, position[p], record.value.value)];
      }
      position := position[p := position[p] + 1];
      alive := true;
    }

    /** These takes, and nothing else, have led here. */
    ghost predicate Polled(start: State, moves: seq<Move>)
      reads this
    {
      (forall m :: m in moves ==> m.Takes?) && After(start, moves) == Some(Value())
    }

    /** The messages of one partition up to this offset, after what this turn has taken already. */
    method TakePart(p: nat, end: nat, ghost start: State, ghost taken: seq<Move>)
      returns (alive: bool, ghost moves: seq<Move>)
      requires Valid() && |start.position| == |position| == |log| && p < |log|
      requires start.position[p] <= position[p] <= end <= |log[p]|
      requires Polled(start, taken) && HoldsFrom(Value(), start.position)
      modifies this`position, this`batch
      ensures Valid() && |position| == |log| && Polled(start, moves) && HoldsFrom(Value(), start.position)
      ensures position == old(position)[p := position[p]]
      ensures if alive then position[p] == end
              else start.position[p] <= position[p] < end && log[p][position[p]].Raising?
    {
      hide Fits, Consumed, HoldsFrom;
      moves := taken;
      while position[p] < end
        invariant Valid() && Polled(start, moves) && HoldsFrom(Value(), start.position)
        invariant |position| == |log| && old(position)[p] <= position[p] <= end
        invariant position == old(position)[p := position[p]]
      {
        if CanConsume(Value(), p) {
          OneMore(start, moves, Takes(p));
          ConsumedHolds(Value(), p, start.position);
        }
        alive := Take(p);
        if !alive { return; }
        moves := moves + [Takes(p)];
      }
      alive := true;
    }

    /**
     getmany and the parsing of what it returned: these partitions, each from the position to its end,
     in whatever order the dictionary has them. It raises with the first message that does.
     */
    method Poll(returned: seq<nat>, ends: seq<nat>) returns (alive: bool, ghost moves: seq<Move>)
      requires Ready() && Returned(log, MarksOf(Value()), returned, ends)
      modifies this`position, this`batch
      ensures Valid() && Polled(old(Value()), moves)
      ensures if alive then position == ends && HoldsFrom(Value(), old(position))
              else !AllClean(log, old(position), ends)
    {
      hide Fits, HoldsFrom, ObjectIn, IsRecordOf;
      NothingHeld(Value());
      moves := [];
      for i := 0 to |returned|
        invariant Valid() && Polled(old(Value()), moves) && HoldsFrom(Value(), old(position)) && |position| == |log|
        invariant forall p :: 0 <= p < |log| ==> position[p] == if p in returned[..i] then ends[p] else old(position)[p]
      {
        assert returned[i] in returned && returned[i] !in returned[..i];
        alive, moves := TakePart(returned[i], ends[returned[i]], old(Value()), moves);
        if !alive { return; }
      }
      alive := true;
    }

    /**
     _flush: the object is written first, unless the sink refuses a record; the offsets are committed
     after. Either may fail, and the process may be killed at any point.
     */
    method Flush(luck: Luck) returns (alive: bool)
      requires Valid()
      modifies this`objects, this`batch, this`committed
      ensures Valid() && (alive <==> old(batch) == [] || (Storable(old(batch)) && luck.Fine?))
      ensures alive ==> Value() == if old(batch) == [] then old(Value()) else Flushed(old(Value()))
      ensures !alive ==>
                || Value() == old(Value())
                || (Storable(old(batch)) && !luck.WriteFails? && Value() == Stored(old(Value())))
    {
      hide Fits;
      if batch == [] { return true; }
      if !Storable(batch) || luck.WriteFails? { return false; }
      var early: bool := *;
      if luck.Killed? && early { return false; }
      StoredFits(Value());
      objects, batch := objects + [Written(life, batch)], [];
      if !luck.Fine? { return false; }
      committed := position;
      alive := true;
    }

    /** One turn of the loop in `run`; whatever ends the process, another one starts from the commits. */
    method Turn(returned: seq<nat>, ends: seq<nat>, luck: Luck) returns (ghost moves: seq<Move>)
      requires Ready() && Returned(log, MarksOf(Value()), returned, ends)
      modifies this
      ensures Ready() && NothingArrives(moves) && After(old(Value()), moves) == Some(Value())
      ensures log == old(log) && MarksOf(Value()) == Turned(log, old(MarksOf(Value())), Turns.Turn(ends, luck))
    {
      hide Fits, Consumed, CleanPart;
      var alive: bool;
      alive, moves := Poll(returned, ends);
      var polled := Value();
      if alive {
        PolledTurn(old(Value()), polled, Turns.Turn(ends, luck));
        alive := Flush(luck);
        if alive && polled.batch != [] {
          OneMore(old(Value()), moves, Flushes);
          moves := moves + [Flushes];
        }
      }
      if !alive || luck.Killed? {
        ghost var last := if Value() == polled then Dies else CutShort;
        OneMore(old(Value()), moves, last);
        moves := moves + [last];
        Restart();
      }
    }
  }

  /** Written twice, in whatever places, only across a restart that found it uncommitted. */
  ghost predicate DuplicatedOnlyByRestarts(objects: seq<Written>, starts: seq<seq<nat>>) {
    && (forall i :: 0 <= i < |objects| ==> NoDup(objects[i].records))
    && forall i, j, r :: 0 <= i < j < |objects| && r in objects[i].records && r in objects[j].records ==>
         && objects[i].life < objects[j].life < |starts|
         && r.partition < |starts[objects[j].life]| && starts[objects[j].life][r.partition] <= r.offset
  }

  lemma FitsMeansDelivered(s: State)
    requires Fits(s)
    ensures forall i, r :: 0 <= i < |s.objects| && r in s.objects[i].records ==> IsRecordOf(s.log, r)
    ensures DuplicatedOnlyByRestarts(s.objects, s.starts)
  {
  }

  /**
   At-least-once delivery over any production, polling, writing, committing and dying: every
   parseable message below its partition's committed offset is in a written object, no object has
   a record twice, and a record is in two objects only if a restart came between them before its
   offset was committed. From the state that is reached, `CommitsPastExactlyWhen` says how far the
   commits can still come.
   */
  method Operate(partitions: nat, turns: nat) returns (s: State)
    ensures Fits(s) && MarksFit(s.log, MarksOf(s))
    ensures forall r :: IsRecordOf(s.log, r) && r.offset < s.committed[r.partition] ==> InSomeObject(s.objects, r)
    ensures forall i, r :: 0 <= i < |s.objects| && r in s.objects[i].records ==>
              IsRecordOf(s.log, r) && r.event.storable
    ensures DuplicatedOnlyByRestarts(s.objects, s.starts)
  {
    var consumer := new EventConsumer(partitions);
    for turn := 0 to turns
      invariant consumer.Ready() && fresh(consumer)
    {
      var p: nat, m: Message := *, *;
      if p < |consumer.log| {
        consumer.Produce(p, m);
      }
      var returned: seq<nat>, ends: seq<nat>, luck: Luck := *, *, *;
      if Returned(consumer.log, MarksOf(consumer.Value()), returned, ends) {
        var _ := consumer.Turn(returned, ends, luck);
      }
    }
    s := consumer.Value();
    BetweenTurns(s);
    FitsMeansDelivered(s);
  }
}
