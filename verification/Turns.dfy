/**
 The event consumer's loop seen from the topic: per partition a committed offset and a position, and
 what one turn, poll, write and commit, makes of them. How far commits can come is decided here.
 */
module Turns {
  import opened Prelude

  /** A JSON object; storable if every value has the type of its column in the sink's fixed schema. */
  datatype Event = Event(fields: string, storable: bool)

  /**
   A message body. Raising: bytes that are no text, no body at all, or nesting too deep; json.loads
   then raises something other than a JSONDecodeError.
   */
  datatype Message = JsonObject(event: Event) | OtherJson | NotJson | Raising

  type Log = seq<seq<Message>>

  /** Only a JSONDecodeError is caught; whatever else parsing raises leaves the loop. */
  function Parse(m: Message): Result<Option<Event>, string> {
    match m
    case JsonObject(event) => Success(Some(event))
    case OtherJson => Success(None)
    case NotJson => Success(None)
    case Raising => Failure("not a JSONDecodeError")
  }

  /** Parsing does not raise, and the sink can store what comes of it. */
  predicate Clean(m: Message) {
    match m
    case JsonObject(event) => event.storable
    case Raising => false
    case _ => true
  }

  ghost predicate CleanPart(messages: seq<Message>, x: nat, y: nat) {
    forall k :: x <= k < y && k < |messages| ==> Clean(messages[k])
  }

  ghost predicate ObjectIn(messages: seq<Message>, x: nat, y: nat) {
    exists k :: x <= k < y && k < |messages| && messages[k].JsonObject?
  }

  // ----- Turns

  /** The offsets that a life of the process began from, and the next ones it will be handed. */
  datatype Marks = Marks(committed: seq<nat>, position: seq<nat>)

  /** Killed: at any point before the commit. The other two are failures of the store and of Kafka. */
  datatype Luck = Fine | Killed | WriteFails | CommitFails

  /** One turn over a poll that hands out every partition up to these offsets. */
  datatype Turn = Turn(ends: seq<nat>, luck: Luck)

  /** Between two turns no batch is pending: what lies between commit and position was not worth one. */
  ghost predicate MarksFit(log: Log, m: Marks) {
    && |m.committed| == |m.position| == |log|
    && forall p :: 0 <= p < |log| ==>
         && m.committed[p] <= m.position[p] <= |log[p]|
         && CleanPart(log[p], 0, m.position[p]) && !ObjectIn(log[p], m.committed[p], m.position[p])
  }

  predicate Allowed(log: Log, m: Marks, ends: seq<nat>) {
    && |ends| == |m.position| == |log|
    && forall p :: 0 <= p < |log| ==> m.position[p] <= ends[p] <= |log[p]|
  }

  ghost predicate AllClean(log: Log, x: seq<nat>, y: seq<nat>)
    requires |x| == |y| == |log|
  {
    forall p :: 0 <= p < |log| ==> CleanPart(log[p], x[p], y[p])
  }

  ghost predicate SomeObject(log: Log, x: seq<nat>, y: seq<nat>)
    requires |x| == |y| == |log|
  {
    exists p :: 0 <= p < |log| && ObjectIn(log[p], x[p], y[p])
  }

  /** What one turn makes of the marks; a process that ends is followed by one that starts from the commits. */
  ghost function Turned(log: Log, m: Marks, t: Turn): Marks
    requires Allowed(log, m, t.ends)
  {
    if t.luck.Killed? || !AllClean(log, m.position, t.ends) then Marks(m.committed, m.committed)
    else if !SomeObject(log, m.position, t.ends) then Marks(m.committed, t.ends)
    else if t.luck.Fine? then Marks(t.ends, t.ends)
    else Marks(m.committed, m.committed)
  }

  /** The marks after a sequence of turns, if the log has what each of them hands out. */
  ghost function AfterTurns(log: Log, m: Marks, turns: seq<Turn>): Option<Marks> {
    if turns == [] then Some(m)
    else
      var before := AfterTurns(log, m, turns[..|turns| - 1]);
      if before.Some? && Allowed(log, before.value, turns[|turns| - 1].ends)
      then Some(Turned(log, before.value, turns[|turns| - 1]))
      else None
  }

  lemma OneMoreTurn(log: Log, m: Marks, turns: seq<Turn>, t: Turn)
    requires AfterTurns(log, m, turns).Some? && Allowed(log, AfterTurns(log, m, turns).value, t.ends)
    ensures AfterTurns(log, m, turns + [t]) == Some(Turned(log, AfterTurns(log, m, turns).value, t))
  {
    hide Turned, Allowed;
    assert (turns + [t])[..|turns|] == turns;
  }

  lemma NoTurns(log: Log, m: Marks)
    ensures AfterTurns(log, m, []) == Some(m)
  {
  }

  lemma TurnedFits(log: Log, m: Marks, t: Turn)
    requires MarksFit(log, m) && Allowed(log, m, t.ends)
    ensures MarksFit(log, Turned(log, m, t))
  {
  }

  lemma {:induction false} TurnsFit(log: Log, m: Marks, turns: seq<Turn>)
    requires MarksFit(log, m) && AfterTurns(log, m, turns).Some?
    ensures MarksFit(log, AfterTurns(log, m, turns).value)
  {
    hide Turned, MarksFit;
    if turns != [] {
      TurnsFit(log, m, turns[..|turns| - 1]);
      TurnedFits(log, AfterTurns(log, m, turns[..|turns| - 1]).value, turns[|turns| - 1]);
    }
  }

  // ----- What holds wherever polls are cut

  /** Over clean messages a turn that nothing befalls keeps all it was handed. */
  lemma LastTurn(log: Log, m: Marks, turns: seq<Turn>)
    requires MarksFit(log, m) && AfterTurns(log, m, turns).Some? && turns != []
    requires forall p :: 0 <= p < |log| ==> CleanPart(log[p], m.committed[p], |log[p]|)
    requires turns[|turns| - 1].luck.Fine?
    ensures AfterTurns(log, m, turns).value.position == turns[|turns| - 1].ends
  {
    TurnsFit(log, m, turns[..|turns| - 1]);
  }

  /**
   If no message raises or is refused from the commits on, one turn that nothing befalls makes up for
   all that went wrong before it: every object below the end of its poll is committed.
   */
  lemma CleanTopicsAreCommitted(log: Log, m: Marks, turns: seq<Turn>)
    requires MarksFit(log, m) && AfterTurns(log, m, turns).Some?
    requires forall p :: 0 <= p < |log| ==> CleanPart(log[p], m.committed[p], |log[p]|)
    requires turns != [] && turns[|turns| - 1].luck.Fine?
    ensures
      var n := AfterTurns(log, m, turns).value;
      && n.position == turns[|turns| - 1].ends && |n.committed| == |log|
      && forall p, o :: 0 <= p < |log| && 0 <= o < n.position[p] && log[p][o].JsonObject? ==> o < n.committed[p]
  {
    hide AfterTurns;
    assert AfterTurns(log, m, turns).value.position == turns[|turns| - 1].ends by {
      LastTurn(log, m, turns);
    }
    TurnsFit(log, m, turns);
    var n := AfterTurns(log, m, turns).value;
    forall p, o | 0 <= p < |log| && 0 <= o < n.position[p] && log[p][o].JsonObject?
      ensures o < n.committed[p]
    {
      assert !ObjectIn(log[p], n.committed[p], n.position[p]);
    }
  }

  /** Neither commit nor position gets past a message that raises or is refused, and commits only grow. */
  lemma {:induction false} UncleanStopsCommits(log: Log, m: Marks, turns: seq<Turn>, p: nat, o: nat)
    requires MarksFit(log, m) && AfterTurns(log, m, turns).Some? && p < |log| && o < |log[p]| && !Clean(log[p][o])
    ensures
      var n := AfterTurns(log, m, turns).value;
      |n.committed| == |log| && m.committed[p] <= n.committed[p] <= o
  {
    TurnsFit(log, m, turns);
    if turns != [] {
      var before, t := turns[..|turns| - 1], turns[|turns| - 1];
      UncleanStopsCommits(log, m, before, p, o);
      TurnsFit(log, m, before);
      var b := AfterTurns(log, m, before).value;
      assert b.committed[p] <= b.position[p] <= o;
      assert AllClean(log, b.position, t.ends) ==> t.ends[p] <= o;
    }
  }

  /** Without an object from the commits on, nothing is committed ever. */
  lemma {:induction false} CommitsNeedAnObject(log: Log, m: Marks, turns: seq<Turn>)
    requires MarksFit(log, m) && AfterTurns(log, m, turns).Some?
    requires forall q :: 0 <= q < |log| ==> !ObjectIn(log[q], m.committed[q], |log[q]|)
    ensures AfterTurns(log, m, turns).value.committed == m.committed
  {
    if turns != [] {
      var before := turns[..|turns| - 1];
      CommitsNeedAnObject(log, m, before);
      TurnsFit(log, m, before);
    }
  }

  // ----- The exact condition, for polls as they are handed out

  /** Per partition, up to where a poll from an offset is handed out: always something, while there is any. */
  type Handing = seq<nat -> nat>

  ghost predicate HandsOut(log: Log, handed: Handing) {
    && |handed| == |log|
    && forall p, x :: 0 <= p < |log| && 0 <= x < |log[p]| ==> x < handed[p](x) <= |log[p]|
  }

  /** Each partition is returned as far as it is handed out, or not at all. */
  ghost predicate HandedOut(log: Log, handed: Handing, position: seq<nat>, ends: seq<nat>) {
    && |handed| == |position| == |ends| == |log|
    && forall p :: 0 <= p < |log| ==>
         ends[p] == position[p] || (position[p] < |log[p]| && ends[p] == handed[p](position[p]))
  }

  ghost predicate AsHanded(log: Log, handed: Handing, m: Marks, turns: seq<Turn>) {
    turns == [] ||
      var before := turns[..|turns| - 1];
      && AsHanded(log, handed, m, before) && AfterTurns(log, m, before).Some?
      && HandedOut(log, handed, AfterTurns(log, m, before).value.position, turns[|turns| - 1].ends)
  }

  ghost predicate CommittedPast(log: Log, m: Marks, turns: seq<Turn>, p: nat, o: nat) {
    var n := AfterTurns(log, m, turns);
    n.Some? && p < |n.value.committed| && n.value.committed[p] > o
  }

  /** Some sequence of turns commits past offset o of partition p, with nothing more produced. */
  ghost predicate CanCommitPast(log: Log, handed: Handing, m: Marks, p: nat, o: nat) {
    exists turns :: AsHanded(log, handed, m, turns) && CommittedPast(log, m, turns, p, o)
  }

  /** What is handed out from offset x on is clean. */
  ghost predicate Passable(messages: seq<Message>, hand: nat -> nat, x: nat) {
    x < |messages| && x < hand(x) <= |messages| && CleanPart(messages, x, hand(x))
  }

  /** Clean polls lead from offset x to offset y. */
  ghost predicate Reaches(messages: seq<Message>, hand: nat -> nat, x: nat, y: nat)
    decreases |messages| - x
  {
    x == y || (Passable(messages, hand, x) && Reaches(messages, hand, hand(x), y))
  }

  /** A clean poll of partition q from offset x on, which clean polls lead to, has an object to commit for. */
  ghost predicate HasBatch(log: Log, handed: Handing, from: seq<nat>, q: nat, x: nat) {
    && q < |log| && q < |handed| && q < |from| && Reaches(log[q], handed[q], from[q], x)
    && Passable(log[q], handed[q], x) && ObjectIn(log[q], x, handed[q](x))
  }

  /**
   Clean polls of p lead past o, and some partition then has a batch: another one any at all, p itself
   one that ends past o.
   */
  ghost predicate Passes(log: Log, handed: Handing, from: seq<nat>, p: nat, o: nat) {
    && p < |log| && p < |handed| && p < |from|
    && (exists y :: o < y && Reaches(log[p], handed[p], from[p], y))
    && exists q: nat, x: nat :: HasBatch(log, handed, from, q, x) && (q == p ==> o < handed[q](x))
  }

  lemma {:induction false} ReachesOnce(messages: seq<Message>, hand: nat -> nat, x: nat, y: nat)
    requires Reaches(messages, hand, x, y) && Passable(messages, hand, y)
    ensures Reaches(messages, hand, x, hand(y))
    decreases |messages| - x
  {
    if x != y {
      ReachesOnce(messages, hand, hand(x), y);
    }
  }

  /** The marks n have been reached by clean polls from these offsets. */
  ghost predicate From(log: Log, handed: Handing, from: seq<nat>, committed: seq<nat>, n: Marks) {
    && |from| == |handed| == |n.position| == |n.committed| == |log|
    && (forall p :: 0 <= p < |log| ==> Reaches(log[p], handed[p], from[p], n.position[p]))
    && (n.committed == committed || forall p :: 0 <= p < |log| ==> Reaches(log[p], handed[p], from[p], n.committed[p]))
  }

  lemma FromPolled(log: Log, handed: Handing, from: seq<nat>, committed: seq<nat>, b: Marks, ends: seq<nat>)
    requires From(log, handed, from, committed, b) && HandsOut(log, handed) && HandedOut(log, handed, b.position, ends)
    requires AllClean(log, b.position, ends)
    ensures forall p :: 0 <= p < |log| ==> Reaches(log[p], handed[p], from[p], ends[p])
  {
    forall p | 0 <= p < |log|
      ensures Reaches(log[p], handed[p], from[p], ends[p])
    {
      if ends[p] != b.position[p] {
        ReachesOnce(log[p], handed[p], from[p], b.position[p]);
      }
    }
  }

  /** Every state along turns as handed out is reached from the position or, after a death, from the commits. */
  lemma {:induction false} TurnsReach(log: Log, handed: Handing, m: Marks, turns: seq<Turn>)
    requires MarksFit(log, m) && HandsOut(log, handed) && AsHanded(log, handed, m, turns)
    requires AfterTurns(log, m, turns).Some?
    ensures
      var n := AfterTurns(log, m, turns).value;
      From(log, handed, m.position, m.committed, n) || From(log, handed, m.committed, m.committed, n)
  {
    if turns != [] {
      var before, t := turns[..|turns| - 1], turns[|turns| - 1];
      TurnsReach(log, handed, m, before);
      var b := AfterTurns(log, m, before).value;
      var from := if From(log, handed, m.position, m.committed, b) then m.position else m.committed;
      if AllClean(log, b.position, t.ends) {
        FromPolled(log, handed, from, m.committed, b, t.ends);
      }
    }
  }

  /** The turn that commits past o shows that the condition held where it came from. */
  lemma CommitPasses(log: Log, handed: Handing, from: seq<nat>, committed: seq<nat>, b: Marks, t: Turn, p: nat, o: nat)
    requires HandsOut(log, handed) && From(log, handed, from, committed, b) && Allowed(log, b, t.ends)
    requires HandedOut(log, handed, b.position, t.ends) && p < |log|
    requires b.committed[p] <= o < Turned(log, b, t).committed[p]
    ensures Passes(log, handed, from, p, o)
  {
    FromPolled(log, handed, from, committed, b, t.ends);
    assert o < t.ends[p] && Reaches(log[p], handed[p], from[p], t.ends[p]);
    var q :| 0 <= q < |log| && ObjectIn(log[q], b.position[q], t.ends[q]);
    assert HasBatch(log, handed, from, q, b.position[q]);
  }

  lemma {:induction false} PastOnlyIf(log: Log, handed: Handing, m: Marks, turns: seq<Turn>, p: nat, o: nat)
    requires MarksFit(log, m) && HandsOut(log, handed) && AsHanded(log, handed, m, turns)
    requires p < |log| && m.committed[p] <= o && CommittedPast(log, m, turns, p, o)
    ensures Passes(log, handed, m.position, p, o) || Passes(log, handed, m.committed, p, o)
  {
    hide Passes, Turned, Reaches, HandsOut, HandedOut, Allowed, From;
    var before, t := turns[..|turns| - 1], turns[|turns| - 1];
    TurnsFit(log, m, before);
    if CommittedPast(log, m, before, p, o) {
      PastOnlyIf(log, handed, m, before, p, o);
    } else {
      TurnsReach(log, handed, m, before);
      var b := AfterTurns(log, m, before).value;
      var from := if From(log, handed, m.position, m.committed, b) then m.position else m.committed;
      CommitPasses(log, handed, from, m.committed, b, t, p, o);
    }
  }

  /** One clean poll of partition p alone. */
  lemma PollOne(log: Log, handed: Handing, m: Marks, turns: seq<Turn>, p: nat) returns (more: seq<Turn>)
    requires MarksFit(log, m) && HandsOut(log, handed) && AsHanded(log, handed, m, turns)
    requires AfterTurns(log, m, turns).Some? && p < |log|
    requires |AfterTurns(log, m, turns).value.position| == |log|
    requires Passable(log[p], handed[p], AfterTurns(log, m, turns).value.position[p])
    ensures AsHanded(log, handed, m, more) && AfterTurns(log, m, more).Some?
    ensures
      var b, n := AfterTurns(log, m, turns).value, AfterTurns(log, m, more).value;
      && |b.position| == |log| && n.position == b.position[p := handed[p](b.position[p])]
      && (ObjectIn(log[p], b.position[p], handed[p](b.position[p])) ==> n.committed == n.position)
  {
    TurnsFit(log, m, turns);
    var b := AfterTurns(log, m, turns).value;
    var t := Turn(b.position[p := handed[p](b.position[p])], Fine);
    more := turns + [t];
    OneMoreTurn(log, m, turns, t);
    assert more[..|more| - 1] == turns;
  }

  /** Polls partition p alone until it has reached y. */
  lemma {:induction false} PollUpTo(log: Log, handed: Handing, m: Marks, turns: seq<Turn>, p: nat, y: nat)
    returns (more: seq<Turn>)
    requires MarksFit(log, m) && HandsOut(log, handed) && AsHanded(log, handed, m, turns)
    requires AfterTurns(log, m, turns).Some? && p < |log|
    requires |AfterTurns(log, m, turns).value.position| == |log|
    requires Reaches(log[p], handed[p], AfterTurns(log, m, turns).value.position[p], y)
    ensures AsHanded(log, handed, m, more) && AfterTurns(log, m, more).Some?
    ensures AfterTurns(log, m, more).value.position == AfterTurns(log, m, turns).value.position[p := y]
    decreases |log[p]| - AfterTurns(log, m, turns).value.position[p]
  {
    hide AfterTurns, AsHanded, MarksFit, HandsOut;
    var b := AfterTurns(log, m, turns).value;
    more := turns;
    if b.position[p] != y {
      more := PollOne(log, handed, m, turns, p);
      more := PollUpTo(log, handed, m, more, p, y);
    }
  }

  /** From where the condition holds, polls of p and of the partition with the batch commit past o. */
  lemma PastIf(log: Log, handed: Handing, m: Marks, turns: seq<Turn>, p: nat, o: nat) returns (more: seq<Turn>)
    requires MarksFit(log, m) && HandsOut(log, handed) && AsHanded(log, handed, m, turns)
    requires AfterTurns(log, m, turns).Some? && Passes(log, handed, AfterTurns(log, m, turns).value.position, p, o)
    ensures AsHanded(log, handed, m, more) && CommittedPast(log, m, more, p, o)
  {
    hide AfterTurns, AsHanded, HandsOut, Reaches;
    TurnsFit(log, m, turns);
    var from := AfterTurns(log, m, turns).value.position;
    var y :| o < y && Reaches(log[p], handed[p], from[p], y);
    var q: nat, x: nat :| HasBatch(log, handed, from, q, x) && (q == p ==> o < handed[q](x));
    more := turns;
    if q != p {
      more := PollUpTo(log, handed, m, more, p, y);
    }
    more := PollUpTo(log, handed, m, more, q, x);
    more := PollOne(log, handed, m, more, q);
  }

  /** A process that is killed before it has polled anything starts from the commits. */
  lemma KilledFirst(log: Log, handed: Handing, m: Marks)
    requires MarksFit(log, m) && HandsOut(log, handed)
    ensures
      var turns := [Turn(m.position, Killed)];
      AsHanded(log, handed, m, turns) && AfterTurns(log, m, turns) == Some(Marks(m.committed, m.committed))
  {
    var turns := [Turn(m.position, Killed)];
    assert turns[..0] == [];
    assert AfterTurns(log, m, []) == Some(m);
  }

  /**
   The exact condition under which the consumer can still get past an offset, from wherever it is
   between two turns and however the backlog is handed out. A poll that has a message which raises or
   is refused ends the process before it commits anything; and nothing is committed without a batch.
   */
  lemma CommitsPastExactlyWhen(log: Log, handed: Handing, m: Marks, p: nat, o: nat)
    requires MarksFit(log, m) && HandsOut(log, handed) && p < |log| && m.committed[p] <= o
    ensures CanCommitPast(log, handed, m, p, o) <==>
              Passes(log, handed, m.position, p, o) || Passes(log, handed, m.committed, p, o)
  {
    hide Passes, AfterTurns, HandsOut, Turned;
    if CanCommitPast(log, handed, m, p, o) {
      var turns :| AsHanded(log, handed, m, turns) && CommittedPast(log, m, turns, p, o);
      PastOnlyIf(log, handed, m, turns, p, o);
    }
    if Passes(log, handed, m.position, p, o) {
      assert AfterTurns(log, m, []) == Some(m) by { NoTurns(log, m); }
      var turns := PastIf(log, handed, m, [], p, o);
    }
    if Passes(log, handed, m.committed, p, o) {
      KilledFirst(log, handed, m);
      var turns := PastIf(log, handed, m, [Turn(m.position, Killed)], p, o);
    }
  }

  // ----- A backlog that one poll hands out whole

  /** Every partition is handed out to its end. */
  function Whole(log: Log): Handing {
    seq(|log|, p requires 0 <= p < |log| => (x: nat) => |log[p]|)
  }

  ghost predicate CleanRest(log: Log, position: seq<nat>, p: nat) {
    p < |log| && p < |position| && CleanPart(log[p], position[p], |log[p]|)
  }

  /** What is left of partition q is clean and has an object. */
  ghost predicate BatchLeft(log: Log, position: seq<nat>, q: nat) {
    CleanRest(log, position, q) && ObjectIn(log[q], position[q], |log[q]|)
  }

  lemma WholeReaches(messages: seq<Message>, hand: nat -> nat, x: nat, y: nat)
    requires x <= |messages| && hand(x) == |messages|
    ensures Reaches(messages, hand, x, y) <==>
              y == x || (y == |messages| && x < |messages| && CleanPart(messages, x, |messages|))
  {
    if x < |messages| && CleanPart(messages, x, |messages|) {
      assert Passable(messages, hand, x);
    }
    assert !Passable(messages, hand, |messages|);
  }

  lemma WholePasses(log: Log, from: seq<nat>, p: nat, o: nat)
    requires |from| == |log| && forall q :: 0 <= q < |log| ==> from[q] <= |log[q]|
    requires p < |log| && o < |log[p]|
    ensures Passes(log, Whole(log), from, p, o) <==>
              (o < from[p] || CleanRest(log, from, p)) && exists q: nat :: BatchLeft(log, from, q)
  {
    hide Reaches;
    forall q: nat, y: nat | q < |log|
      ensures Reaches(log[q], Whole(log)[q], from[q], y) <==>
                y == from[q] || (y == |log[q]| && from[q] < |log[q]| && CleanRest(log, from, q))
    {
      WholeReaches(log[q], Whole(log)[q], from[q], y);
    }
    forall q: nat
      ensures BatchLeft(log, from, q) <==> q < |log| && HasBatch(log, Whole(log), from, q, from[q])
    {
    }
    if Passes(log, Whole(log), from, p, o) {
      var q: nat, x: nat :| HasBatch(log, Whole(log), from, q, x);
      assert BatchLeft(log, from, q);
    } else if o < from[p] || CleanRest(log, from, p) {
      var y := if o < from[p] then from[p] else |log[p]|;
      assert o < y && Reaches(log[p], Whole(log)[p], from[p], y);
    }
  }

  lemma LeftFromPosition(log: Log, m: Marks, q: nat)
    requires MarksFit(log, m) && BatchLeft(log, m.committed, q)
    ensures BatchLeft(log, m.position, q)
  {
    var k :| m.committed[q] <= k < |log[q]| && log[q][k].JsonObject?;
    assert !ObjectIn(log[q], m.committed[q], m.position[q]);
    assert m.position[q] <= k;
  }

  /**
   The condition when a poll hands out all there is: p has been passed already or its rest is clean,
   and the rest of some partition is clean and has an object.
   */
  lemma WholeCommitsPastExactlyWhen(log: Log, m: Marks, p: nat, o: nat)
    requires MarksFit(log, m) && p < |log| && m.committed[p] <= o < |log[p]|
    ensures CanCommitPast(log, Whole(log), m, p, o) <==>
              && (o < m.position[p] || CleanRest(log, m.position, p))
              && exists q: nat :: BatchLeft(log, m.position, q)
  {
    CommitsPastExactlyWhen(log, Whole(log), m, p, o);
    WholePasses(log, m.position, p, o);
    WholePasses(log, m.committed, p, o);
    forall q: nat | BatchLeft(log, m.committed, q)
      ensures BatchLeft(log, m.position, q)
    {
      LeftFromPosition(log, m, q);
    }
  }

  /** A topic as the consumer first finds it. */
  function Unread(log: Log): Marks {
    var zeros := seq(|log|, _ => 0);
    Marks(zeros, zeros)
  }

  lemma FirstPollStops(log: Log, handed: Handing, p: nat, o: nat)
    requires HandsOut(log, handed) && p < |log| && !Passable(log[p], handed[p], 0)
    ensures !CanCommitPast(log, handed, Unread(log), p, o)
  {
    CommitsPastExactlyWhen(log, handed, Unread(log), p, o);
    assert forall y: nat :: o < y ==> !Reaches(log[p], handed[p], 0, y);
  }

  /**
   A failing input for each part of the condition: a message that raises hides all later ones of its
   partition, an object that the sink refuses is never got past, what is no object never moves a
   commit, and an object is lost with a later message that raises unless the poll is cut between them.
   */
  lemma StuckTopics(log: Log, handed: Handing, event: Event)
    requires HandsOut(log, handed)
    ensures log == [[Raising, JsonObject(event)]] ==> !CanCommitPast(log, handed, Unread(log), 0, 1)
    ensures log == [[JsonObject(event)]] ==> (CanCommitPast(log, handed, Unread(log), 0, 0) <==> event.storable)
    ensures log == [[OtherJson]] ==> !CanCommitPast(log, handed, Unread(log), 0, 0)
    ensures log == [[JsonObject(event), Raising]] ==>
              (CanCommitPast(log, handed, Unread(log), 0, 0) <==> event.storable && handed[0](0) == 1)
  {
    if log == [[OtherJson]] {
      CommitsPastExactlyWhen(log, handed, Unread(log), 0, 0);
    } else if log == [[Raising, JsonObject(event)]] || log == [[JsonObject(event)]]
              || log == [[JsonObject(event), Raising]] {
      assert 0 < handed[0](0) <= |log[0]|;
      if log[0][0] == JsonObject(event) && event.storable && handed[0](0) == 1 {
        assert Passable(log[0], handed[0], 0);
        assert Reaches(log[0], handed[0], 0, 1);
        assert ObjectIn(log[0], 0, 1);
        assert HasBatch(log, handed, Unread(log).position, 0, 0);
        CommitsPastExactlyWhen(log, handed, Unread(log), 0, 0);
      } else {
        assert !Clean(log[0][0]) || (handed[0](0) == 2 && !Clean(log[0][1]));
        FirstPollStops(log, handed, 0, 0);
        FirstPollStops(log, handed, 0, 1);
      }
    }
  }
}
