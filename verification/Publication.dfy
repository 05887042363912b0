/**
 A requested publication is never missing from a completed run: its certified commit was pushed,
 the push was seen to succeed, and after that a pull request was seen at the stored address.
 */
module Publication {
  import opened Prelude
  import opened Plans
  import opened Rows
  import opened Phases
  import opened Protocol
  import Commands
  import opened Snapshots

  /** A recorded address is that of a pull request seen for the commit the judge assessed. */
  ghost predicate UrlMeans(requests: set<Request>, s: Snapshot) {
    s.prUrl != "" ==> s.phase.Deliver? && s.judge.Some? && Request(s.judge.value.commit, s.prUrl) in requests
  }

  /** What a tick pushes and finds a pull request for is the commit its judge assessed. */
  ghost predicate PushesJudged(requests: set<Request>, o: OwnedTick) {
    && (o.pushing.Some? ==> o.mem.phase.Deliver? && o.mem.judge.Some? && o.mem.judge.value.commit == o.pushing.value)
    && (o.published.Some? ==> o.published == o.pushing)
    && (o.seen.Some? ==> o.published.Some? && Request(o.published.value, o.seen.value) in requests)
  }

  ghost predicate PublishedInv(w: World) {
    && (!Terminal(w.row.status) ==> UrlMeans(w.requests, w.row.snap))
    && (Held(w.worker).Some? ==> UrlMeans(w.requests, Held(w.worker).value))
    && (w.worker.Owned? ==> PushesJudged(w.requests, w.worker.o))
    && (w.row.status.Completed? && w.row.requestPr ==>
          w.row.snap.judge.Some? && Request(w.row.snap.judge.value.commit, w.row.snap.prUrl) in w.requests)
  }

  lemma MidSaveUrl(o: OwnedTick, s: Snapshot, repo: Repo, requests: set<Request>)
    requires MidSave(o, s, repo) && UrlMeans(requests, o.mem) && PushesJudged(requests, o)
    ensures UrlMeans(requests, s) && s.phase == o.mem.phase && s.judge == o.mem.judge
  {
  }

  lemma PartialUrl(o: OwnedTick, s: Snapshot, repo: Repo, requests: set<Request>)
    requires Partial(o, s, repo) && UrlMeans(requests, o.mem) && PushesJudged(requests, o)
    ensures UrlMeans(requests, s)
  {
    hide MidHead, MidAttempts, MidEvidence, CompletesTask;
  }

  lemma FinalSaveUrl(o: OwnedTick, s: Snapshot, st: Status, repo: Repo, requests: set<Request>)
    requires FinalSave(o, s, st, repo) && UrlMeans(requests, o.mem) && PushesJudged(requests, o)
    ensures UrlMeans(requests, s)
    ensures st.Completed? ==> s.judge == o.mem.judge && s.judge.Some?
  {
    hide MidHead, MidAttempts, MidEvidence, ValidPlan, Runnable, CompletesTask, EvidenceComplete, AllPassed, FailedIds,
      JudgeReady, ReadyAt, ReviewPasses;
  }

  lemma TurnKeepsPublished(w: World, a: TurnAction)
    requires PublishedInv(w) && Commands.CommandInv(w) && TurnPossible(w, a)
    ensures PublishedInv(TurnEffect(w, a))
  {
    hide Commands.FlowKnows, Commands.Versions;
  }

  predicate Saves(a: PhaseAction) { a.PollSave? || a.EndSave? || a.CancelSave? }

  lemma SaveKeepsPublished(w: World, a: PhaseAction)
    requires PublishedInv(w) && !w.row.status.Completed? && PhasePossible(w, a) && Saves(a)
    requires UrlMeans(w.requests, a.s)
    requires a.PollSave? ==> a.s.phase == w.worker.o.mem.phase && a.s.judge == w.worker.o.mem.judge
    requires a.EndSave? && a.st.Completed? ==> a.s.judge == w.worker.o.mem.judge && a.s.judge.Some?
    requires a.EndSave? && a.st.Completed? && w.row.requestPr ==> Delivers(w.worker.o, a.s)
    ensures PublishedInv(PhaseEffect(w, a))
  {
    hide Fuel, Seals, Clip;
  }

  predicate Publishes(a: PhaseAction) { a.PushBranch? || a.PushAccepted? || a.PullRequestSeen? }

  lemma PublishingKeepsPublished(w: World, a: PhaseAction)
    requires PublishedInv(w) && PhasePossible(w, a) && Publishes(a)
    requires a.PushBranch? ==> w.worker.o.mem.judge.Some? && w.worker.o.mem.judge.value.commit == a.head
    ensures PublishedInv(PhaseEffect(w, a))
  {
    hide Fuel, SaveRow, Polled, AfterPoll;
  }

  /** Work that neither saves nor publishes leaves everything alone that publication is about. */
  ghost predicate SamePublication(w: World, n: World) {
    && n.row == w.row && n.requests == w.requests && w.worker.Owned? && n.worker.Owned?
    && n.worker.o.mem == w.worker.o.mem && n.worker.o.pushing == w.worker.o.pushing
    && n.worker.o.published == w.worker.o.published && n.worker.o.seen == w.worker.o.seen
  }

  lemma WorkFrame(w: World, a: PhaseAction)
    requires PhasePossible(w, a) && !Saves(a) && !Publishes(a)
    ensures SamePublication(w, PhaseEffect(w, a))
  {
    hide Fuel, SaveRow, AfterPoll;
  }

  lemma WorkKeepsPublished(w: World, n: World)
    requires PublishedInv(w) && SamePublication(w, n)
    ensures PublishedInv(n)
  {
  }

  lemma OutsideStepOrder(w: World, a: Action)
    requires Enabled(w, a) && IsOutside(a)
    ensures Effect(w, a).row.requestPr == w.row.requestPr
  {
    hide Permitted;
  }

  lemma StepKeepsPublished(w: World, a: Action)
    requires PublishedInv(w) && Commands.CommandInv(w) && Enabled(w, a)
    ensures PublishedInv(Effect(w, a))
  {
    hide FinalSave, MidSave, Partial, SamePublication, Commands.CommandInv, TurnEffect, PhaseEffect, ApiEffect,
      FlowEffect, AttemptEffect;
    match a
    case Turn(x) => TurnKeepsPublished(w, x);
    case InPhase(x) =>
      NotCompletedWhileHeld(w);
      if x.PollSave? { MidSaveUrl(w.worker.o, x.s, w.repo, w.requests); }
      if x.EndSave? { FinalSaveUrl(w.worker.o, x.s, x.st, w.repo, w.requests); }
      if x.CancelSave? { PartialUrl(w.worker.o, x.s, w.repo, w.requests); }
      if Saves(x) {
        SaveKeepsPublished(w, x);
      } else if Publishes(x) {
        PublishingKeepsPublished(w, x);
      } else {
        WorkFrame(w, x);
        WorkKeepsPublished(w, PhaseEffect(w, x));
      }
    case _ =>
      OutsideStepFrame(w, a);
      OutsideStepOrder(w, a);
  }

  lemma {:induction false} PublishedAlways(r: Run, i: nat)
    requires IsRun(r) && i < |r.states|
    ensures PublishedInv(r.states[i])
  {
    hide Effect, Enabled, Commands.CommandInv;
    if i > 0 {
      PublishedAlways(r, i - 1);
      Commands.CommandInvAlways(r, i - 1);
      assert StepAt(r, i - 1);
      StepKeepsPublished(r.states[i - 1], r.actions[i - 1]);
    }
  }

  ghost predicate Pushed(pushes: seq<Push>, commit: Commit) {
    exists p :: p in pushes && p.head == commit
  }

  /** Only what was pushed can have been published, and only for that is a pull request looked up or made. */
  ghost predicate PushedInv(w: World) {
    && (forall c :: c in w.published ==> Pushed(w.pushes, c))
    && (forall q :: q in w.requests ==> q.head in w.published)
    && (w.worker.Owned? && w.worker.o.published.Some? ==> w.worker.o.published.value in w.published)
    && (w.worker.Owned? && w.worker.o.pushing.Some? ==> Pushed(w.pushes, w.worker.o.pushing.value))
  }

  lemma OnePushMore(pushes: seq<Push>, p: Push)
    ensures Pushed(pushes + [p], p.head)
    ensures forall c :: Pushed(pushes, c) ==> Pushed(pushes + [p], c)
  {
    var more := pushes + [p];
    assert more[|pushes|] in more;
    forall c | Pushed(pushes, c)
      ensures Pushed(more, c)
    {
      var q :| q in pushes && q.head == c;
      assert q in more;
    }
  }

  lemma PushKeepsPushed(w: World, a: PhaseAction)
    requires PushedInv(w) && PhasePossible(w, a) && a.PushBranch?
    ensures PushedInv(PhaseEffect(w, a))
  {
    hide Fuel, Seals, SaveRow, Pushed;
    OnePushMore(w.pushes, Push(w.worker.o.mem.target.value, a.head, w.worker.o.mem));
  }

  lemma PhaseKeepsPushed(w: World, a: PhaseAction)
    requires PushedInv(w) && PhasePossible(w, a) && !a.PushBranch?
    ensures PushedInv(PhaseEffect(w, a))
  {
    hide Fuel, Seals, SaveRow, Pushed;
  }

  lemma StepKeepsPushed(w: World, a: Action)
    requires PushedInv(w) && Enabled(w, a)
    ensures PushedInv(Effect(w, a))
  {
    hide Permitted, PhaseEffect, ApiEffect, FlowEffect, AttemptEffect, Pushed, Fuel, SaveRow;
    match a
    case InPhase(x) => if x.PushBranch? { PushKeepsPushed(w, x); } else { PhaseKeepsPushed(w, x); }
    case Turn(x) =>
    case _ => OutsideStepFrame(w, a);
  }

  lemma {:induction false} PushedAlways(r: Run, i: nat)
    requires IsRun(r) && i < |r.states|
    ensures PushedInv(r.states[i])
  {
    hide Effect, Enabled, Pushed;
    if i > 0 {
      PushedAlways(r, i - 1);
      assert StepAt(r, i - 1);
      StepKeepsPushed(r.states[i - 1], r.actions[i - 1]);
    }
  }

  /**
   In every reachable state, a completed run that was asked for a pull request has pushed the very
   commit at which it is certified, and after that push was accepted a pull request was found or
   created, at the address the run has stored, whatever crashed, was retried or resumed in between.
   */
  lemma RequestedPublicationHappened(r: Run, i: nat)
    requires IsRun(r) && i < |r.states| && r.states[i].row.status.Completed? && r.states[i].row.requestPr
    ensures
      var w := r.states[i];
      && Certified(w.row.snap) && Request(w.row.snap.judge.value.commit, w.row.snap.prUrl) in w.requests
      && w.row.snap.judge.value.commit in w.published
      && Pushed(w.pushes, w.row.snap.judge.value.commit)
  {
    hide Effect, Enabled, SnapshotFits, InStep;
    PublishedAlways(r, i);
    PushedAlways(r, i);
    SnapshotInvAlways(r, i);
  }
}
