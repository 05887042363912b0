/**
 Creating the run's worktree (Workspace.prepare) as a protocol over files and refs that may be cut
 at any step and is then simply called again.
 */
module Workspace {
  import opened Prelude

  type Commit = string

  /**
   The run's directory: missing, there but unusable, or a worktree with some branch checked out, whose
   files may not all have been written.
   */
  datatype Worktree = Absent | Unusable | Linked(onRunBranch: bool, complete: bool)

  datatype Outcome = Returned(base: Commit) | Raised | Died

  /** What a `git worktree add` that dies or fails leaves: nothing, a useless directory, or HEAD already set. */
  datatype Leftover = Nothing | Fragment | OnBranch

  /**
   What befalls one call: the root commit made for an unborn repository, a death after the base file
   is created but not filled, a failing ref listing, and a `git worktree add` that dies or fails.
   */
  datatype Luck = Luck(
    rootCommit: Commit,
    cutWrite: bool,
    listFails: bool,
    addDies: bool,
    addFails: bool,
    leftover: Leftover)

  /** Nothing goes wrong. */
  predicate Smooth(luck: Luck) {
    luck.rootCommit != "" && !luck.cutWrite && !luck.listFails && !luck.addDies && !luck.addFails
  }

  /** The directory after `git worktree add`. */
  function Added(luck: Luck): Worktree {
    if !luck.addDies && !luck.addFails then Linked(true, true)
    else match luck.leftover
      case Nothing => Absent
      case Fragment => Unusable
      case OnBranch => Linked(true, false)
  }

  class Workspace {
    /** Content of the base-commit file. A cut write leaves it empty. */
    var baseFile: Option<Commit>
    /** The commit the run branch was created from, once it exists. */
    var branchStart: Option<Commit>
    var worktree: Worktree
    /** HEAD of the user's repository; an unborn repository has none. */
    var sourceHead: Option<Commit>
    /** The base recorded first. */
    ghost var recorded: Option<Commit>

    ghost predicate Valid()
      reads this
    {
      && (recorded.Some? ==> recorded.value != "" && baseFile == recorded)
      && (recorded.None? ==> baseFile.None? || baseFile == Some(""))
      && (branchStart.Some? ==> branchStart == recorded)
      && (worktree.Linked? ==> branchStart.Some?)
      && sourceHead != Some("")
    }

    /** No call will ever return again: the base file was left empty, or the directory useless. */
    ghost predicate Hopeless()
      reads this
    {
      worktree.Unusable? || (worktree.Absent? && baseFile == Some(""))
    }

    constructor (head: Option<Commit>)
      requires head != Some("")
      ensures Valid() && recorded.None? && !Hopeless()
      ensures worktree.Absent? && baseFile.None? && sourceHead == head
    {
      baseFile, branchStart, worktree, sourceHead := None, None, Absent, head;
      recorded := None;
    }

    /** The user moves HEAD of the repository, and may check out a branch in the worktree. */
    method UserActs(head: Option<Commit>, onRunBranch: bool)
      requires Valid() && head != Some("")
      modifies this`sourceHead, this`worktree
      ensures Valid() && Hopeless() == old(Hopeless())
      ensures worktree == if old(worktree).Linked? then old(worktree).(onRunBranch := onRunBranch) else old(worktree)
    {
      sourceHead := head;
      if worktree.Linked? {
        worktree := worktree.(onRunBranch := onRunBranch);
      }
    }

    /** The base that a first call would record. */
    function Source(luck: Luck): Commit
      reads this
    {
      if sourceHead.Some? then sourceHead.value else luck.rootCommit
    }

    /** Whether a call gets as far as the base file, and as far as `git worktree add`. */
    predicate GetsToFile(luck: Luck)
      reads this
    {
      worktree.Absent? && Source(luck) != ""
    }

    predicate GetsToAdd(luck: Luck)
      reads this
    {
      && GetsToFile(luck) && !luck.listFails
      && if baseFile.None? then !luck.cutWrite else baseFile != Some("")
    }

    /** HEAD of the repository, or a fresh root commit that only the object database knows. */
    method CurrentBase(luck: Luck) returns (base: Commit)
      ensures base == Source(luck)
    {
      base := if sourceHead.Some? then sourceHead.value else luck.rootCommit;
    }

    /** The directory part of `git worktree add`, which may be cut or fail. */
    method LinkWorktree(base: Commit, luck: Luck) returns (r: Outcome)
      requires Valid() && worktree.Absent? && branchStart == Some(base)
      modifies this`worktree
      ensures Valid() && (r.Returned? ==> r.base == base)
      ensures r.Returned? <==> !luck.addDies && !luck.addFails
      ensures worktree == Added(luck)
    {
      if luck.addDies || luck.addFails {
        match luck.leftover {
          case Nothing =>
          case Fragment => worktree := Unusable;
          case OnBranch => worktree := Linked(true, false);
        }
        return if luck.addDies then Died else Raised;
      }
      worktree := Linked(true, true);
      r := Returned(base);
    }

    /**
     prepare: every successful call returns the base recorded first, and leaves the run branch
     created from exactly that base, whatever earlier calls were cut short and wherever the source
     repository's HEAD has gone since. Once hopeless it never returns; until then a call that
     nothing befalls returns exactly if no other branch is checked out in the worktree. It does not
     see whether the files of a worktree it finds are complete.
     */
    method Prepare(luck: Luck) returns (r: Outcome)
      requires Valid()
      modifies this
      ensures Valid() && sourceHead == old(sourceHead)
      ensures old(recorded).Some? ==> recorded == old(recorded)
      ensures old(branchStart).Some? ==> branchStart == old(branchStart)
      ensures r.Returned? ==> recorded == Some(r.base) && branchStart == Some(r.base) && worktree.Linked?
      ensures r.Returned? && old(recorded).None? ==>
                r.base == if sourceHead.Some? then sourceHead.value else luck.rootCommit
      ensures r.Returned? ==> worktree.onRunBranch && (old(worktree).Absent? ==> worktree.complete)
      ensures old(Hopeless()) ==> Hopeless() && !r.Returned?
      ensures !old(Hopeless()) ==>
                (Hopeless() <==> (old(GetsToFile(luck)) && old(baseFile).None? && luck.cutWrite)
                                 || (old(GetsToAdd(luck)) && Added(luck).Unusable?))
      ensures Smooth(luck) ==>
                (r.Returned? <==> !old(Hopeless()) && (old(worktree).Linked? ==> old(worktree).onRunBranch))
      ensures worktree == if old(GetsToAdd(luck)) then Added(luck) else old(worktree)
      ensures baseFile == if old(GetsToFile(luck)) && old(baseFile).None?
                          then Some(if luck.cutWrite then "" else old(Source(luck))) else old(baseFile)
    {
      if !worktree.Absent? {
        if worktree.Unusable? || !worktree.onRunBranch {
          return Raised;
        }
        if baseFile.None? {
          return Raised;
        }
        return Returned(baseFile.value);
      }
      var base := CurrentBase(luck);
      if base == "" {
        return Raised;
      }
      if baseFile.Some? {
        base := baseFile.value;
      } else {
        baseFile := Some("");
        if luck.cutWrite { return Died; }
        baseFile := Some(base);
        recorded := baseFile;
      }
      if luck.listFails { return Raised; }
      if branchStart.None? {
        if base == "" {
          return Raised;  // git refuses an empty start point
        }
        branchStart := Some(base);
      }
      r := LinkWorktree(base, luck);
    }
  }

  /** Any sequence of calls, deaths and moves of HEAD: all successful calls return one and the same base. */
  method ManyCalls(calls: nat, head: Option<Commit>) returns (bases: seq<Commit>, branchStart: Option<Commit>)
    requires head != Some("")
    ensures forall i :: 0 <= i < |bases| ==> branchStart == Some(bases[i])
    ensures forall i, j :: 0 <= i < |bases| && 0 <= j < |bases| ==> bases[i] == bases[j]
    ensures bases != [] ==> bases[0] != ""
  {
    var work := new Workspace(head);
    bases := [];
    for n := 0 to calls
      invariant work.Valid() && fresh(work)
      invariant forall i :: 0 <= i < |bases| ==> work.recorded == Some(bases[i]) && work.branchStart == Some(bases[i])
    {
      var moved: Option<Commit>, onRunBranch: bool, luck: Luck := *, *, *;
      if moved != Some("") {
        work.UserActs(moved, onRunBranch);
      }
      var r := work.Prepare(luck);
      if r.Returned? {
        bases := bases + [r.base];
      }
    }
    branchStart := work.branchStart;
  }

  /**
   Whether any later call can return, after any number of calls that do what they like: not once the
   run is hopeless, and otherwise the next call does, with the run branch checked out and luck.
   */
  method LaterCalls(work: Workspace, calls: nat, luck: Luck) returns (before: bool, last: Outcome)
    requires work.Valid() && Smooth(luck)
    modifies work
    ensures work.Valid()
    ensures old(work.Hopeless()) ==> !before && !last.Returned?
    ensures calls == 0 && !old(work.Hopeless()) ==> last.Returned?
  {
    before := false;
    for n := 0 to calls
      invariant work.Valid() && (calls == 0 ==> work.Hopeless() == old(work.Hopeless()))
      invariant old(work.Hopeless()) ==> work.Hopeless() && !before
    {
      var some: Luck := *;
      var r := work.Prepare(some);
      before := before || r.Returned?;
    }
    work.UserActs(work.sourceHead, true);
    last := work.Prepare(luck);
  }

  /** Both ways to lose a run: one first call that dies in the wrong place, and no later one ever returns. */
  method TwoWaysToLose(head: Commit, death: Luck, calls: nat, luck: Luck) returns (returned: bool)
    requires head != "" && Smooth(luck)
    requires death.cutWrite ||
             (!death.listFails && (death.addDies || death.addFails) && death.leftover.Fragment?)
    ensures !returned
  {
    var work := new Workspace(Some(head));
    var first := work.Prepare(death);
    assert work.Hopeless();
    var before, last := LaterCalls(work, calls, luck);
    returned := first.Returned? || before || last.Returned?;
  }

  /** A death while files are written, HEAD being set: the next call returns, over a tree that lacks some. */
  method ReturnsOverAnIncompleteTree(head: Commit, cut: Luck, last: Luck) returns (base: Outcome, worktree: Worktree)
    requires head != "" && !cut.listFails && !cut.cutWrite && (cut.addDies || cut.addFails) && cut.leftover.OnBranch?
    requires Smooth(last)
    ensures base == Returned(head) && worktree == Linked(true, false)
  {
    var work := new Workspace(Some(head));
    var died := work.Prepare(cut);
    base := work.Prepare(last);
    worktree := work.worktree;
  }
}
