/**
 Dependency graphs as both halves of the system see them: names mapped to the names they wait
 for. A topological order is the notion that the workflow parser and the plan contract decide
 in two different ways.
 */
module Dependencies {
  import opened Prelude
  import opened Names

  type Graph = map<Name, seq<Name>>

  /** Every dependency of a step has been placed before it. */
  ghost predicate RespectsDependencies(g: Graph, order: seq<Name>) {
    forall k :: 0 <= k < |order| ==> order[k] in g && Elems(g[order[k]]) <= Elems(order[..k])
  }

  /** A duplicate-free start of a topological order. */
  ghost predicate IsPrefix(g: Graph, order: seq<Name>) {
    NoDup(order) && RespectsDependencies(g, order)
  }

  ghost predicate IsTopological(g: Graph, order: seq<Name>) {
    IsPrefix(g, order) && Elems(order) == g.Keys
  }

  ghost predicate HasOrder(g: Graph) {
    exists order :: IsTopological(g, order)
  }

  /** What can run next once the names in `placed` are done. */
  ghost predicate IsReady(g: Graph, placed: set<Name>, n: Name) {
    n in g && n !in placed && Elems(g[n]) <= placed
  }

  ghost predicate UnknownDependency(g: Graph, n: Name, dep: Name) {
    n in g && dep in g[n] && dep !in g
  }

  /** A graph with a topological order mentions no unknown name. */
  lemma OrderedGraphIsClosed(g: Graph)
    requires HasOrder(g)
    ensures forall n, dep :: !UnknownDependency(g, n, dep)
  {
    var order :| IsTopological(g, order);
    forall n, dep | n in g && dep in g[n]
      ensures dep in g
    {
      assert n in Elems(order);
      var k :| 0 <= k < |order| && order[k] == n;
      assert dep in Elems(g[order[k]]);
      assert dep in order[..k];
      assert dep in Elems(order);
    }
  }

  lemma PrefixAppend(g: Graph, order: seq<Name>, n: Name)
    requires IsPrefix(g, order) && IsReady(g, Elems(order), n)
    ensures IsPrefix(g, order + [n])
  {
    var longer := order + [n];
    forall k | 0 <= k < |longer|
      ensures longer[k] in g && Elems(g[longer[k]]) <= Elems(longer[..k])
    {
      if k < |order| {
        assert longer[..k] == order[..k];
      } else {
        assert longer[..k] == order;
      }
    }
  }

  lemma {:induction false} FirstUnplaced(g: Graph, order: seq<Name>, placed: set<Name>, k: nat, last: nat)
    requires RespectsDependencies(g, order) && k <= last < |order| && order[last] !in placed
    requires Elems(order[..k]) <= placed
    ensures exists n :: IsReady(g, placed, n)
    decreases last - k
  {
    if order[k] in placed {
      TakeMore(order, k);
      ElemsAppend(order[..k], order[k]);
      FirstUnplaced(g, order, placed, k + 1, last);
    } else {
      assert IsReady(g, placed, order[k]);
    }
  }

  /**
   While an order exists, something is always ready: the first name of that order not placed
   yet waits only for names placed before it.
   */
  lemma SomethingIsReady(g: Graph, placed: set<Name>)
    requires HasOrder(g) && !(g.Keys <= placed)
    ensures exists n :: IsReady(g, placed, n)
  {
    var order :| IsTopological(g, order);
    var left :| left in g && left !in placed;
    assert left in Elems(order);
    var last :| 0 <= last < |order| && order[last] == left;
    FirstUnplaced(g, order, placed, 0, last);
  }

  /** Every name was the least of those ready when it was placed. */
  ghost predicate TakesLeast(g: Graph, order: seq<Name>) {
    forall k, n :: 0 <= k < |order| && IsReady(g, Elems(order[..k]), n) ==> Leq(order[k], n)
  }

  lemma FirstDifference(a: seq<Name>, b: seq<Name>) returns (k: nat)
    requires |a| == |b| && a != b
    ensures k < |a| && a[..k] == b[..k] && a[k] != b[k]
  {
    if a[0] != b[0] {
      k := 0;
    } else {
      assert a == [a[0]] + a[1..] && b == [b[0]] + b[1..];
      k := FirstDifference(a[1..], b[1..]);
      assert a[..k + 1] == [a[0]] + a[1..][..k] && b[..k + 1] == [b[0]] + b[1..][..k];
      k := k + 1;
    }
  }

  /**
   Always taking the least ready name gives the lexicographically least topological order:
   where another order first differs, its name was ready too.
   */
  lemma LeastChoiceIsLexLeast(g: Graph, order: seq<Name>, other: seq<Name>)
    requires IsTopological(g, order) && TakesLeast(g, order)
    requires IsTopological(g, other)
    ensures LexLeq(order, other)
  {
    NoDupCard(order);
    NoDupCard(other);
    if order != other {
      var k := FirstDifference(order, other);
      assert other[k] !in Elems(other[..k]);
      assert IsReady(g, Elems(order[..k]), other[k]);
      assert DiffersFirstAt(order, other, k);
    }
  }

  /** Determinism: whatever order maps are visited in, there is one least order. */
  lemma LeastOrderIsUnique(a: seq<Name>, b: seq<Name>)
    requires LexLeq(a, b) && LexLeq(b, a)
    ensures a == b
  {
    if a != b {
      var k: nat :| DiffersFirstAt(a, b, k);
      var l: nat :| DiffersFirstAt(b, a, l);
      if k < l {
        assert b[..l][k] == a[..l][k];
        LessIrreflexive(a[k].text);
      } else if l < k {
        assert a[..k][l] == b[..k][l];
        LessIrreflexive(a[l].text);
      } else {
        LessTransitive(a[k].text, b[k].text, a[k].text);
        LessIrreflexive(a[k].text);
      }
    }
  }

  /** The names a step waits for, directly or through others. */
  least predicate DependsOn(g: Graph, n: Name, dep: Name) {
    n in g && (dep in g[n] || exists m :: m in g[n] && DependsOn(g, m, dep))
  }

  /** In a prefix of a topological order every transitive dependency comes earlier. */
  least lemma TransitiveDependenciesComeFirst(g: Graph, n: Name, dep: Name, order: seq<Name>, k: nat)
    requires DependsOn(g, n, dep)
    requires IsPrefix(g, order) && k < |order| && order[k] == n
    ensures dep in order[..k]
  {
    if dep in g[n] {
      assert dep in Elems(g[order[k]]);
    } else {
      var m :| m in g[n] && DependsOn#[_k - 1](g, m, dep);
      assert m in Elems(g[order[k]]) && m in order[..k];
      var i :| 0 <= i < k && order[i] == m;
      TransitiveDependenciesComeFirst#[_k - 1](g, m, dep, order, i);
      assert order[..i] <= order[..k];
    }
  }
}
