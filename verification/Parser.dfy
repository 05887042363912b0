/** The deterministic step ordering of the workflow parser (Kahn's algorithm over counted edges). */
module Parser {
  import opened Prelude
  import opened Names
  import opened Dependencies

  datatype OrderError = UnknownStep(step: Name, dep: Name) | DependencyCycle

  /** How many entries of `after`, repetitions included, are not placed yet. */
  ghost function Waiting(after: seq<Name>, placed: set<Name>): nat {
    if after == [] then 0
    else (if after[0] in placed then 0 else 1) + Waiting(after[1..], placed)
  }

  lemma {:induction false} WaitingZero(after: seq<Name>, placed: set<Name>)
    ensures Waiting(after, placed) == 0 <==> Elems(after) <= placed
  {
    if after == [] {
    } else {
      WaitingZero(after[1..], placed);
      assert after == [after[0]] + after[1..];
      assert forall x :: x in after <==> x == after[0] || x in after[1..];
      assert after[0] in Elems(after);
    }
  }

  /** How often x occurs in s. */
  ghost function Count(s: seq<Name>, x: Name): nat {
    if s == [] then 0 else (if s[0] == x then 1 else 0) + Count(s[1..], x)
  }

  /** Placing one more name resolves each of its occurrences. */
  lemma {:induction false} WaitingPlace(after: seq<Name>, placed: set<Name>, n: Name)
    requires n !in placed
    ensures Waiting(after, placed) == Waiting(after, placed + {n}) + Count(after, n)
  {
    if after == [] {
    } else {
      WaitingPlace(after[1..], placed, n);
    }
  }

  lemma {:induction false} WaitingNone(after: seq<Name>)
    ensures Waiting(after, {}) == |after|
  {
    if after != [] { WaitingNone(after[1..]); }
  }

  lemma {:induction false} CountAppend(s: seq<Name>, x: Name, y: Name)
    ensures Count(s + [x], y) == Count(s, y) + if x == y then 1 else 0
  {
    if s == [] {
    } else {
      CountAppend(s[1..], x, y);
      assert (s + [x])[1..] == s[1..] + [x];
    }
  }

  lemma {:induction false} CountIsMultiplicity(s: seq<Name>, x: Name)
    ensures Count(s, x) == multiset(s)[x]
  {
    if s == [] {
    } else {
      CountIsMultiplicity(s[1..], x);
      assert s == [s[0]] + s[1..];
    }
  }

  lemma CountIn(s: seq<Name>, x: Name)
    ensures Count(s, x) > 0 <==> x in s
  {
    CountIsMultiplicity(s, x);
    assert x in s <==> x in multiset(s);
  }

  /** How often the list of n names d. */
  ghost function Mentions(g: Graph, n: Name, d: Name): nat {
    if n in g then Count(g[n], d) else 0
  }

  function Edges(edges: map<Name, seq<Name>>, d: Name): seq<Name> {
    if d in edges then edges[d] else []
  }

  /**
   `recorded` is the part of each step's `after` list already turned into edges: its length is
   the step's counter, and a child stands as often under a parent as it names that parent.
   */
  ghost predicate EdgesCounted(g: Graph, recorded: Graph, incoming: map<Name, int>, edges: map<Name, seq<Name>>) {
    && recorded.Keys == incoming.Keys == g.Keys
    && (forall n :: n in g ==> incoming[n] == |recorded[n]|)
    && (forall d, n :: d in g ==> Count(Edges(edges, d), n) == Mentions(recorded, n, d))
  }

  /** The ready list holds exactly the unplaced names with no edge left, in order, once each. */
  ghost predicate ReadyList(g: Graph, incoming: map<Name, int>, placed: set<Name>, ready: seq<Name>) {
    && incoming.Keys == g.Keys
    && NoDup(ready)
    && Elems(ready) == set n | n in g && n !in placed && incoming[n] == 0
  }

  lemma {:induction false} NoDupMultiset(s: seq<Name>)
    requires NoDup(s)
    ensures forall x :: multiset(s)[x] <= 1
  {
    if s == [] {
    } else {
      NoDupMultiset(s[1..]);
      assert s == [s[0]] + s[1..];
      assert s[0] !in s[1..];
      assert multiset(s[1..])[s[0]] == 0;
    }
  }

  lemma MultisetNoDup(s: seq<Name>)
    requires forall x :: multiset(s)[x] <= 1
    ensures NoDup(s)
  {
    forall i, j | 0 <= i < j < |s|
      ensures s[i] != s[j]
    {
      assert s == s[..j] + [s[j]] + s[j + 1..];
      assert s[..j][i] in multiset(s[..j]);
      assert multiset(s)[s[j]] == multiset(s[..j])[s[j]] + 1 + multiset(s[j + 1..])[s[j]];
    }
  }

  lemma SortKeepsElements(s: seq<Name>, r: seq<Name>)
    requires multiset(r) == multiset(s)
    ensures Elems(r) == Elems(s)
    ensures NoDup(s) ==> NoDup(r)
  {
    forall x
      ensures x in r <==> x in s
    {
      assert x in r <==> x in multiset(r);
      assert x in s <==> x in multiset(s);
    }
    if NoDup(s) {
      NoDupMultiset(s);
      MultisetNoDup(r);
    }
  }

  /** The lists already turned into edges while the names in `left` are still to come. */
  ghost function Recorded(g: Graph, left: set<Name>): Graph {
    map n | n in g :: if n in left then [] else g[n]
  }

  lemma RecordStep(g: Graph, left: set<Name>, name: Name)
    requires name in g && name in left
    ensures Recorded(g, left)[name := g[name]] == Recorded(g, left - {name})
  {
  }

  ghost predicate RefersInside(g: Graph, left: set<Name>) {
    forall n :: n in g && n !in left ==> Elems(g[n]) <= g.Keys
  }

  lemma RecordMore(recorded: Graph, name: Name, after: seq<Name>, i: nat)
    requires name in recorded && i < |after|
    ensures recorded[name := after[..i]][name := after[..i] + [after[i]]] == recorded[name := after[..i + 1]]
  {
    TakeMore(after, i);
  }

  lemma AddEdge(g: Graph, recorded: Graph, incoming: map<Name, int>, edges: map<Name, seq<Name>>, name: Name, dep: Name)
    requires name in g && dep in g
    requires EdgesCounted(g, recorded, incoming, edges)
    ensures EdgesCounted(g, recorded[name := recorded[name] + [dep]], incoming[name := incoming[name] + 1],
                         edges[dep := Edges(edges, dep) + [name]])
  {
    var recorded1, edges1 := recorded[name := recorded[name] + [dep]], edges[dep := Edges(edges, dep) + [name]];
    forall d, n | d in g
      ensures Count(Edges(edges1, d), n) == Mentions(recorded1, n, d)
    {
      assert Count(Edges(edges, d), n) == Mentions(recorded, n, d);
      CountAppend(Edges(edges, d), name, n);
      CountAppend(recorded[name], dep, d);
    }
  }

  /** Going one entry further in the `after` list of `name`. */
  lemma CountOccurrence(g: Graph, recorded: Graph, incoming: map<Name, int>, edges: map<Name, seq<Name>>, name: Name,
                        i: nat)
    requires name in g && i < |g[name]| && g[name][i] in g && recorded.Keys == g.Keys
    requires EdgesCounted(g, recorded[name := g[name][..i]], incoming, edges)
    ensures EdgesCounted(g, recorded[name := g[name][..i + 1]], incoming[name := incoming[name] + 1],
                         edges[g[name][i] := Edges(edges, g[name][i]) + [name]])
  {
    AddEdge(g, recorded[name := g[name][..i]], incoming, edges, name, g[name][i]);
    RecordMore(recorded, name, g[name], i);
  }

  lemma RecordNothing(recorded: Graph, name: Name, after: seq<Name>)
    requires name in recorded && recorded[name] == []
    ensures recorded[name := after[..0]] == recorded
  {
  }

  /** One step's `after` list turned into edges. */
  method CountStep(g: Graph, ghost recorded0: Graph, incoming0: map<Name, int>, edges0: map<Name, seq<Name>>,
                   name: Name)
    returns (incoming: map<Name, int>, edges: map<Name, seq<Name>>, unknown: Option<OrderError>)
    requires name in g && EdgesCounted(g, recorded0, incoming0, edges0) && recorded0[name] == []
    ensures unknown.None? ==> EdgesCounted(g, recorded0[name := g[name]], incoming, edges)
    ensures unknown.None? ==> forall dep :: dep in g[name] ==> dep in g
    ensures unknown.Some? ==> unknown.value.UnknownStep? && UnknownDependency(g, unknown.value.step, unknown.value.dep)
  {
    incoming, edges, unknown := incoming0, edges0, None;
    var after := g[name];
    RecordNothing(recorded0, name, after);
    var i := 0;
    while i < |after|
      invariant 0 <= i <= |after|
      invariant EdgesCounted(g, recorded0[name := after[..i]], incoming, edges)
      invariant forall j :: 0 <= j < i ==> after[j] in g
    {
      var dep := after[i];
      if dep !in g {
        return incoming, edges, Some(UnknownStep(name, dep));
      }
      CountOccurrence(g, recorded0, incoming, edges, name, i);
      edges := edges[dep := Edges(edges, dep) + [name]];
      incoming := incoming[name := incoming[name] + 1];
      i := i + 1;
    }
    TakeAll(after);
  }

  /** First half of topoSort: counted edges, or the first unknown reference met. */
  method CountEdges(g: Graph)
    returns (incoming: map<Name, int>, edges: map<Name, seq<Name>>, unknown: Option<OrderError>)
    ensures unknown.None? ==> EdgesCounted(g, g, incoming, edges)
    ensures unknown.None? ==> RefersInside(g, {})
    ensures unknown.Some? ==> unknown.value.UnknownStep? && UnknownDependency(g, unknown.value.step, unknown.value.dep)
  {
    incoming := map n | n in g :: 0;
    edges := map[];
    unknown := None;
    var left := g.Keys;
    assert EdgesCounted(g, Recorded(g, left), incoming, edges);
    while left != {}
      invariant left <= g.Keys && unknown.None?
      invariant EdgesCounted(g, Recorded(g, left), incoming, edges) && RefersInside(g, left)
      decreases left
    {
      var name :| name in left;
      incoming, edges, unknown := CountStep(g, Recorded(g, left), incoming, edges, name);
      if unknown.Some? {
        return;
      }
      RecordStep(g, left, name);
      left := left - {name};
    }
    assert Recorded(g, {}).Keys == g.Keys;
  }

  /** Counters ahead of the final ones by the occurrences still to be taken away. */
  ghost predicate PartlyRelaxed(g: Graph, placed: set<Name>, incoming: map<Name, int>, rest: seq<Name>) {
    incoming.Keys == g.Keys && forall n :: n in g ==> incoming[n] == Waiting(g[n], placed) + Count(rest, n)
  }

  /** What topoSort needs of the edge lists: as many copies of a child as it names the parent. */
  ghost predicate CountedEdges(g: Graph, edges: map<Name, seq<Name>>) {
    forall d, n :: d in g ==> Count(Edges(edges, d), n) == Mentions(g, n, d)
  }

  lemma RelaxStarts(g: Graph, edges: map<Name, seq<Name>>, placed: set<Name>, next: Name, incoming: map<Name, int>)
    requires CountedEdges(g, edges) && next in g && next !in placed && incoming.Keys == g.Keys
    requires forall n :: n in g ==> incoming[n] == Waiting(g[n], placed)
    ensures PartlyRelaxed(g, placed + {next}, incoming, Edges(edges, next)[0..])
  {
    assert Edges(edges, next)[0..] == Edges(edges, next);
    forall n | n in g
      ensures incoming[n] == Waiting(g[n], placed + {next}) + Count(Edges(edges, next), n)
    {
      WaitingPlace(g[n], placed, next);
      assert Count(Edges(edges, next), n) == Mentions(g, n, next);
    }
  }

  lemma RelaxOne(g: Graph, placed: set<Name>, incoming: map<Name, int>, children: seq<Name>, i: nat)
    requires i < |children| && children[i] in g
    requires PartlyRelaxed(g, placed, incoming, children[i..])
    ensures incoming[children[i]] > 0
    ensures PartlyRelaxed(g, placed, incoming[children[i] := incoming[children[i]] - 1], children[i + 1..])
  {
    assert children[i..][1..] == children[i + 1..];
  }

  lemma Decrement(g: Graph, incoming: map<Name, int>, placed: set<Name>, ready: seq<Name>, child: Name)
    requires ReadyList(g, incoming, placed, ready)
    requires child in g && incoming[child] > 0 && child !in placed
    ensures ReadyList(g, incoming[child := incoming[child] - 1], placed,
                      if incoming[child] == 1 then ready + [child] else ready)
  {
    assert child !in Elems(ready);
    ElemsAppend(ready, child);
  }

  /** Taking every edge of `next` away, child by child, and queueing each child that has none left. */
  method RelaxChildren(g: Graph, edges: map<Name, seq<Name>>, ghost placed: set<Name>, next: Name,
                       incoming0: map<Name, int>, ready0: seq<Name>)
    returns (incoming: map<Name, int>, ready: seq<Name>)
    requires CountedEdges(g, edges) && next in g && next !in placed
    requires ReadyList(g, incoming0, placed + {next}, ready0)
    requires forall n :: n in g ==> incoming0[n] == Waiting(g[n], placed)
    requires forall n :: n in placed + {next} ==> n in g && incoming0[n] == 0
    ensures ReadyList(g, incoming, placed + {next}, ready)
    ensures forall n :: n in g ==> incoming[n] == Waiting(g[n], placed + {next})
    ensures forall n :: n in placed + {next} ==> incoming[n] == 0
  {
    incoming, ready := incoming0, ready0;
    var children := Edges(edges, next);
    RelaxStarts(g, edges, placed, next, incoming);
    var i := 0;
    while i < |children|
      invariant 0 <= i <= |children|
      invariant ReadyList(g, incoming, placed + {next}, ready)
      invariant PartlyRelaxed(g, placed + {next}, incoming, children[i..])
      invariant forall n :: n in placed + {next} ==> incoming[n] == 0
    {
      var child := children[i];
      CountIn(children, child);
      assert Count(children, child) == Mentions(g, child, next);
      RelaxOne(g, placed + {next}, incoming, children, i);
      Decrement(g, incoming, placed + {next}, ready, child);
      incoming := incoming[child := incoming[child] - 1];
      if incoming[child] == 0 {
        ready := ready + [child];
      }
      i := i + 1;
    }
    assert children[i..] == [];
  }

  /** Sorting the children of each node, whatever order the map is walked in. */
  method SortChildren(g: Graph, edges0: map<Name, seq<Name>>) returns (edges: map<Name, seq<Name>>)
    requires CountedEdges(g, edges0)
    ensures CountedEdges(g, edges)
  {
    edges := edges0;
    var left := edges.Keys;
    while left != {}
      invariant left <= edges.Keys == edges0.Keys
      invariant forall k :: k in edges ==> multiset(edges[k]) == multiset(edges0[k])
      decreases left
    {
      var k :| k in left;
      edges := edges[k := Sort(edges[k])];
      left := left - {k};
    }
    forall d, n | d in g
      ensures Count(Edges(edges, d), n) == Count(Edges(edges0, d), n)
    {
      CountIsMultiplicity(Edges(edges, d), n);
      CountIsMultiplicity(Edges(edges0, d), n);
    }
  }

  /** The names without dependencies, in whatever order the map is walked. */
  method InitialReady(g: Graph, incoming: map<Name, int>) returns (ready: seq<Name>)
    requires incoming.Keys == g.Keys
    ensures ReadyList(g, incoming, {}, ready)
  {
    ready := [];
    var left, seen: set<Name> := incoming.Keys, {};
    while left != {}
      invariant left <= g.Keys && seen == g.Keys - left
      invariant NoDup(ready) && Elems(ready) == set n | n in seen && incoming[n] == 0
      decreases left
    {
      var name :| name in left;
      if incoming[name] == 0 {
        assert name !in Elems(ready);
        ElemsAppend(ready, name);
        ready := ready + [name];
      }
      left := left - {name};
      seen := seen + {name};
    }
    assert seen == g.Keys;
  }

  /** The invariant of Kahn's loop. */
  ghost predicate Kahn(g: Graph, edges: map<Name, seq<Name>>, incoming: map<Name, int>, ready: seq<Name>,
                       order: seq<Name>)
  {
    && IsPrefix(g, order) && TakesLeast(g, order)
    && CountedEdges(g, edges)
    && Ordered(ready) && ReadyList(g, incoming, Elems(order), ready)
    && (forall n :: n in g ==> incoming[n] == Waiting(g[n], Elems(order)))
    && (forall n :: n in Elems(order) ==> incoming[n] == 0)
  }

  lemma ReadyMeansReady(g: Graph, incoming: map<Name, int>, placed: set<Name>, ready: seq<Name>)
    requires ReadyList(g, incoming, placed, ready)
    requires forall n :: n in g ==> incoming[n] == Waiting(g[n], placed)
    ensures forall n :: n in ready <==> IsReady(g, placed, n)
  {
    forall n
      ensures n in ready <==> IsReady(g, placed, n)
    {
      assert n in ready <==> n in Elems(ready);
      if n in g { WaitingZero(g[n], placed); }
    }
  }

  lemma LeastOfReady(g: Graph, order: seq<Name>, ready: seq<Name>)
    requires TakesLeast(g, order) && Ordered(ready) && ready != []
    requires forall n :: n in ready <==> IsReady(g, Elems(order), n)
    ensures TakesLeast(g, order + [ready[0]])
  {
    var longer := order + [ready[0]];
    forall k, n | 0 <= k < |longer| && IsReady(g, Elems(longer[..k]), n)
      ensures Leq(longer[k], n)
    {
      if k < |order| {
        assert longer[..k] == order[..k];
      } else {
        assert longer[..k] == order;
        var i :| 0 <= i < |ready| && ready[i] == n;
      }
    }
  }

  lemma RestOfReady(g: Graph, incoming: map<Name, int>, placed: set<Name>, ready: seq<Name>)
    requires ReadyList(g, incoming, placed, ready) && ready != []
    ensures ReadyList(g, incoming, placed + {ready[0]}, ready[1..])
  {
    assert ready == [ready[0]] + ready[1..];
    assert ready[0] !in ready[1..];
    assert Elems(ready[1..]) == Elems(ready) - {ready[0]} by {
      forall x ensures x in ready[1..] <==> x in ready && x != ready[0] { }
    }
  }

  /** Placing the head of the ready list keeps the order a least-choice prefix. */
  lemma TakeNext(g: Graph, edges: map<Name, seq<Name>>, incoming: map<Name, int>, ready: seq<Name>, order: seq<Name>)
    requires Kahn(g, edges, incoming, ready, order) && ready != []
    ensures IsReady(g, Elems(order), ready[0]) && incoming[ready[0]] == 0
    ensures IsPrefix(g, order + [ready[0]]) && TakesLeast(g, order + [ready[0]])
    ensures Elems(order + [ready[0]]) == Elems(order) + {ready[0]}
    ensures ReadyList(g, incoming, Elems(order) + {ready[0]}, ready[1..])
  {
    ReadyMeansReady(g, incoming, Elems(order), ready);
    assert ready[0] in Elems(ready);
    LeastOfReady(g, order, ready);
    PrefixAppend(g, order, ready[0]);
    RestOfReady(g, incoming, Elems(order), ready);
    ElemsAppend(order, ready[0]);
  }

  lemma KahnStarts(g: Graph, edges: map<Name, seq<Name>>, incoming: map<Name, int>, ready: seq<Name>)
    requires CountedEdges(g, edges)
    requires forall n :: n in g ==> n in incoming && incoming[n] == |g[n]|
    requires ReadyList(g, incoming, {}, ready)
    ensures Kahn(g, edges, incoming, Sort(ready), [])
  {
    SortKeepsElements(ready, Sort(ready));
    assert Elems<Name>([]) == {};
    forall n | n in g
      ensures incoming[n] == Waiting(g[n], Elems([]))
    {
      WaitingNone(g[n]);
    }
  }

  lemma PrefixFits(g: Graph, order: seq<Name>)
    requires IsPrefix(g, order)
    ensures Elems(order) <= g.Keys && |Elems(order)| == |order| <= |g|
  {
    NoDupCard(order);
    SubsetCard(Elems(order), g.Keys);
  }

  /** The queue ran empty: either everything is placed, in the least order, or no order exists. */
  lemma KahnEnds(g: Graph, edges: map<Name, seq<Name>>, incoming: map<Name, int>, order: seq<Name>)
    requires Kahn(g, edges, incoming, [], order)
    ensures |order| == |g| ==>
              IsTopological(g, order) && forall other :: IsTopological(g, other) ==> LexLeq(order, other)
    ensures |order| == |g| <==> HasOrder(g)
  {
    PrefixFits(g, order);
    ReadyMeansReady(g, incoming, Elems(order), []);
    SubsetCard(Elems(order), g.Keys);
    if |order| == |g| {
      assert IsTopological(g, order);
      forall other | IsTopological(g, other)
        ensures LexLeq(order, other)
      {
        LeastChoiceIsLexLeast(g, order, other);
      }
    } else if HasOrder(g) {
      assert |Elems(order)| != |g.Keys| && Elems(order) != g.Keys;
      SomethingIsReady(g, Elems(order));
    }
  }

  /** Where two orders first differ, the first one has the text that comes first. */
  ghost predicate TextDecides(a: seq<Name>, b: seq<Name>, k: nat) {
    k < |a| && k < |b| && a[..k] == b[..k] && TextBefore(a[k].text, b[k].text)
  }

  lemma LexLeqByText(a: seq<Name>, b: seq<Name>)
    requires LexLeq(a, b)
    ensures a == b || exists k :: TextDecides(a, b, k)
  {
    if a != b {
      var k: nat :| DiffersFirstAt(a, b, k);
      TextLessExactly(a[k].text, b[k].text);
      assert TextDecides(a, b, k);
    }
  }

  /**
   topoSort: the lexicographically least topological order of the steps, or the reason there
   is none.
   */
  method TopoSort(g: Graph) returns (r: Result<seq<Name>, OrderError>)
    ensures r.Success? ==> IsTopological(g, r.value)
    ensures r.Success? ==> forall other :: IsTopological(g, other) ==> LexLeq(r.value, other)
    ensures r.Success? ==> forall other :: IsTopological(g, other) ==>
              r.value == other || exists k :: TextDecides(r.value, other, k)
    ensures r.Failure? <==> !HasOrder(g)
    ensures (r.Failure? && r.error.UnknownStep?) <==> exists n, dep :: UnknownDependency(g, n, dep)
  {
    var incoming, edges, unknown := CountEdges(g);
    if unknown.Some? {
      if HasOrder(g) { OrderedGraphIsClosed(g); }
      assert UnknownDependency(g, unknown.value.step, unknown.value.dep);
      return Failure(unknown.value);
    }
    edges := SortChildren(g, edges);
    var ready := InitialReady(g, incoming);
    KahnStarts(g, edges, incoming, ready);
    ready := Sort(ready);
    var order: seq<Name> := [];
    while ready != []
      invariant Kahn(g, edges, incoming, ready, order)
      decreases |g| - |order|
    {
      var next := ready[0];
      TakeNext(g, edges, incoming, ready, order);
      incoming, ready := RelaxChildren(g, edges, Elems(order), next, incoming, ready[1..]);
      order := order + [next];
      SortKeepsElements(ready, Sort(ready));
      ready := Sort(ready);
      PrefixFits(g, order);
    }
    KahnEnds(g, edges, incoming, order);
    if |order| != |g| {
      return Failure(DependencyCycle);
    }
    forall other | IsTopological(g, other)
      ensures order == other || exists k :: TextDecides(order, other, k)
    {
      LexLeqByText(order, other);
    }
    r := Success(order);
  }
}
