/** Step names, compared byte by byte as Go compares strings, and the sort the parser calls. */
module Names {

  /** A step name or an identifier of a plan. */
  datatype Name = Name(text: string)

  predicate TextLess(a: string, b: string) {
    b != [] && (a == [] || a[0] < b[0] || (a[0] == b[0] && TextLess(a[1..], b[1..])))
  }

  ghost predicate SmallerAt(a: string, b: string, k: nat) {
    k < |a| && k < |b| && a[..k] == b[..k] && a[k] < b[k]
  }

  /** One text comes before another: as a proper prefix, or by the first character in which they differ. */
  ghost predicate TextBefore(a: string, b: string) {
    a < b || exists k :: SmallerAt(a, b, k)
  }

  lemma SmallerLater(a: string, b: string, k: nat)
    requires a != [] && b != [] && a[0] == b[0] && SmallerAt(a[1..], b[1..], k)
    ensures SmallerAt(a, b, k + 1)
  {
    assert a[..k + 1] == [a[0]] + a[1..][..k] && b[..k + 1] == [b[0]] + b[1..][..k];
  }

  lemma SmallerSooner(a: string, b: string, k: nat)
    requires k > 0 && SmallerAt(a, b, k)
    ensures a[0] == b[0] && SmallerAt(a[1..], b[1..], k - 1)
  {
    assert a[..k][0] == b[..k][0];
    assert a[1..][..k - 1] == a[..k][1..] && b[1..][..k - 1] == b[..k][1..];
  }

  lemma {:induction false} TextLessExactly(a: string, b: string)
    ensures TextLess(a, b) <==> TextBefore(a, b)
  {
    if a != [] && b != [] {
      if a[0] == b[0] {
        TextLessExactly(a[1..], b[1..]);
        assert a == [a[0]] + a[1..] && b == [b[0]] + b[1..];
        if TextLess(a, b) && !(a[1..] < b[1..]) {
          var k: nat :| SmallerAt(a[1..], b[1..], k);
          SmallerLater(a, b, k);
        }
      } else if a[0] < b[0] {
        assert SmallerAt(a, b, 0);
      }
      if k: nat :| SmallerAt(a, b, k) {
        if k > 0 { SmallerSooner(a, b, k); }
      }
    }
  }

  predicate Less(a: Name, b: Name) {
    TextLess(a.text, b.text)
  }

  predicate Leq(a: Name, b: Name) {
    a == b || Less(a, b)
  }

  lemma {:induction false} LessIrreflexive(a: string)
    ensures !TextLess(a, a)
  {
    if a != [] {
      LessIrreflexive(a[1..]);
    }
  }

  lemma {:induction false} LessTransitive(a: string, b: string, c: string)
    requires TextLess(a, b) && TextLess(b, c)
    ensures TextLess(a, c)
  {
    if a != [] && a[0] == b[0] && b[0] == c[0] {
      LessTransitive(a[1..], b[1..], c[1..]);
    }
  }

  lemma {:induction false} TextTotal(a: string, b: string)
    ensures TextLess(a, b) || a == b || TextLess(b, a)
  {
    if a != [] && b != [] && a[0] == b[0] {
      TextTotal(a[1..], b[1..]);
      assert a[1..] == b[1..] ==> a == [a[0]] + a[1..] == [b[0]] + b[1..] == b;
    }
  }

  lemma LessTotal(a: Name, b: Name)
    ensures Less(a, b) || a == b || Less(b, a)
  {
    TextTotal(a.text, b.text);
  }

  lemma LeqTransitive(a: Name, b: Name, c: Name)
    requires Leq(a, b) && Leq(b, c)
    ensures Leq(a, c)
  {
    if Less(a, b) && Less(b, c) {
      LessTransitive(a.text, b.text, c.text);
    }
  }

  ghost predicate Ordered(s: seq<Name>) {
    forall i, j :: 0 <= i < j < |s| ==> Leq(s[i], s[j])
  }

  lemma FirstIsLeast(x: Name, s: seq<Name>)
    requires Ordered(s) && s != [] && Leq(x, s[0])
    ensures Ordered([x] + s)
  {
    forall j | 0 <= j < |s|
      ensures Leq(x, s[j])
    {
      if j > 0 { LeqTransitive(x, s[0], s[j]); }
    }
  }

  lemma HeadStaysLeast(s: seq<Name>, x: Name, t: seq<Name>)
    requires Ordered(s) && s != [] && Leq(s[0], x)
    requires Ordered(t) && multiset(t) == multiset(s[1..]) + multiset{x}
    ensures Ordered([s[0]] + t)
  {
    forall j | 0 <= j < |t|
      ensures Leq(s[0], t[j])
    {
      assert t[j] in multiset(t);
      assert t[j] in multiset(s[1..]) || t[j] == x;
      if t[j] in s[1..] {
        var k :| 0 <= k < |s[1..]| && s[1..][k] == t[j];
        assert s[k + 1] == t[j];
      }
    }
  }

  /** Puts x at its place in an ordered sequence. */
  function Insert(x: Name, s: seq<Name>): (r: seq<Name>)
    requires Ordered(s)
    ensures Ordered(r) && multiset(r) == multiset(s) + multiset{x}
  {
    if s == [] then [x]
    else if Leq(x, s[0]) then
      FirstIsLeast(x, s);
      [x] + s
    else
      LessTotal(x, s[0]);
      assert s == [s[0]] + s[1..];
      var t := Insert(x, s[1..]);
      HeadStaysLeast(s, x, t);
      [s[0]] + t
  }

  /** sort.Strings: the same names, in order. */
  function Sort(s: seq<Name>): (r: seq<Name>)
    ensures Ordered(r) && multiset(r) == multiset(s)
  {
    if s == [] then [] else
      assert s == [s[0]] + s[1..];
      Insert(s[0], Sort(s[1..]))
  }

  ghost predicate DiffersFirstAt(a: seq<Name>, b: seq<Name>, k: nat) {
    k < |a| && k < |b| && a[..k] == b[..k] && Less(a[k], b[k])
  }

  /** Lexicographic comparison of two sequences of names. */
  ghost predicate LexLeq(a: seq<Name>, b: seq<Name>) {
    a == b || exists k :: DiffersFirstAt(a, b, k)
  }
}
