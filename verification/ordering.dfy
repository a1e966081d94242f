/**
 The order of actor IDs and revisions: Go compares strings lexicographically, and sort.Slice puts a
 set of them in ascending order.
 */
module Ordering {

  predicate Less(a: string, b: string) {
    b != "" && (a == "" || a[0] < b[0] || (a[0] == b[0] && Less(a[1..], b[1..])))
  }

  lemma LessTrans(a: string, b: string, c: string)
    requires Less(a, b) && Less(b, c)
    ensures Less(a, c)
  {}

  lemma LessTotal(a: string, b: string)
    ensures Less(a, b) || Less(b, a) || a == b
    ensures !(Less(a, b) && Less(b, a)) && (a == b ==> !Less(a, b))
  {
    if a != "" && b != "" {
      LessTotal(a[1..], b[1..]);
      assert a == [a[0]] + a[1..] && b == [b[0]] + b[1..];
    }
  }

  ghost predicate Sorted(xs: seq<string>) { forall i, j :: 0 <= i < j < |xs| ==> Less(xs[i], xs[j]) }

  ghost predicate Holds(xs: seq<string>, s: set<string>) { forall x :: x in xs <==> x in s }

  ghost predicate Least(x: string, s: set<string>) { x in s && forall y :: y in s ==> y == x || Less(x, y) }

  lemma {:induction false} SomeLeast(s: set<string>)
    requires s != {}
    ensures exists x :: Least(x, s)
    decreases |s|
  {
    var x :| x in s;
    var rest := s - {x};
    if rest == {} {
      assert s == {x};
      assert Least(x, s);
    } else {
      SomeLeast(rest);
      var y :| Least(y, rest);
      LessTotal(x, y);
      var z := if Less(x, y) then x else y;
      forall w | w in s ensures w == z || Less(z, w) {
        if w != x && w != y && Less(x, y) { LessTrans(x, y, w); }
      }
      assert Least(z, s);
    }
  }

  /** The members of s in ascending order. */
  ghost function InOrder(s: set<string>): (xs: seq<string>)
    ensures Sorted(xs) && Holds(xs, s)
    decreases |s|
  {
    if s == {} then []
    else
      SomeLeast(s);
      var x :| Least(x, s);
      var rest := InOrder(s - {x});
      assert forall i :: 0 <= i < |rest| ==> rest[i] in rest;
      [x] + rest
  }

  lemma FirstIn(xs: seq<string>)
    ensures xs != [] ==> xs[0] in xs
  {}

  /** Only one sequence lists a set in ascending order. */
  lemma {:induction false} OneOrder(xs: seq<string>, ys: seq<string>)
    requires Sorted(xs) && Sorted(ys) && forall x :: x in xs <==> x in ys
    ensures xs == ys
    decreases |xs|
  {
    if xs == [] {
      FirstIn(ys);
    } else {
      assert xs[0] in ys && ys != [] && ys[0] in xs;
      var i :| 0 <= i < |ys| && ys[i] == xs[0];
      var j :| 0 <= j < |xs| && xs[j] == ys[0];
      LessTotal(xs[0], ys[0]);
      assert xs[0] == ys[0];
      forall x ensures x in xs[1..] <==> x in ys[1..] {
        LessTotal(x, xs[0]);
        if x in xs[1..] { assert x in ys; var k :| 0 <= k < |ys| && ys[k] == x; assert k > 0 && ys[1..][k - 1] == x; }
        if x in ys[1..] { assert x in xs; var k :| 0 <= k < |xs| && xs[k] == x; assert k > 0 && xs[1..][k - 1] == x; }
      }
      OneOrder(xs[1..], ys[1..]);
      assert xs == [xs[0]] + xs[1..] && ys == [ys[0]] + ys[1..];
    }
  }

  /** sort.Slice over the keys of a map. */
  method Sort(s: set<string>) returns (xs: seq<string>)
    ensures xs == InOrder(s)
  {
    xs := [];
    var rest := s;
    while rest != {}
      invariant rest <= s && Sorted(xs) && Holds(xs, s - rest)
      invariant forall x, y :: x in xs && y in rest ==> Less(x, y)
      decreases rest
    {
      SomeLeast(rest);
      assert exists x :: x in rest && forall y :: y in rest ==> y == x || Less(x, y) by {
        var x :| Least(x, rest);
        assert x in rest && forall y :: y in rest ==> y == x || Less(x, y);
      }
      var x :| x in rest && forall y :: y in rest ==> y == x || Less(x, y);
      assert forall i :: 0 <= i < |xs| ==> xs[i] in xs;
      xs := xs + [x];
      rest := rest - {x};
    }
    OneOrder(xs, InOrder(s));
  }
}
