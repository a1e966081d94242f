/**
 Any real states that go together pairwise are active together in some legal configuration: each
 compound state gets the child that holds one of them, and every region of a parallel state is filled.
 */
module Completions {
  import opened Charts
  import opened Validator
  import opened Configurations

  ghost predicate AllCompat(c: Chart, S: set<int>) {
    (forall x :: x in S ==> Real(c, x)) && forall x, y {:trigger Compat(c, x, y)} :: x in S && y in S ==>
      Compat(c, x, y)
  }

  ghost predicate Touched(c: Chart, S: set<int>, k: int) { exists x :: x in S && In(c, x, k) }

  /** The child to activate: the one with a state of S in it, if there is one. */
  ghost function Heir(c: Chart, S: set<int>, s: int): (k: int)
    requires RealChildren(c, s) != []
    ensures k in RealChildren(c, s) && ((exists l :: l in RealChildren(c, s) && Touched(c, S, l)) ==> Touched(c, S, k))
  {
    if exists l :: l in RealChildren(c, s) && Touched(c, S, l) then
      var l :| l in RealChildren(c, s) && Touched(c, S, l); l
    else RealChildren(c, s)[0]
  }

  ghost function Completion(c: Chart, S: set<int>, s: int): set<int>
    requires Structured(c) && Real(c, s)
    decreases End(c, s) - s, 1, 0
  {
    assert NodeOk(c, s) && Local(c, s);
    if IsCompound(c, s) then
      ChildOf(c, s, Heir(c, S, s));
      {s} + Completion(c, S, Heir(c, S, s))
    else if IsParallel(c, s) then
      RealsBelow(c, s);
      {s} + CompletionOf(c, S, RealChildren(c, s), s)
    else {s}
  }

  ghost function CompletionOf(c: Chart, S: set<int>, ks: seq<int>, s: int): set<int>
    requires Structured(c) && Real(c, s) && forall i :: 0 <= i < |ks| ==>
      Real(c, ks[i]) && Parent(c, ks[i]) == s && Desc(c, ks[i], s)
    decreases End(c, s) - s, 0, |ks|
  {
    if ks == [] then {}
    else
      assert NodeOk(c, ks[0]) && Real(c, ks[0]);
      Completion(c, S, ks[0]) + CompletionOf(c, S, ks[1..], s)
  }

  lemma ChildOf(c: Chart, s: int, k: int)
    requires Tree(c) && Has(c, s) && k in RealChildren(c, s)
    ensures Real(c, k) && Parent(c, k) == s && Desc(c, k, s) && s < k && End(c, k) <= End(c, s)
  {
    RealsAre(c, Children(c, s), k);
    assert NodeOk(c, s) && NodeOk(c, k);
  }

  lemma RealsBelow(c: Chart, s: int)
    requires Tree(c) && Has(c, s)
    ensures forall i :: 0 <= i < |RealChildren(c, s)| ==> var k := RealChildren(c, s)[i];
      Real(c, k) && Parent(c, k) == s && Desc(c, k, s)
  {
    forall i | 0 <= i < |RealChildren(c, s)|
      ensures var k := RealChildren(c, s)[i]; Real(c, k) && Parent(c, k) == s && Desc(c, k, s)
    {
      ChildOf(c, s, RealChildren(c, s)[i]);
    }
  }

  ghost predicate Linked(c: Chart, M: set<int>, s: int, x: int) {
    Real(c, x) && (x == s || Parent(c, x) == s || Parent(c, x) in M)
  }

  ghost predicate Beneath(c: Chart, ks: seq<int>, x: int) { exists i :: 0 <= i < |ks| && In(c, x, ks[i]) }

  /** M holds real states, each but s with its parent, and everything of S that lies in s. */
  ghost predicate Hangs(c: Chart, S: set<int>, M: set<int>, s: int) {
    && (forall x {:trigger Linked(c, M, s, x)} :: x in M ==> Linked(c, M, s, x))
    && (forall x :: x in S && In(c, x, s) ==> x in M)
  }

  /** The parts of the children ks of s. */
  ghost predicate Parts(c: Chart, S: set<int>, M: set<int>, ks: seq<int>, s: int) {
    && (forall x {:trigger Linked(c, M, s, x)} :: x in M ==> Linked(c, M, s, x))
    && (forall x {:trigger Beneath(c, ks, x)} :: x in M ==> Beneath(c, ks, x))
    && (forall i :: 0 <= i < |ks| ==> ks[i] in M)
    && (forall x {:trigger ChildrenOf(c, M, x)} :: x in M ==> ChildrenOf(c, M, x))
    && (forall x :: x in S && Beneath(c, ks, x) ==> x in M)
  }

  lemma {:induction false} CompletionFills(c: Chart, S: set<int>, s: int)
    requires Structured(c) && Real(c, s) && AllCompat(c, S)
    ensures Fills(c, Completion(c, S, s), s) && Hangs(c, S, Completion(c, S, s), s)
    decreases End(c, s) - s, 1, 0
  {
    hide Fills, Hangs, Parts;
    assert NodeOk(c, s) && Local(c, s);
    if IsCompound(c, s) {
      var k := Heir(c, S, s);
      ChildOf(c, s, k);
      CompletionFills(c, S, k);
      UnderHeir(c, S, s, k, Completion(c, S, k));
    } else if IsParallel(c, s) {
      RealsBelow(c, s);
      RealsApart(c, s);
      CompletionsFill(c, S, RealChildren(c, s), s);
      UnderAll(c, S, s, CompletionOf(c, S, RealChildren(c, s), s));
    } else {
      Leaf(c, S, s);
    }
  }

  lemma Leaf(c: Chart, S: set<int>, s: int)
    requires Structured(c) && IsAtomic(c, s)
    ensures Fills(c, {s}, s) && Hangs(c, S, {s}, s)
  {
    assert NodeOk(c, s) && Local(c, s);
    forall x | x in S && In(c, x, s) ensures x == s { if x != s { HasChildren(c, s, x); } }
  }

  lemma RealsApart(c: Chart, s: int)
    requires Tree(c) && Has(c, s)
    ensures forall i, j :: 0 <= i < j < |RealChildren(c, s)| ==> RealChildren(c, s)[i] != RealChildren(c, s)[j]
  {
    assert NodeOk(c, s);
    RealsAscend(c, Children(c, s));
  }

  lemma {:induction false} RealsAscend(c: Chart, xs: seq<int>)
    requires forall i, j :: 0 <= i < j < |xs| ==> xs[i] < xs[j]
    ensures forall i, j :: 0 <= i < j < |Reals(c, xs)| ==> Reals(c, xs)[i] < Reals(c, xs)[j]
  {
    if xs != [] {
      RealsAscend(c, xs[1..]);
      var rest := Reals(c, xs[1..]);
      forall i | 0 <= i < |rest| ensures xs[0] < rest[i] {
        assert rest[i] in rest;
        RealsAre(c, xs[1..], rest[i]);
        var j :| 0 <= j < |xs[1..]| && xs[1..][j] == rest[i];
        assert xs[j + 1] == rest[i];
      }
    }
  }

  // ---- below a compound state ----

  lemma UnderHeir(c: Chart, S: set<int>, s: int, k: int, M: set<int>)
    requires Structured(c) && IsCompound(c, s) && AllCompat(c, S) && RealChildren(c, s) != [] && k == Heir(c, S, s)
    requires Fills(c, M, k) && Hangs(c, S, M, k)
    ensures Fills(c, {s} + M, s) && Hangs(c, S, {s} + M, s)
  {
    ChildOf(c, s, k);
    assert NodeOk(c, s) && Parent(c, s) < s;
    var N := {s} + M;
    forall x | x in M ensures In(c, x, s) && x != s { TransIn(c, x, k, s); }
    hide Tree, Structured, NodeOk, OneChild;
    forall x {:trigger ChildrenOf(c, N, x)} | x in N ensures ChildrenOf(c, N, x) {
      if x == s { OnlyHeir(c, S, s, k, M); } else { SameChildren(c, M, N, s, x); }
    }
    forall x {:trigger Linked(c, N, s, x)} | x in N && x != s ensures Linked(c, N, s, x) { assert Linked(c, M, k, x); }
    forall x | x in S && In(c, x, s) ensures x in N { if x != s { TheHeirHolds(c, S, s, x); } }
  }

  lemma OnlyHeir(c: Chart, S: set<int>, s: int, k: int, M: set<int>)
    requires Tree(c) && IsCompound(c, s) && Real(c, k) && Parent(c, k) == s && Fills(c, M, k) && Hangs(c, S, M, k)
    ensures ChildrenOf(c, {s} + M, s)
  {
    assert NodeOk(c, s) && NodeOk(c, k) && Desc(c, k, s);
    forall y | y in {s} + M && Parent(c, y) == s ensures y == k { assert y in M && Linked(c, M, k, y) && In(c, y, k); }
    assert k in {s} + M;
  }

  /** Adding the parent of a part adds no child to any state of the part. */
  lemma SameChildren(c: Chart, M: set<int>, N: set<int>, s: int, x: int)
    requires N == {s} + M && ChildrenOf(c, M, x) && Parent(c, s) != x
    ensures ChildrenOf(c, N, x)
  {
    MoreChildren(c, M, N, x);
  }

  lemma MoreChildren(c: Chart, A: set<int>, M: set<int>, x: int)
    requires A <= M && ChildrenOf(c, A, x) && forall y {:trigger Parent(c, y)} :: y in M && Parent(c, y) == x ==> y in A
    ensures ChildrenOf(c, M, x)
  {
    if IsCompound(c, x) {
      var k :| k in A && Parent(c, k) == x;
      assert k in M;
    }
  }

  /** The real child of s that holds x. */
  lemma RealToward(c: Chart, s: int, x: int) returns (l: int)
    requires Structured(c) && Has(c, s) && Real(c, x) && In(c, x, s) && x != s
    ensures l in RealChildren(c, s) && In(c, x, l) && Real(c, l) && Parent(c, l) == s && 0 < l
  {
    assert NodeOk(c, s);
    l := ChildToward(c, s, x);
    assert Real(c, l) by { if l != x { ParentIsReal(c, x, l); } }
    RealsAre(c, Children(c, s), l);
  }

  /** States that go together lie in one child of a compound state. */
  lemma TheHeirHolds(c: Chart, S: set<int>, s: int, x: int)
    requires Structured(c) && IsCompound(c, s) && AllCompat(c, S) && RealChildren(c, s) != [] && x in S && In(c, x, s)
      && x != s
    ensures In(c, x, Heir(c, S, s))
  {
    var k := Heir(c, S, s);
    var l := RealToward(c, s, x);
    assert Touched(c, S, l);
    ChildOf(c, s, k);
    var y :| y in S && In(c, y, k);
    assert Compat(c, x, y);
    assert In(c, x, l) && In(c, y, k) && 0 < k;
  }

  // ---- below a parallel state ----

  lemma {:induction false} CompletionsFill(c: Chart, S: set<int>, ks: seq<int>, s: int)
    requires Structured(c) && Real(c, s) && AllCompat(c, S)
    requires forall i :: 0 <= i < |ks| ==> Real(c, ks[i]) && Parent(c, ks[i]) == s && Desc(c, ks[i], s)
    requires forall i, j :: 0 <= i < j < |ks| ==> ks[i] != ks[j]
    ensures Parts(c, S, CompletionOf(c, S, ks, s), ks, s)
    decreases End(c, s) - s, 0, |ks|
  {
    hide Fills, Hangs, Parts;
    if ks == [] {
      NoParts(c, S, s);
    } else {
      assert NodeOk(c, ks[0]) && Real(c, ks[0]);
      CompletionFills(c, S, ks[0]);
      CompletionsFill(c, S, ks[1..], s);
      OneMorePart(c, S, Completion(c, S, ks[0]), CompletionOf(c, S, ks[1..], s), ks, s);
    }
  }

  lemma NoParts(c: Chart, S: set<int>, s: int)
    ensures Parts(c, S, {}, [], s)
  {}

  /** The first child's part and the parts of the others. */
  lemma OneMorePart(c: Chart, S: set<int>, A: set<int>, B: set<int>, ks: seq<int>, s: int)
    requires Tree(c) && Has(c, s) && ks != [] && Fills(c, A, ks[0]) && Hangs(c, S, A, ks[0])
      && Parts(c, S, B, ks[1..], s)
    requires forall i :: 0 <= i < |ks| ==> Real(c, ks[i]) && Parent(c, ks[i]) == s && Desc(c, ks[i], s)
    requires forall i, j :: 0 <= i < j < |ks| ==> ks[i] != ks[j]
    ensures Parts(c, S, A + B, ks, s)
  {
    var M := A + B;
    forall x {:trigger ChildrenOf(c, M, x)} | x in M ensures ChildrenOf(c, M, x) {
      StillComplete(c, S, A, B, ks, s, x);
    }
    hide ChildrenOf, Tree, Real;
    forall x {:trigger Beneath(c, ks, x)} ensures Beneath(c, ks, x) <==> In(c, x, ks[0]) || Beneath(c, ks[1..], x) {
      BeneathMore(c, ks, x);
    }
    forall x {:trigger Linked(c, M, s, x)} | x in M ensures Linked(c, M, s, x) {
      if x in A { assert Linked(c, A, ks[0], x); } else { assert Linked(c, B, s, x); }
    }
    forall x {:trigger Beneath(c, ks, x)} | x in M ensures Beneath(c, ks, x) {
      if x in B { assert Beneath(c, ks[1..], x); }
    }
    forall i | 0 <= i < |ks| ensures ks[i] in M { if i > 0 { assert ks[1..][i - 1] == ks[i]; } }
  }

  lemma BeneathMore(c: Chart, ks: seq<int>, x: int)
    requires ks != []
    ensures Beneath(c, ks, x) <==> In(c, x, ks[0]) || Beneath(c, ks[1..], x)
  {
    if Beneath(c, ks, x) { var i :| 0 <= i < |ks| && In(c, x, ks[i]); if i > 0 { assert ks[1..][i - 1] == ks[i]; } }
    if Beneath(c, ks[1..], x) { var i :| 0 <= i < |ks[1..]| && In(c, x, ks[1..][i]); assert ks[i + 1] == ks[1..][i]; }
  }

  lemma StillComplete(c: Chart, S: set<int>, A: set<int>, B: set<int>, ks: seq<int>, s: int, x: int)
    requires Tree(c) && Has(c, s) && ks != [] && Fills(c, A, ks[0]) && Parts(c, S, B, ks[1..], s) && x in A + B
    requires forall i :: 0 <= i < |ks| ==> Real(c, ks[i]) && Parent(c, ks[i]) == s
    requires forall i, j :: 0 <= i < j < |ks| ==> ks[i] != ks[j]
    ensures ChildrenOf(c, A + B, x)
  {
    hide ChildrenOf, Tree, Linked;
    forall y, z | y in A && z in B ensures Parent(c, z) != y && Parent(c, y) != z {
      assert Beneath(c, ks[1..], z);
      var i :| 0 <= i < |ks[1..]| && In(c, z, ks[1..][i]);
      assert ks[i + 1] == ks[1..][i];
      NotBeside(c, ks[0], ks[i + 1], s, y, z);
    }
    if x in A { MoreChildren(c, A, A + B, x); } else { MoreChildren(c, B, A + B, x); }
  }

  /** No state of one sibling's subtree is the parent of one of the other's. */
  lemma NotBeside(c: Chart, k: int, l: int, s: int, x: int, y: int)
    requires Tree(c) && 0 <= s && Has(c, k) && Has(c, l) && Parent(c, k) == s && Parent(c, l) == s && k != l
      && In(c, x, k) && In(c, y, l)
    ensures Parent(c, y) != x && Parent(c, x) != y
  {
    assert NodeOk(c, k) && NodeOk(c, l) && Desc(c, k, s) && Desc(c, l, s);
    SiblingsApart(c, k, l, x);
    SiblingsApart(c, l, k, y);
    if Parent(c, y) == x { assert Desc(c, y, x); TransIn(c, y, x, k); }
    if Parent(c, x) == y { assert Desc(c, x, y); TransIn(c, x, y, l); }
  }

  lemma AllThere(c: Chart, S: set<int>, s: int, M: set<int>)
    requires Tree(c) && IsParallel(c, s) && Parts(c, S, M, RealChildren(c, s), s)
    ensures ChildrenOf(c, {s} + M, s)
  {
    assert NodeOk(c, s);
    var ks := RealChildren(c, s);
    forall k {:trigger Parent(c, k)} | Real(c, k) && Parent(c, k) == s ensures k in {s} + M {
      RealsAre(c, Children(c, s), k);
      var i :| 0 <= i < |ks| && ks[i] == k;
      assert ks[i] in M;
    }
    hide Parts, Tree, NodeOk;
  }

  lemma UnderAll(c: Chart, S: set<int>, s: int, M: set<int>)
    requires Structured(c) && IsParallel(c, s) && (forall x :: x in S ==> Real(c, x))
      && Parts(c, S, M, RealChildren(c, s), s)
    ensures Fills(c, {s} + M, s) && Hangs(c, S, {s} + M, s)
  {
    var N, ks := {s} + M, RealChildren(c, s);
    assert NodeOk(c, s) && Parent(c, s) < s;
    RealsBelow(c, s);
    forall x | x in M ensures In(c, x, s) && x != s {
      assert Beneath(c, ks, x);
      var i :| 0 <= i < |ks| && In(c, x, ks[i]);
      TransIn(c, x, ks[i], s);
    }
    AllThere(c, S, s, M);
    hide Tree, AllChildren, OneChild, NodeOk;
    forall x {:trigger ChildrenOf(c, N, x)} | x in N && x != s ensures ChildrenOf(c, N, x) {
      SameChildren(c, M, N, s, x);
    }
    forall x {:trigger Linked(c, N, s, x)} | x in N && x != s ensures Linked(c, N, s, x) { assert Linked(c, M, s, x); }
    forall x | x in S && In(c, x, s) ensures x in N {
      if x != s {
        var l := RealToward(c, s, x);
        var i :| 0 <= i < |ks| && ks[i] == l;
        assert In(c, x, ks[i]);
        assert Beneath(c, ks, x);
      }
    }
  }

  /** In any structured chart with a compound root, real states that go together pairwise are all
      active in some legal configuration. */
  lemma TogetherIsLegal(c: Chart, S: set<int>)
    requires Structured(c) && IsCompound(c, 0) && AllCompat(c, S) && 0 !in S
    ensures exists C :: Legal(c, C) && S <= C
  {
    CompletionFills(c, S, 0);
    var M := Completion(c, S, 0);
    var C := M - {0};
    assert NodeOk(c, 0);
    forall s | s in M ensures ChildrenOf(c, C, s) { WithoutRoot(c, M, s); }
    forall s | s in C ensures ActiveOk(c, C, s) { assert In(c, s, 0) && ChildrenOf(c, C, s) && Linked(c, M, 0, s); }
    forall x | x in S ensures x in C { assert In(c, x, 0); }
    assert Legal(c, C);
  }

  lemma WithoutRoot(c: Chart, M: set<int>, s: int)
    requires Tree(c) && Has(c, s) && ChildrenOf(c, M, s)
    ensures ChildrenOf(c, M - {0}, s)
  {
    assert NodeOk(c, 0);
    if IsCompound(c, s) { var k :| k in M && Parent(c, k) == s; assert k in M - {0}; }
  }
}
