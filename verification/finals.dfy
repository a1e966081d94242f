/**
 When a state is done (interpreter.go:983-1002), said of the configuration without recursion: every way down
 from it through parallel states ends in a compound state with an active final child.
 */
module Finals {
  import opened Charts
  import opened Machine

  /** z lies on the way down from s to y, above y. */
  ghost predicate OnTheWay(c: Chart, s: int, y: int, z: int) { In(c, z, s) && Desc(c, y, z) }

  /** y is reached from s through parallel states only. */
  ghost predicate Spans(c: Chart, s: int, y: int) {
    Real(c, y) && In(c, y, s) && forall z {:trigger OnTheWay(c, s, y, z)} :: OnTheWay(c, s, y, z) ==> IsParallel(c, z)
  }

  ghost predicate HasFinalChild(c: Chart, C: set<int>, y: int) {
    IsCompound(c, y) && exists k :: k in C && KindOf(c, k) == Final && Parent(c, k) == y
  }

  ghost predicate Finished(c: Chart, C: set<int>, s: int) {
    forall y {:trigger Spans(c, s, y)} :: Spans(c, s, y) ==> IsParallel(c, y) || HasFinalChild(c, C, y)
  }

  lemma RealChildIs(c: Chart, s: int, k: int)
    requires Tree(c) && Has(c, s)
    ensures k in RealChildren(c, s) <==> Real(c, k) && Parent(c, k) == s
    ensures k in RealChildren(c, s) ==> Desc(c, k, s)
  {
    RealsAre(c, Children(c, s), k);
    assert NodeOk(c, s) && (Has(c, k) ==> NodeOk(c, k));
    if k in RealChildren(c, s) { assert 0 < k && Desc(c, k, Parent(c, k)); }
  }

  lemma WayThroughChild(c: Chart, s: int, k: int, y: int, z: int)
    requires Tree(c) && Has(c, s) && Real(c, k) && Parent(c, k) == s && In(c, y, k) && Desc(c, k, s)
    ensures OnTheWay(c, s, y, z) <==> z == s || OnTheWay(c, k, y, z)
  {
    assert NodeOk(c, s) && NodeOk(c, k);
    if OnTheWay(c, s, y, z) {
      Nested(c, y, z, k);
      assert Desc(c, k, z) ==> z <= Parent(c, k);
    }
    if OnTheWay(c, k, y, z) { TransIn(c, z, k, s); }
  }

  /** Way down from the parent is way down from one of its children. */
  lemma SpansChild(c: Chart, s: int, k: int, y: int)
    requires Tree(c) && IsParallel(c, s) && Real(c, k) && Parent(c, k) == s && In(c, y, k)
    ensures Spans(c, s, y) <==> Spans(c, k, y)
  {
    hide OnTheWay, Tree;
    RealChildIs(c, s, k);
    TransIn(c, y, k, s);
    forall z {:trigger OnTheWay(c, s, y, z)} {:trigger OnTheWay(c, k, y, z)}
      ensures OnTheWay(c, s, y, z) <==> z == s || OnTheWay(c, k, y, z)
    {
      WayThroughChild(c, s, k, y, z);
    }
  }

  lemma {:induction false} ChildTowards(c: Chart, s: int, y: int) returns (k: int)
    requires Tree(c) && Has(c, s) && Desc(c, y, s)
    ensures Has(c, k) && Parent(c, k) == s && In(c, y, k) && Desc(c, k, s)
    decreases y
  {
    assert NodeOk(c, s);
    k := y;
    if Parent(c, y) != s {
      assert Desc(c, y, Parent(c, y)) && Desc(c, Parent(c, y), s);
      k := ChildTowards(c, s, Parent(c, y));
      TransIn(c, y, Parent(c, y), k);
    }
  }

  /** The walk decides it. */
  lemma {:induction false} InFinalStateIs(c: Chart, C: set<int>, s: int)
    requires Tree(c) && Real(c, s)
    ensures InFinalState(c, C, s) <==> Finished(c, C, s)
    decreases End(c, s) - s
  {
    assert NodeOk(c, s);
    forall k ensures k in RealChildren(c, s) <==> Real(c, k) && Parent(c, k) == s { RealChildIs(c, s, k); }
    if !IsParallel(c, s) {
      assert Spans(c, s, s);
      forall y | Spans(c, s, y) ensures y == s { assert y == s || OnTheWay(c, s, y, s); }
    } else {
      forall k | k in RealChildren(c, s) ensures InFinalState(c, C, k) <==> Finished(c, C, k) {
        RealChildIs(c, s, k);
        assert NodeOk(c, k);
        InFinalStateIs(c, C, k);
      }
      forall k | k in RealChildren(c, s) && Finished(c, C, s) ensures Finished(c, C, k) {
        forall y {:trigger Spans(c, k, y)} | Spans(c, k, y) ensures IsParallel(c, y) || HasFinalChild(c, C, y) {
          SpansChild(c, s, k, y);
        }
      }
      if forall k :: k in RealChildren(c, s) ==> Finished(c, C, k) {
        forall y {:trigger Spans(c, s, y)} | Spans(c, s, y) ensures IsParallel(c, y) || HasFinalChild(c, C, y) {
          if y != s {
            var k := ChildTowards(c, s, y);
            assert k == y || OnTheWay(c, s, y, k);
            SpansChild(c, s, k, y);
          }
        }
      }
    }
  }
}
