/**
 Legal configurations out of regions: entering a region below the root gives a legal configuration,
 and replacing what lies below some active compound states by regions keeps a configuration legal.
 With the first fact, the validator's target-set check means exactly what it should.
 */
module Configurations {
  import opened Charts
  import opened Validator
  import opened WellFormed
  import opened EntrySets
  import opened Regions

  lemma {:induction false} RegionUp(c: Chart, N: set<int>, b: int, x: int, q: int)
    requires Tree(c) && 0 <= b && Region(c, N, b) && x in N && In(c, x, q) && Desc(c, q, b)
    ensures q in N
    decreases x
  {
    if x != q {
      assert Placed(c, N, b, {}, x);
      assert q <= Parent(c, x) by { assert Desc(c, x, q); }
      assert Desc(c, x, Parent(c, x));
      RegionUp(c, N, b, Parent(c, x), q);
    }
  }

  /** In a region, a compound state (or the compound bound) has exactly one child. */
  lemma RegionOneChild(c: Chart, N: set<int>, b: int, s: int)
    requires EntryShape(c) && 0 <= b && Region(c, N, b) && IsCompound(c, s)
    requires s in N || (s == b && exists w :: w in N)
    ensures OneChild(c, N, s)
  {
    if s in N {
      assert Placed(c, N, b, {}, s) && Complete(c, N, s);
    } else {
      var w :| w in N;
      assert Placed(c, N, b, {}, w);
      CoveredChild(c, N, b, w);
    }
    var k :| Real(c, k) && Parent(c, k) == s && Covered(c, N, k);
    var x :| x in N && In(c, x, k);
    assert NodeOk(c, k) && Desc(c, k, s);
    if s != b { TransDesc(c, k, s, b); }
    RegionUp(c, N, b, x, k);
    forall k, l | k in N && l in N && Parent(c, k) == s && Parent(c, l) == s
      ensures k == l
    {
      SiblingsExclude(c, N, b, k, l);
    }
  }

  lemma SiblingsExclude(c: Chart, N: set<int>, b: int, k: int, l: int)
    requires EntryShape(c) && 0 <= b && Region(c, N, b) && k in N && l in N
    requires Parent(c, k) == Parent(c, l) && IsCompound(c, Parent(c, k))
    ensures k == l
  {
    assert Placed(c, N, b, {}, k) && Placed(c, N, b, {}, l);
    assert NodeOk(c, k) && NodeOk(c, l);
    assert In(c, k, k) && In(c, l, l);
    assert Compat(c, k, l);
  }

  lemma RegionAllChildren(c: Chart, N: set<int>, b: int, s: int)
    requires EntryShape(c) && 0 <= b && Region(c, N, b) && IsParallel(c, s) && s in N
    ensures AllChildren(c, N, s)
  {
    assert Placed(c, N, b, {}, s) && Complete(c, N, s);
    forall k {:trigger Parent(c, k)} | Real(c, k) && Parent(c, k) == s
      ensures k in N
    {
      assert Covered(c, N, k);
      var x :| x in N && In(c, x, k);
      assert NodeOk(c, k) && NodeOk(c, s) && Desc(c, k, s);
      TransDesc(c, k, s, b);
      RegionUp(c, N, b, x, k);
    }
  }

  /** A non-empty region below the root is a legal configuration. */
  lemma RegionIsLegal(c: Chart, N: set<int>)
    requires EntryShape(c) && Region(c, N, 0) && exists w :: w in N
    ensures Legal(c, N)
  {
    RegionOneChild(c, N, 0, 0);
    forall s | s in N
      ensures ActiveOk(c, N, s)
    {
      assert Placed(c, N, 0, {}, s);
      if IsCompound(c, s) { RegionOneChild(c, N, 0, s); }
      if IsParallel(c, s) { RegionAllChildren(c, N, 0, s); }
    }
  }

  // ---- replacing what lies below some domains ----

  /** Active compound states (or the root), none below another. */
  ghost predicate Domains(c: Chart, C: set<int>, ds: set<int>) {
    && (forall d :: d in ds ==> IsCompound(c, d) && (d == 0 || d in C))
    && (forall d, f :: d in ds && f in ds ==> !Desc(c, d, f))
  }

  ghost predicate UnderSome(c: Chart, ds: set<int>, x: int) { exists d :: d in ds && Desc(c, x, d) }

  /** E consists of one non-empty region below each domain. */
  ghost predicate RegionsBelow(c: Chart, ds: set<int>, E: set<int>) {
    && (forall x {:trigger UnderSome(c, ds, x)} :: x in E ==> UnderSome(c, ds, x))
    && (forall d :: d in ds ==> Region(c, Under(c, E, d), d) && exists w :: w in Under(c, E, d))
  }

  ghost function Exited(c: Chart, C: set<int>, ds: set<int>): set<int> { set x | x in C && UnderSome(c, ds, x) }

  /** A state whose parent is exited or entered below a domain lies below that domain. */
  lemma ChildBelow(c: Chart, ds: set<int>, k: int, s: int)
    requires Tree(c) && Has(c, k) && 0 < k && Parent(c, k) == s && (forall d :: d in ds ==> Has(c, d))
    ensures UnderSome(c, ds, k) <==> UnderSome(c, ds, s) || s in ds
  {
    assert Desc(c, k, s);
    if UnderSome(c, ds, s) {
      var d :| d in ds && Desc(c, s, d);
      TransDesc(c, k, s, d);
    }
    if UnderSome(c, ds, k) {
      var d :| d in ds && Desc(c, k, d);
      assert d <= s;
    }
  }

  lemma ReplacedActive(c: Chart, C: set<int>, ds: set<int>, E: set<int>, s: int)
    requires EntryShape(c) && Legal(c, C) && Domains(c, C, ds) && RegionsBelow(c, ds, E) && s in Replaced(c, C, ds, E)
    ensures ActiveOk(c, Replaced(c, C, ds, E), s)
  {
    NewOrOld(c, C, ds, E, s);
    ReplacedChildren(c, C, ds, E, s);
    assert NodeOk(c, s);
    ChildBelow(c, ds, s, Parent(c, s));
    if s in E {
      var d :| d in ds && Desc(c, s, d);
      assert Placed(c, Under(c, E, d), d, {}, s);
      if Parent(c, s) == d && d != 0 {
        assert d in C && !UnderSome(c, ds, d);
      }
    } else {
      assert ActiveOk(c, C, s);
    }
  }

  /** The configuration after exiting everything below the domains and entering regions there. */
  ghost function Replaced(c: Chart, C: set<int>, ds: set<int>, E: set<int>): set<int> { C - Exited(c, C, ds) + E }

  lemma ReplacedChildren(c: Chart, C: set<int>, ds: set<int>, E: set<int>, s: int)
    requires EntryShape(c) && Legal(c, C) && Domains(c, C, ds) && RegionsBelow(c, ds, E)
    requires Has(c, s) && (s == 0 || s in Replaced(c, C, ds, E))
    ensures IsCompound(c, s) ==> OneChild(c, Replaced(c, C, ds, E), s)
    ensures IsParallel(c, s) ==> AllChildren(c, Replaced(c, C, ds, E), s)
  {
    var C' := Replaced(c, C, ds, E);
    if UnderSome(c, ds, s) || s in ds {
      // every child below s is new
      var d :| d in ds && (Desc(c, s, d) || s == d);
      var N := Under(c, E, d);
      if Desc(c, s, d) {
        assert UnderSome(c, ds, s);
        assert s in E && s in N;
      }
      if IsCompound(c, s) { RegionOneChild(c, N, d, s); }
      if IsParallel(c, s) { RegionAllChildren(c, N, d, s); }
      forall k | k in C' && Parent(c, k) == s
        ensures k in N
      {
        NewOrOld(c, C, ds, E, k);
        ChildBelow(c, ds, k, s);
        assert k in E;
        assert Desc(c, k, s);
        if s != d { TransDesc(c, k, s, d); }
      }
    } else {
      // every child of s stays
      if s != 0 { NewOrOld(c, C, ds, E, s); }
      if s != 0 { assert ActiveOk(c, C, s); }
      forall k {:trigger Parent(c, k)} | Has(c, k) && 0 < k && Parent(c, k) == s
        ensures k in C' <==> k in C
      {
        ChildBelow(c, ds, k, s);
      }
      if IsCompound(c, s) {
        var k :| k in C && Parent(c, k) == s;
        assert ActiveOk(c, C, k);
        assert k in C';
        forall k, l | k in C' && l in C' && Parent(c, k) == s && Parent(c, l) == s
          ensures k == l
        {
          NewOrOld(c, C, ds, E, k);
          NewOrOld(c, C, ds, E, l);
        }
      }
      if IsParallel(c, s) {
        forall k {:trigger Parent(c, k)} | Real(c, k) && Parent(c, k) == s
          ensures k in C'
        {
          assert NodeOk(c, k) && NodeOk(c, s);
          assert NodeOk(c, 0);
        }
      }
    }
  }

  lemma NewOrOld(c: Chart, C: set<int>, ds: set<int>, E: set<int>, x: int)
    requires EntryShape(c) && Legal(c, C) && RegionsBelow(c, ds, E) && x in Replaced(c, C, ds, E)
    ensures 0 < x && Real(c, x)
    ensures x in E <==> UnderSome(c, ds, x)
  {
    if x in E {
      assert UnderSome(c, ds, x);
      var d :| d in ds && Desc(c, x, d);
      assert Placed(c, Under(c, E, d), d, {}, x);
    } else {
      assert ActiveOk(c, C, x);
    }
    assert NodeOk(c, 0);
  }

  lemma ReplacedIsLegal(c: Chart, C: set<int>, ds: set<int>, E: set<int>)
    requires EntryShape(c) && Legal(c, C) && Domains(c, C, ds) && RegionsBelow(c, ds, E)
    ensures Legal(c, Replaced(c, C, ds, E))
    ensures E !! C - Exited(c, C, ds)
  {
    var C' := Replaced(c, C, ds, E);
    assert NodeOk(c, 0);
    ReplacedChildren(c, C, ds, E, 0);
    forall s | s in C' ensures ActiveOk(c, C', s) { ReplacedActive(c, C, ds, E, s); }
    forall x | x in E && x in C
      ensures x in Exited(c, C, ds)
    {
      assert UnderSome(c, ds, x);
    }
  }

  // ---- complete parts ----

  /** M is a complete way of being in k. */
  ghost predicate Fills(c: Chart, M: set<int>, k: int) {
    && k in M && (forall s :: s in M ==> In(c, s, k))
    && forall s {:trigger ChildrenOf(c, M, s)} :: s in M ==> ChildrenOf(c, M, s)
  }

  ghost predicate ChildrenOf(c: Chart, M: set<int>, s: int) {
    (IsCompound(c, s) ==> OneChild(c, M, s)) && (IsParallel(c, s) ==> AllChildren(c, M, s))
  }
}
