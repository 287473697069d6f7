/**
 * The "side of the tree path" computation of misc/calcpaths.cc: given the
 * objects `from` that a construction starts at and the object `to` it
 * ends at, find the objects that `to` uses but that do not themselves
 * depend on `from`, although one of their children does.  Cache objects
 * (objects whose value is only a cache of something computed elsewhere)
 * are skipped: their real-valued ancestors are reported instead.
 */
module SidePaths {
  import opened CalcPaths

  /** `p` is a parent of the node `o`, so it is a node of lower rank. */
  lemma ParentBelow(g: Graph, rank: map<Node, nat>, p: Node, o: Node)
    requires Dag(g, rank) && o in g.children && p in g.parents[o]
    ensures p in g.children && o in g.children[p] && rank[p] < rank[o]
  {
  }

  lemma ParentsAreNodes(g: Graph, rank: map<Node, nat>, o: Node)
    requires Dag(g, rank) && o in g.children
    ensures forall p :: p in g.parents[o] ==> p in g.children && rank[p] < rank[o]
  {
    forall p | p in g.parents[o] ensures p in g.children && rank[p] < rank[o] {
      ParentBelow(g, rank, p, o);
    }
  }

  // ---------------------------------------------------------------------
  // addNonCache

  /**
   * `n` is what addNonCache collects for `o`: `o` itself when it is not a
   * cache object, and otherwise what it collects for one of `o`'s parents.
   */
  ghost predicate ViaCache(g: Graph, cache: set<Node>, rank: map<Node, nat>, n: Node, o: Node)
    requires Dag(g, rank) && o in g.children
    decreases rank[o]
  {
    if o !in cache then n == o
    else exists p :: p in g.parents[o] && ViaCache(g, cache, rank, n, p)
  }

  ghost predicate RootedIn(g: Graph, cache: set<Node>, rank: map<Node, nat>, n: Node, os: set<Node>)
    requires Dag(g, rank) && os <= g.children.Keys
  {
    exists p :: p in os && ViaCache(g, cache, rank, n, p)
  }

  /** The non-cache objects addNonCache collects for the objects `os`. */
  ghost function Roots(g: Graph, cache: set<Node>, rank: map<Node, nat>, os: set<Node>): set<Node>
    requires Dag(g, rank) && os <= g.children.Keys
  {
    set n | n in g.children && RootedIn(g, cache, rank, n, os)
  }

  /** Whatever addNonCache collects is a non-cache ancestor of its argument. */
  lemma {:induction false} ViaCacheMeaning(g: Graph, cache: set<Node>, rank: map<Node, nat>, n: Node, o: Node)
    requires Dag(g, rank) && o in g.children && ViaCache(g, cache, rank, n, o)
    ensures n in g.children && n !in cache && Reaches(g, rank, n, o)
    decreases rank[o]
  {
    if o in cache {
      var p :| p in g.parents[o] && ViaCache(g, cache, rank, n, p);
      ParentBelow(g, rank, p, o);
      ViaCacheMeaning(g, cache, rank, n, p);
      ReachesChild(g, rank, n, p, o);
    } else {
      assert Reaches(g, rank, o, o);
    }
  }

  /** Every element of `Roots(os)` is a non-cache node. */
  lemma RootsMeaning(g: Graph, cache: set<Node>, rank: map<Node, nat>, os: set<Node>, n: Node)
    requires Dag(g, rank) && os <= g.children.Keys && n in Roots(g, cache, rank, os)
    ensures n !in cache && exists o :: o in os && Reaches(g, rank, n, o)
  {
    var o :| o in os && ViaCache(g, cache, rank, n, o);
    ViaCacheMeaning(g, cache, rank, n, o);
  }

  /** What addNonCache collects for one object, one level unfolded. */
  lemma RootsOne(g: Graph, cache: set<Node>, rank: map<Node, nat>, o: Node)
    requires Dag(g, rank) && o in g.children
    ensures Elems(g.parents[o]) <= g.children.Keys
    ensures o !in cache ==> Roots(g, cache, rank, {o}) == {o}
    ensures o in cache ==> Roots(g, cache, rank, {o}) == Roots(g, cache, rank, Elems(g.parents[o]))
  {
    forall p | p in g.parents[o] ensures p in g.children {
      ParentBelow(g, rank, p, o);
    }
    if o in cache {
      forall n | n in g.children
        ensures RootedIn(g, cache, rank, n, {o}) <==> RootedIn(g, cache, rank, n, Elems(g.parents[o]))
      {
        if RootedIn(g, cache, rank, n, {o}) {
          assert ViaCache(g, cache, rank, n, o);
          var p :| p in g.parents[o] && ViaCache(g, cache, rank, n, p);
          assert p in Elems(g.parents[o]);
        }
        if RootedIn(g, cache, rank, n, Elems(g.parents[o])) {
          var p :| p in Elems(g.parents[o]) && ViaCache(g, cache, rank, n, p);
          assert ViaCache(g, cache, rank, n, o);
        }
      }
    } else {
      assert RootedIn(g, cache, rank, o, {o});
    }
  }

  lemma RootsUnion(g: Graph, cache: set<Node>, rank: map<Node, nat>, a: set<Node>, b: set<Node>)
    requires Dag(g, rank) && a <= g.children.Keys && b <= g.children.Keys
    ensures Roots(g, cache, rank, a + b) == Roots(g, cache, rank, a) + Roots(g, cache, rank, b)
  {
  }

  lemma RootsEmpty(g: Graph, cache: set<Node>, rank: map<Node, nat>)
    requires Dag(g, rank)
    ensures Roots(g, cache, rank, {}) == {}
  {
  }

  lemma ElemsSnoc(s: seq<Node>, i: nat)
    requires i < |s|
    ensures Elems(s[..i + 1]) == Elems(s[..i]) + {s[i]}
  {
    assert s[..i + 1] == s[..i] + [s[i]];
  }

  lemma ElemsPrefix(s: seq<Node>, i: nat)
    requires i <= |s|
    ensures Elems(s[..i]) <= Elems(s)
  {
  }

  /** Appending `[o]` to a duplicate-free list that lacks `o` keeps it duplicate-free. */
  lemma AppendFresh(ret: seq<Node>, o: Node)
    requires o !in ret
    ensures IsPrefix(ret, ret + [o])
    ensures Elems(ret + [o]) == Elems(ret) + {o}
    ensures NoDup(ret) ==> NoDup(ret + [o])
  {
    assert (ret + [o])[..|ret|] == ret;
  }

  lemma PresentAlready(ret: seq<Node>, o: Node)
    requires o in ret
    ensures Elems(ret) == Elems(ret) + {o}
  {
  }

  /**
   * addNonCache as written.  The `else` binds to the inner `if`, so a
   * cache object is dropped outright, and a non-cache object that is
   * already listed has its parents visited instead.
   */
  method AddNonCacheAsWritten(g: Graph, cache: set<Node>, o: Node, ret: seq<Node>, ghost rank: map<Node, nat>)
    returns (ret': seq<Node>)
    requires Dag(g, rank) && o in g.children
    ensures IsPrefix(ret, ret')
    ensures o in cache ==> ret' == ret
    ensures o !in cache && o !in ret ==> ret' == ret + [o]
    ensures AddedAbove(g, cache, rank, ret, ret', o)
    ensures NoDup(ret) ==> NoDup(ret')
    decreases rank[o]
  {
    ret' := ret;
    assert ret[|ret|..] == [];
    if o !in cache {
      if o !in ret {
        AppendFresh(ret, o);
        assert Reaches(g, rank, o, o);
        assert (ret + [o])[|ret|..] == [o];
        ret' := ret + [o];
      } else {
        var parents := g.parents[o];
        for i := 0 to |parents|
          invariant IsPrefix(ret, ret')
          invariant AddedAbove(g, cache, rank, ret, ret', o)
          invariant NoDup(ret) ==> NoDup(ret')
        {
          ParentBelow(g, rank, parents[i], o);
          var next := AddNonCacheAsWritten(g, cache, parents[i], ret', rank);
          NewEntries(g, cache, rank, ret, ret', next, parents[i], o);
          PrefixTrans(ret, ret', next);
          ret' := next;
        }
      }
    }
  }

  /** The entries of `ret'` past `ret` are non-cache nodes that `o` depends on. */
  ghost predicate AddedAbove(g: Graph, cache: set<Node>, rank: map<Node, nat>, ret: seq<Node>, ret': seq<Node>, o: Node)
    requires Ranked(g, rank)
  {
    && |ret| <= |ret'|
    && forall n :: n in ret'[|ret|..] ==> n in g.children && n !in cache && Reaches(g, rank, n, o)
  }

  /** The entries a nested call for a parent `p` appends also lie above `o`. */
  lemma NewEntries(g: Graph, cache: set<Node>, rank: map<Node, nat>, ret: seq<Node>, mid: seq<Node>, next: seq<Node>,
                   p: Node, o: Node)
    requires Ranked(g, rank) && p in g.children && o in g.children[p]
    requires IsPrefix(ret, mid) && IsPrefix(mid, next)
    requires AddedAbove(g, cache, rank, ret, mid, o) && AddedAbove(g, cache, rank, mid, next, p)
    ensures AddedAbove(g, cache, rank, ret, next, o)
  {
    forall n | n in next[|ret|..] ensures n in g.children && n !in cache && Reaches(g, rank, n, o) {
      var k :| 0 <= k < |next[|ret|..]| && next[|ret|..][k] == n;
      if |ret| + k < |mid| {
        assert mid[|ret|..][k] == n;
      } else {
        assert next[|mid|..][|ret| + k - |mid|] == n;
        ReachesChild(g, rank, n, p, o);
      }
    }
  }

  /** One more parent of a cache object: what its call adds joins the roots of the parents before it. */
  lemma RootsStep(g: Graph, cache: set<Node>, rank: map<Node, nat>, parents: seq<Node>, i: nat,
                  ret: seq<Node>, mid: seq<Node>, next: seq<Node>)
    requires Dag(g, rank) && i < |parents| && Elems(parents[..i]) <= g.children.Keys && parents[i] in g.children
    requires Elems(mid) == Elems(ret) + Roots(g, cache, rank, Elems(parents[..i]))
    requires Elems(next) == Elems(mid) + Roots(g, cache, rank, {parents[i]})
    ensures Elems(parents[..i + 1]) <= g.children.Keys
    ensures Elems(next) == Elems(ret) + Roots(g, cache, rank, Elems(parents[..i + 1]))
  {
    ElemsSnoc(parents, i);
    RootsUnion(g, cache, rank, Elems(parents[..i]), {parents[i]});
  }

  /**
   * addNonCache as evidently intended: a non-cache object is appended
   * unless already listed, and a cache object is replaced by what its
   * parents yield, in order.
   */
  method AddNonCache(g: Graph, cache: set<Node>, o: Node, ret: seq<Node>, ghost rank: map<Node, nat>)
    returns (ret': seq<Node>)
    requires Dag(g, rank) && o in g.children
    ensures IsPrefix(ret, ret')
    ensures Elems(ret') == Elems(ret) + Roots(g, cache, rank, {o})
    ensures NoDup(ret) ==> NoDup(ret')
    decreases rank[o]
  {
    RootsOne(g, cache, rank, o);
    if o !in cache {
      if o !in ret {
        AppendFresh(ret, o);
        ret' := ret + [o];
      } else {
        PresentAlready(ret, o);
        ret' := ret;
      }
    } else {
      var parents := g.parents[o];
      ret' := ret;
      RootsEmpty(g, cache, rank);
      assert parents[..0] == [];
      for i := 0 to |parents|
        invariant Elems(parents[..i]) <= g.children.Keys
        invariant IsPrefix(ret, ret')
        invariant Elems(ret') == Elems(ret) + Roots(g, cache, rank, Elems(parents[..i]))
        invariant NoDup(ret) ==> NoDup(ret')
      {
        ParentBelow(g, rank, parents[i], o);
        var next := AddNonCache(g, cache, parents[i], ret', rank);
        RootsStep(g, cache, rank, parents, i, ret, ret', next);
        PrefixTrans(ret, ret', next);
        ret' := next;
      }
      assert parents[..|parents|] == parents;
    }
  }

  /** Object 0 and its only child 1. */
  const PairGraph: Graph := Graph(map[0 := [1], 1 := []], map[0 := [], 1 := [0]])
  const PairRank: map<Node, nat> := map[0 := 0, 1 := 1]

  lemma PairDag()
    ensures Dag(PairGraph, PairRank)
  {
    var g := PairGraph;
    assert g.children.Keys == {0, 1} == g.parents.Keys == PairRank.Keys;
    forall p, c | p in g.children && c in g.children[p]
      ensures c in g.children && PairRank[p] < PairRank[c] && c in g.parents && p in g.parents[c]
    {
      assert p == 0 && c == 1;
    }
    forall p, c | c in g.parents && p in g.parents[c]
      ensures p in g.children && c in g.children[p]
    {
      assert c == 1 && p == 0;
    }
  }

  /**
   * The two readings part on a cache object with a non-cache parent:
   * object 1, a cache, has the single parent 0.  As written, addNonCache
   * leaves the list unchanged for 1; as intended, it collects 0.
   */
  lemma CacheParentDropped()
    ensures Dag(PairGraph, PairRank) && Roots(PairGraph, {1}, PairRank, {1}) == {0}
  {
    PairDag();
    RootsOne(PairGraph, {1}, PairRank, 1);
    RootsOne(PairGraph, {1}, PairRank, 0);
    assert Elems(PairGraph.parents[1]) == {0};
  }

  /**
   * Both readings run on that pair: for the cache object 1, addNonCache
   * as written adds nothing, while the intended rule collects its parent 0.
   */
  method AddNonCacheOnPair() returns (asWritten: seq<Node>, intended: seq<Node>)
    ensures asWritten == []
    ensures Elems(intended) == {0}
  {
    CacheParentDropped();
    asWritten := AddNonCacheAsWritten(PairGraph, {1}, 1, [], PairRank);
    intended := AddNonCache(PairGraph, {1}, 1, [], PairRank);
  }

  // ---------------------------------------------------------------------
  // visit and sideOfTreePath

  /** Some object of `from` is `o` or one of its ancestors. */
  ghost predicate DependsOn(g: Graph, rank: map<Node, nat>, from: seq<Node>, o: Node)
    requires Ranked(g, rank) && o in g.children
  {
    exists f :: f in from && f in g.children && Reaches(g, rank, f, o)
  }

  /** Outside `from`, a node depends on `from` exactly when one of its parents does. */
  lemma DependsStep(g: Graph, rank: map<Node, nat>, from: seq<Node>, o: Node)
    requires Dag(g, rank) && o in g.children
    ensures o in from ==> DependsOn(g, rank, from, o)
    ensures forall p :: p in g.parents[o] ==> p in g.children
    ensures o !in from ==>
      (DependsOn(g, rank, from, o) <==> exists p :: p in g.parents[o] && DependsOn(g, rank, from, p))
  {
    assert Reaches(g, rank, o, o);
    forall p | p in g.parents[o] ensures p in g.children {
      ParentBelow(g, rank, p, o);
    }
    if o !in from {
      if DependsOn(g, rank, from, o) {
        var f :| f in from && f in g.children && Reaches(g, rank, f, o);
        ReachesViaParent(g, rank, f, o);
        var p :| p in g.parents[o] && Reaches(g, rank, f, p);
        assert DependsOn(g, rank, from, p);
      }
      if exists p :: p in g.parents[o] && DependsOn(g, rank, from, p) {
        var p :| p in g.parents[o] && DependsOn(g, rank, from, p);
        var f :| f in from && f in g.children && Reaches(g, rank, f, p);
        ParentBelow(g, rank, p, o);
        ReachesChild(g, rank, f, p, o);
      }
    }
  }

  /**
   * visit( o, ... ) reaches `m`: the walk up the parent lists from `o`
   * arrives at `m` without passing through an object of `from`, where it
   * stops.
   */
  ghost predicate Explored(g: Graph, rank: map<Node, nat>, from: seq<Node>, m: Node, o: Node)
    requires Dag(g, rank) && o in g.children
    decreases rank[o]
  {
    o !in from && (m == o || exists p :: p in g.parents[o] && Explored(g, rank, from, m, p))
  }

  /** The parents among `ps` that do not depend on `from`. */
  ghost function NonDep(g: Graph, rank: map<Node, nat>, from: seq<Node>, ps: set<Node>): set<Node>
    requires Ranked(g, rank) && ps <= g.children.Keys
  {
    set p | p in ps && !DependsOn(g, rank, from, p)
  }

  /**
   * What visit( m, ... ) itself adds: when `m` depends on `from`, the
   * collected objects of its parents that do not.
   */
  ghost function Local(g: Graph, cache: set<Node>, rank: map<Node, nat>, from: seq<Node>, m: Node): set<Node>
    requires Dag(g, rank) && m in g.children
  {
    RootsOne(g, cache, rank, m);
    if DependsOn(g, rank, from, m)
    then Roots(g, cache, rank, NonDep(g, rank, from, Elems(g.parents[m])))
    else {}
  }

  ghost predicate SideVia(g: Graph, cache: set<Node>, rank: map<Node, nat>, from: seq<Node>, n: Node, os: set<Node>)
    requires Dag(g, rank) && os <= g.children.Keys
  {
    exists m, o :: o in os && m in g.children && Explored(g, rank, from, m, o) && n in Local(g, cache, rank, from, m)
  }

  /** Everything the visits of the objects `os` add to the list. */
  ghost function Side(g: Graph, cache: set<Node>, rank: map<Node, nat>, from: seq<Node>, os: set<Node>): set<Node>
    requires Dag(g, rank) && os <= g.children.Keys
  {
    set n | n in g.children && SideVia(g, cache, rank, from, n, os)
  }

  lemma SideUnion(g: Graph, cache: set<Node>, rank: map<Node, nat>, from: seq<Node>, a: set<Node>, b: set<Node>)
    requires Dag(g, rank) && a <= g.children.Keys && b <= g.children.Keys
    ensures Side(g, cache, rank, from, a + b) == Side(g, cache, rank, from, a) + Side(g, cache, rank, from, b)
  {
  }

  lemma SideEmpty(g: Graph, cache: set<Node>, rank: map<Node, nat>, from: seq<Node>)
    requires Dag(g, rank)
    ensures Side(g, cache, rank, from, {}) == {}
  {
  }

  /** What the visit of one object adds, one level unfolded. */
  lemma SideOne(g: Graph, cache: set<Node>, rank: map<Node, nat>, from: seq<Node>, o: Node)
    requires Dag(g, rank) && o in g.children
    ensures Elems(g.parents[o]) <= g.children.Keys
    ensures o in from ==> Side(g, cache, rank, from, {o}) == {}
    ensures o !in from ==>
      Side(g, cache, rank, from, {o}) == Local(g, cache, rank, from, o) + Side(g, cache, rank, from, Elems(g.parents[o]))
  {
    var ps := Elems(g.parents[o]);
    forall p | p in ps ensures p in g.children {
      ParentBelow(g, rank, p, o);
    }
    if o !in from {
      forall n | n in g.children
        ensures SideVia(g, cache, rank, from, n, {o}) <==>
          (n in Local(g, cache, rank, from, o) || SideVia(g, cache, rank, from, n, ps))
      {
        if SideVia(g, cache, rank, from, n, {o}) {
          var m :| m in g.children && Explored(g, rank, from, m, o) && n in Local(g, cache, rank, from, m);
          if m != o {
            var p :| p in g.parents[o] && Explored(g, rank, from, m, p);
            assert p in ps;
          }
        }
        if n in Local(g, cache, rank, from, o) {
          assert Explored(g, rank, from, o, o);
        }
        if SideVia(g, cache, rank, from, n, ps) {
          var m, p :| p in ps && m in g.children && Explored(g, rank, from, m, p) && n in Local(g, cache, rank, from, m);
          assert Explored(g, rank, from, m, o);
        }
      }
      LocalNodes(g, cache, rank, from, o);
    }
  }

  lemma LocalNodes(g: Graph, cache: set<Node>, rank: map<Node, nat>, from: seq<Node>, m: Node)
    requires Dag(g, rank) && m in g.children
    ensures Local(g, cache, rank, from, m) <= g.children.Keys
  {
  }

  /** The non-dependent parents among the first `i + 1` of a parent list. */
  lemma NonDepSnoc(g: Graph, rank: map<Node, nat>, from: seq<Node>, ps: seq<Node>, i: nat)
    requires Ranked(g, rank) && i < |ps| && Elems(ps) <= g.children.Keys
    ensures Elems(ps[..i]) <= g.children.Keys
    ensures NonDep(g, rank, from, Elems(ps[..i + 1])) ==
      NonDep(g, rank, from, Elems(ps[..i])) + (if DependsOn(g, rank, from, ps[i]) then {} else {ps[i]})
  {
    ElemsSnoc(ps, i);
  }

  /** After `i` rounds of visit's first loop, `ret` has grown by what the first `i` parents add. */
  ghost predicate SideSoFar(g: Graph, cache: set<Node>, rank: map<Node, nat>, from: seq<Node>, ps: seq<Node>, i: nat,
                            ret: seq<Node>, ret': seq<Node>)
    requires Dag(g, rank)
  {
    && i <= |ps|
    && Elems(ps[..i]) <= g.children.Keys
    && Elems(ret') == Elems(ret) + Side(g, cache, rank, from, Elems(ps[..i]))
  }

  /** One round of visit's first loop keeps its account of what was added. */
  lemma SideSnoc(g: Graph, cache: set<Node>, rank: map<Node, nat>, from: seq<Node>, ps: seq<Node>, i: nat,
                 ret: seq<Node>, mid: seq<Node>, next: seq<Node>)
    requires Dag(g, rank) && i < |ps| && ps[i] in g.children
    requires SideSoFar(g, cache, rank, from, ps, i, ret, mid)
    requires Elems(next) == Elems(mid) + Side(g, cache, rank, from, {ps[i]})
    ensures SideSoFar(g, cache, rank, from, ps, i + 1, ret, next)
  {
    ElemsSnoc(ps, i);
    SideUnion(g, cache, rank, from, Elems(ps[..i]), {ps[i]});
  }

  /** One round of visit's first loop keeps `deps` in step with the parents. */
  lemma DepsSnoc(g: Graph, rank: map<Node, nat>, from: seq<Node>, ps: seq<Node>, deps: seq<bool>, v: bool)
    requires Ranked(g, rank) && |deps| < |ps| && forall p :: p in ps ==> p in g.children
    requires forall j :: 0 <= j < |deps| ==> (deps[j] <==> DependsOn(g, rank, from, ps[j]))
    requires v <==> DependsOn(g, rank, from, ps[|deps|])
    ensures forall j :: 0 <= j < |deps + [v]| ==> ((deps + [v])[j] <==> DependsOn(g, rank, from, ps[j]))
  {
  }

  /** Visit's final step: its own additions complete `Side( {o} )`. */
  lemma VisitDone(g: Graph, cache: set<Node>, rank: map<Node, nat>, from: seq<Node>, o: Node,
                  deps: seq<bool>, ret: seq<Node>, base: seq<Node>, ret': seq<Node>)
    requires Dag(g, rank) && o in g.children && o !in from
    requires Elems(g.parents[o]) <= g.children.Keys && |deps| == |g.parents[o]|
    requires forall j :: 0 <= j < |deps| ==> (deps[j] <==> DependsOn(g, rank, from, g.parents[o][j]))
    requires Elems(base) == Elems(ret) + Side(g, cache, rank, from, Elems(g.parents[o]))
    requires true in deps && false in deps ==>
      Elems(ret') == Elems(base) + Roots(g, cache, rank, NonDep(g, rank, from, Elems(g.parents[o])))
    requires !(true in deps && false in deps) ==> ret' == base
    ensures true in deps <==> DependsOn(g, rank, from, o)
    ensures Elems(ret') == Elems(ret) + Side(g, cache, rank, from, {o})
  {
    LocalIs(g, cache, rank, from, o, deps);
    SideOne(g, cache, rank, from, o);
  }

  /** What visit( o ) adds itself, read off the `deps` of its parents. */
  lemma LocalIs(g: Graph, cache: set<Node>, rank: map<Node, nat>, from: seq<Node>, o: Node, deps: seq<bool>)
    requires Dag(g, rank) && o in g.children && o !in from
    requires Elems(g.parents[o]) <= g.children.Keys && |deps| == |g.parents[o]|
    requires forall j :: 0 <= j < |deps| ==> (deps[j] <==> DependsOn(g, rank, from, g.parents[o][j]))
    ensures true in deps <==> DependsOn(g, rank, from, o)
    ensures Local(g, cache, rank, from, o) ==
      if true in deps && false in deps
      then Roots(g, cache, rank, NonDep(g, rank, from, Elems(g.parents[o])))
      else {}
  {
    DepsMeaning(g, rank, from, o, deps);
    RootsEmpty(g, cache, rank);
  }

  /** `deps` records which parents of `o` depend on `from`. */
  lemma DepsMeaning(g: Graph, rank: map<Node, nat>, from: seq<Node>, o: Node, deps: seq<bool>)
    requires Dag(g, rank) && o in g.children && o !in from
    requires Elems(g.parents[o]) <= g.children.Keys && |deps| == |g.parents[o]|
    requires forall j :: 0 <= j < |deps| ==> (deps[j] <==> DependsOn(g, rank, from, g.parents[o][j]))
    ensures true in deps <==> DependsOn(g, rank, from, o)
    ensures false !in deps ==> NonDep(g, rank, from, Elems(g.parents[o])) == {}
  {
    var ps := g.parents[o];
    DependsStep(g, rank, from, o);
    if DependsOn(g, rank, from, o) {
      var p :| p in ps && DependsOn(g, rank, from, p);
      var j :| 0 <= j < |ps| && ps[j] == p;
      assert deps[j];
    }
    if true in deps {
      var j :| 0 <= j < |deps| && deps[j];
      assert ps[j] in ps;
    }
    if false !in deps {
      forall p | p in Elems(ps) ensures DependsOn(g, rank, from, p) {
        var j :| 0 <= j < |ps| && ps[j] == p;
        assert deps[j];
      }
    }
  }

  /**
   * visit( o, from, ret ): whether `o` depends on `from`; on the way it
   * appends to `ret` the collected objects of the parents that do not
   * depend on `from` of every explored object that does.
   */
  method Visit(g: Graph, cache: set<Node>, o: Node, from: seq<Node>, ret: seq<Node>, ghost rank: map<Node, nat>)
    returns (b: bool, ret': seq<Node>)
    requires Dag(g, rank) && o in g.children
    ensures b <==> DependsOn(g, rank, from, o)
    ensures IsPrefix(ret, ret')
    ensures Elems(ret') == Elems(ret) + Side(g, cache, rank, from, {o})
    ensures NoDup(ret) ==> NoDup(ret')
    decreases rank[o], 1
  {
    if o in from {
      SideOne(g, cache, rank, from, o);
      DependsStep(g, rank, from, o);
      assert Elems(ret) + {} == Elems(ret);
      return true, ret;
    }
    var parents := g.parents[o];
    var deps, someDepend, allDepend;
    deps, someDepend, allDepend, ret' := VisitParents(g, cache, o, from, ret, rank);
    ghost var base := ret';
    if someDepend && !allDepend {
      ret' := AddNonDependent(g, cache, from, parents, deps, ret', rank);
      PrefixTrans(ret, base, ret');
    }
    VisitDone(g, cache, rank, from, o, deps, ret, base, ret');
    b := someDepend;
  }

  /**
   * The first loop of visit: visit every parent of `o` in turn, recording
   * in `deps` which of them depend on `from`.
   */
  method VisitParents(g: Graph, cache: set<Node>, o: Node, from: seq<Node>, ret: seq<Node>, ghost rank: map<Node, nat>)
    returns (deps: seq<bool>, someDepend: bool, allDepend: bool, ret': seq<Node>)
    requires Dag(g, rank) && o in g.children
    ensures Elems(g.parents[o]) <= g.children.Keys && |deps| == |g.parents[o]|
    ensures forall j :: 0 <= j < |deps| ==> (deps[j] <==> DependsOn(g, rank, from, g.parents[o][j]))
    ensures someDepend <==> true in deps
    ensures allDepend <==> false !in deps
    ensures IsPrefix(ret, ret') && (NoDup(ret) ==> NoDup(ret'))
    ensures Elems(ret') == Elems(ret) + Side(g, cache, rank, from, Elems(g.parents[o]))
    decreases rank[o], 0
  {
    var parents := g.parents[o];
    ParentsAreNodes(g, rank, o);
    deps := [];
    ret' := ret;
    SideEmpty(g, cache, rank, from);
    assert parents[..0] == [];
    var i := 0;
    while i < |parents|
      invariant 0 <= i <= |parents| && |deps| == i
      invariant forall j :: 0 <= j < i ==> (deps[j] <==> DependsOn(g, rank, from, parents[j]))
      invariant IsPrefix(ret, ret') && (NoDup(ret) ==> NoDup(ret'))
      invariant SideSoFar(g, cache, rank, from, parents, i, ret, ret')
    {
      ParentBelow(g, rank, parents[i], o);
      var v, next := Visit(g, cache, parents[i], from, ret', rank);
      DepsSnoc(g, rank, from, parents, deps, v);
      PrefixTrans(ret, ret', next);
      deps := deps + [v];
      SideSnoc(g, cache, rank, from, parents, i, ret, ret', next);
      ret' := next;
      i := i + 1;
    }
    assert parents[..|parents|] == parents;
    someDepend := true in deps;
    allDepend := false !in deps;
  }

  /**
   * The second loop of visit: the collected objects of every parent whose
   * `deps` entry is false, that is, of every parent not depending on `from`.
   */
  method AddNonDependent(g: Graph, cache: set<Node>, from: seq<Node>, parents: seq<Node>, deps: seq<bool>,
                         ret: seq<Node>, ghost rank: map<Node, nat>)
    returns (ret': seq<Node>)
    requires Dag(g, rank) && Elems(parents) <= g.children.Keys && |deps| == |parents|
    requires forall j :: 0 <= j < |parents| ==> (deps[j] <==> DependsOn(g, rank, from, parents[j]))
    ensures IsPrefix(ret, ret') && (NoDup(ret) ==> NoDup(ret'))
    ensures Elems(ret') == Elems(ret) + Roots(g, cache, rank, NonDep(g, rank, from, Elems(parents)))
  {
    ret' := ret;
    RootsEmpty(g, cache, rank);
    assert parents[..0] == [];
    for i := 0 to |deps|
      invariant Elems(parents[..i]) <= g.children.Keys
      invariant IsPrefix(ret, ret') && (NoDup(ret) ==> NoDup(ret'))
      invariant Elems(ret') == Elems(ret) + Roots(g, cache, rank, NonDep(g, rank, from, Elems(parents[..i])))
    {
      NonDepSnoc(g, rank, from, parents, i);
      RootsUnion(g, cache, rank, NonDep(g, rank, from, Elems(parents[..i])), {parents[i]});
      if !deps[i] {
        var next := AddNonCache(g, cache, parents[i], ret', rank);
        PrefixTrans(ret, ret', next);
        ret' := next;
      }
    }
    assert parents[..|parents|] == parents;
  }

  /**
   * sideOfTreePath( from, to ): the objects reported by visiting `to`,
   * listed once each.
   */
  method SideOfTreePath(g: Graph, cache: set<Node>, from: seq<Node>, to: Node, ghost rank: map<Node, nat>)
    returns (ret: seq<Node>)
    requires Dag(g, rank) && to in g.children
    ensures NoDup(ret)
    ensures Elems(ret) == Side(g, cache, rank, from, {to})
  {
    var _, r := Visit(g, cache, to, from, [], rank);
    ret := r;
  }

  /**
   * Each object on the side of the tree path is a non-cache ancestor of
   * `to` that does not depend on `from`, and it is collected from a
   * parent of an object on a path from `from` to `to`.
   */
  lemma SideMeaning(g: Graph, cache: set<Node>, rank: map<Node, nat>, from: seq<Node>, to: Node, n: Node)
    requires Dag(g, rank) && to in g.children && n in Side(g, cache, rank, from, {to})
    ensures n !in cache && Reaches(g, rank, n, to) && !DependsOn(g, rank, from, n)
  {
    var m, p := SideWitness(g, cache, rank, from, to, n);
    ViaCacheMeaning(g, cache, rank, n, p);
    ReachesChild(g, rank, n, p, m);
    ReachesTrans(g, rank, n, m, to);
    if DependsOn(g, rank, from, n) {
      var f :| f in from && f in g.children && Reaches(g, rank, f, n);
      ReachesTrans(g, rank, f, n, p);
      assert DependsOn(g, rank, from, p);
    }
  }

  /** A side object comes from a parent `p`, independent of `from`, of an object `m` on a path to `to`. */
  lemma SideWitness(g: Graph, cache: set<Node>, rank: map<Node, nat>, from: seq<Node>, to: Node, n: Node)
    returns (m: Node, p: Node)
    requires Dag(g, rank) && to in g.children && n in Side(g, cache, rank, from, {to})
    ensures m in g.children && Reaches(g, rank, m, to)
    ensures p in g.children && m in g.children[p] && !DependsOn(g, rank, from, p) && ViaCache(g, cache, rank, n, p)
  {
    m :| m in g.children && Explored(g, rank, from, m, to) && n in Local(g, cache, rank, from, m);
    ExploredReaches(g, rank, from, m, to);
    p := LocalWitness(g, cache, rank, from, m, n);
  }

  /** An object collected at `m` comes from a parent of `m` that is independent of `from`. */
  lemma LocalWitness(g: Graph, cache: set<Node>, rank: map<Node, nat>, from: seq<Node>, m: Node, n: Node)
    returns (p: Node)
    requires Dag(g, rank) && m in g.children && n in Local(g, cache, rank, from, m)
    ensures p in g.children && m in g.children[p] && !DependsOn(g, rank, from, p) && ViaCache(g, cache, rank, n, p)
  {
    RootsOne(g, cache, rank, m);
    p :| p in NonDep(g, rank, from, Elems(g.parents[m])) && ViaCache(g, cache, rank, n, p);
    assert p in Elems(g.parents[m]);
    ParentBelow(g, rank, p, m);
  }

  lemma {:induction false} ExploredReaches(g: Graph, rank: map<Node, nat>, from: seq<Node>, m: Node, o: Node)
    requires Dag(g, rank) && o in g.children && m in g.children && Explored(g, rank, from, m, o)
    ensures Reaches(g, rank, m, o)
    decreases rank[o]
  {
    if m == o {
      assert Reaches(g, rank, o, o);
    } else {
      var p :| p in g.parents[o] && Explored(g, rank, from, m, p);
      ParentBelow(g, rank, p, o);
      ExploredReaches(g, rank, from, m, p);
      ReachesChild(g, rank, m, p, o);
    }
  }
}
