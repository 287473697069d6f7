/**
 * The object dependency engine of misc/calcpaths.cc.
 *
 * Object calcers are nodes named by `nat` ids.  A `Graph` records, for every
 * node, the children and parents lists that ObjectCalcer::children() and
 * ObjectCalcer::parents() return.  The engine only ever runs over acyclic
 * graphs; acyclicity is witnessed by a ghost `rank` that grows along every
 * parent-to-child edge (a topological numbering).
 */
module CalcPaths {

  type Node = nat

  /** The children and parents list of every node. */
  datatype Graph = Graph(children: map<Node, seq<Node>>, parents: map<Node, seq<Node>>)

  /**
   * `rank` numbers the nodes so that every child is a node ranked strictly
   * after its parent: following child edges never comes back, so the graph
   * is acyclic.
   */
  ghost predicate Ranked(g: Graph, rank: map<Node, nat>) {
    && rank.Keys == g.children.Keys
    && (forall p, c :: p in g.children && c in g.children[p] ==> c in g.children && rank[p] < rank[c])
  }

  /** The parents lists are the children lists read backwards. */
  ghost predicate Mirrored(g: Graph) {
    && g.children.Keys == g.parents.Keys
    && (forall p, c :: p in g.children && c in g.children[p] ==> c in g.parents && p in g.parents[c])
    && (forall p, c :: c in g.parents && p in g.parents[c] ==> p in g.children && c in g.children[p])
  }

  /** An acyclic dependency graph whose parent and child lists agree. */
  ghost predicate Dag(g: Graph, rank: map<Node, nat>) {
    Ranked(g, rank) && Mirrored(g)
  }

  /** A strict upper bound of every rank. */
  ghost function Height(rank: map<Node, nat>): (h: nat)
    ensures forall n :: n in rank ==> rank[n] < h
    decreases rank.Keys
  {
    if rank == map[] then 0
    else
      var n :| n in rank;
      var rest := rank - {n};
      assert forall m :: m in rank && m != n ==> m in rest && rest[m] == rank[m];
      var h := Height(rest);
      if rank[n] < h then h else rank[n] + 1
  }

  /** `y` is reachable from `x` along zero or more child edges: `y` depends on `x`. */
  ghost predicate Reaches(g: Graph, rank: map<Node, nat>, x: Node, y: Node)
    requires Ranked(g, rank) && x in g.children
    decreases Height(rank) - rank[x]
  {
    x == y || exists c :: c in g.children[x] && Reaches(g, rank, c, y)
  }

  /** The descendants of `x`, `x` itself included. */
  ghost function Desc(g: Graph, rank: map<Node, nat>, x: Node): set<Node>
    requires Ranked(g, rank) && x in g.children
  {
    set y | y in g.children && Reaches(g, rank, x, y)
  }

  /** The ancestors of `x`, `x` itself included. */
  ghost function Anc(g: Graph, rank: map<Node, nat>, x: Node): set<Node>
    requires Ranked(g, rank) && x in g.children
  {
    set a | a in g.children && Reaches(g, rank, a, x)
  }

  /** `y` depends on some node of `s`. */
  ghost predicate ReachedFrom(g: Graph, rank: map<Node, nat>, s: set<Node>, y: Node)
    requires Ranked(g, rank) && s <= g.children.Keys
  {
    exists x :: x in s && Reaches(g, rank, x, y)
  }

  /** Some node of `s` depends on `a`. */
  ghost predicate ReachesInto(g: Graph, rank: map<Node, nat>, a: Node, s: set<Node>)
    requires Ranked(g, rank) && a in g.children
  {
    exists x :: x in s && Reaches(g, rank, a, x)
  }

  /** The descendants (themselves included) of a set of nodes. */
  ghost function DescOf(g: Graph, rank: map<Node, nat>, s: set<Node>): set<Node>
    requires Ranked(g, rank) && s <= g.children.Keys
  {
    set y | y in g.children && ReachedFrom(g, rank, s, y)
  }

  /** The ancestors (themselves included) of a set of nodes. */
  ghost function AncOf(g: Graph, rank: map<Node, nat>, s: set<Node>): set<Node>
    requires Ranked(g, rank) && s <= g.children.Keys
  {
    set a | a in g.children && ReachesInto(g, rank, a, s)
  }

  predicate NoDup(s: seq<Node>) {
    forall i, j :: 0 <= i < j < |s| ==> s[i] != s[j]
  }

  function Elems(s: seq<Node>): set<Node> {
    set n | n in s
  }

  /** `s` lists each node before all of its descendants that it also lists. */
  ghost predicate ParentsFirst(g: Graph, rank: map<Node, nat>, s: seq<Node>)
    requires Ranked(g, rank) && forall n :: n in s ==> n in g.children
  {
    forall a, b :: 0 <= a < |s| && 0 <= b < |s| && a != b && Reaches(g, rank, s[a], s[b]) ==> a < b
  }

  // ---------------------------------------------------------------------
  // Facts about reachability in a ranked graph.

  /** Only nodes are reached, and every node reached from `x` other than `x` is ranked after it. */
  lemma {:induction false} ReachesRank(g: Graph, rank: map<Node, nat>, x: Node, y: Node)
    requires Ranked(g, rank) && x in g.children && Reaches(g, rank, x, y)
    ensures y in g.children && rank[x] <= rank[y]
    ensures y != x ==> rank[x] < rank[y]
    decreases Height(rank) - rank[x]
  {
    if x != y {
      var c :| c in g.children[x] && Reaches(g, rank, c, y);
      ReachesRank(g, rank, c, y);
    }
  }

  /** Reachability is transitive. */
  lemma {:induction false} ReachesTrans(g: Graph, rank: map<Node, nat>, x: Node, y: Node, z: Node)
    requires Ranked(g, rank) && x in g.children && y in g.children
    requires Reaches(g, rank, x, y) && Reaches(g, rank, y, z)
    ensures Reaches(g, rank, x, z)
    decreases Height(rank) - rank[x]
  {
    if x != y {
      var c :| c in g.children[x] && Reaches(g, rank, c, y);
      ReachesTrans(g, rank, c, y, z);
    }
  }

  /** A child edge followed by a path is a path, and so is a path followed by a child edge. */
  lemma ReachesChild(g: Graph, rank: map<Node, nat>, x: Node, p: Node, y: Node)
    requires Ranked(g, rank) && x in g.children && p in g.children && y in g.children[p]
    requires Reaches(g, rank, x, p)
    ensures Reaches(g, rank, x, y)
  {
    assert Reaches(g, rank, y, y);
    assert Reaches(g, rank, p, y);
    ReachesTrans(g, rank, x, p, y);
  }

  /** A path from `x` to some other node `y` enters `y` through one of its parents. */
  lemma {:induction false} ReachesViaParent(g: Graph, rank: map<Node, nat>, x: Node, y: Node)
    requires Dag(g, rank) && x in g.children && Reaches(g, rank, x, y) && y != x
    ensures y in g.parents && exists p :: p in g.parents[y] && Reaches(g, rank, x, p)
    decreases Height(rank) - rank[x]
  {
    var c :| c in g.children[x] && Reaches(g, rank, c, y);
    if y == c {
      assert Reaches(g, rank, x, x);
    } else {
      ReachesViaParent(g, rank, c, y);
      var p :| p in g.parents[y] && Reaches(g, rank, c, p);
      ReachesChild(g, rank, x, x, c);
      ReachesTrans(g, rank, x, c, p);
    }
  }

  /** Two distinct nodes never reach each other: the graph has no cycle. */
  lemma Acyclic(g: Graph, rank: map<Node, nat>, x: Node, y: Node)
    requires Ranked(g, rank) && x in g.children && y in g.children
    requires Reaches(g, rank, x, y) && Reaches(g, rank, y, x)
    ensures x == y
  {
    ReachesRank(g, rank, x, y);
    ReachesRank(g, rank, y, x);
  }

  // ---------------------------------------------------------------------
  // calcPath( os ): depth-first post-order, reversed.

  /** Every child of a listed node is listed before it. */
  ghost predicate PostOrdered(g: Graph, all: seq<Node>)
    requires forall n :: n in all ==> n in g.children
  {
    forall i, c :: 0 <= i < |all| && c in g.children[all[i]] ==> c in all[..i]
  }

  /** The state localdfs threads through its calls: `visited` lists the entered nodes, `all` the finished ones. */
  ghost predicate DfsState(g: Graph, visited: seq<Node>, all: seq<Node>) {
    && (forall n :: n in visited ==> n in g.children)
    && (forall n :: n in all ==> n in visited)
    && NoDup(visited) && NoDup(all)
    && PostOrdered(g, all)
  }

  /** The nodes entered but not yet finished: the search stack. */
  ghost function Grey(visited: seq<Node>, all: seq<Node>): set<Node> {
    set n | n in visited && n !in all
  }

  ghost predicate IsPrefix(a: seq<Node>, b: seq<Node>) {
    |a| <= |b| && b[..|a|] == a
  }

  lemma PrefixIn(a: seq<Node>, b: seq<Node>)
    requires IsPrefix(a, b)
    ensures forall n :: n in a ==> n in b
  {
    forall n | n in a
      ensures n in b
    {
      var i :| 0 <= i < |a| && a[i] == n;
      assert b[i] == n;
    }
  }

  lemma PrefixTrans(a: seq<Node>, b: seq<Node>, c: seq<Node>)
    requires IsPrefix(a, b) && IsPrefix(b, c)
    ensures IsPrefix(a, c)
  {
    assert c[..|a|] == c[..|b|][..|a|];
  }

  /** Appending a node whose children are all listed keeps a list post-ordered. */
  lemma PostOrderedAppend(g: Graph, all: seq<Node>, obj: Node)
    requires (forall n :: n in all ==> n in g.children) && obj in g.children && PostOrdered(g, all)
    requires forall c :: c in g.children[obj] ==> c in all
    ensures PostOrdered(g, all + [obj])
  {
    var s := all + [obj];
    forall i, c | 0 <= i < |s| && c in g.children[s[i]]
      ensures c in s[..i]
    {
      if i < |all| {
        assert s[..i] == all[..i];
      } else {
        assert s[..i] == all;
      }
    }
  }

  /** The state inside localdfs's loop: `obj` entered on top of the caller's state, the caller's stack plus `obj` still grey. */
  ghost predicate Searching(g: Graph, visited: seq<Node>, all: seq<Node>, obj: Node, v: seq<Node>, a: seq<Node>) {
    DfsState(g, v, a) && IsPrefix(visited + [obj], v) && IsPrefix(all, a) && Grey(v, a) == Grey(visited, all) + {obj}
  }

  /** A child of `obj` not yet entered may be searched: every grey node ranks before it. */
  lemma EnterChild(g: Graph, rank: map<Node, nat>, visited: seq<Node>, all: seq<Node>, obj: Node,
                   v: seq<Node>, a: seq<Node>, c: Node)
    requires Ranked(g, rank) && obj in g.children && c in g.children[obj]
    requires Searching(g, visited, all, obj, v, a)
    requires forall n :: n in Grey(visited, all) ==> rank[n] < rank[obj]
    ensures c in g.children && DfsState(g, v, a)
    ensures forall n :: n in Grey(v, a) ==> rank[n] < rank[c]
  {
  }

  /** A child already entered is finished: it cannot be grey, since every grey node ranks before `obj`. */
  lemma ChildAlreadyFinished(g: Graph, rank: map<Node, nat>, visited: seq<Node>, all: seq<Node>, obj: Node,
                             v: seq<Node>, a: seq<Node>, c: Node)
    requires Ranked(g, rank) && obj in g.children && c in g.children[obj]
    requires Searching(g, visited, all, obj, v, a) && c in v
    requires forall n :: n in Grey(visited, all) ==> rank[n] < rank[obj]
    ensures c in a
  {
    assert c !in Grey(v, a);
  }

  /** The search of one child of `obj` keeps the invariant of localdfs's loop over the children. */
  lemma SearchedChild(g: Graph, visited: seq<Node>, all: seq<Node>, obj: Node,
                      v: seq<Node>, a: seq<Node>, c: Node, v': seq<Node>, a': seq<Node>)
    requires IsPrefix(visited + [obj], v) && IsPrefix(all, a) && Grey(v, a) == Grey(visited, all) + {obj}
    requires IsPrefix(v + [c], v') && IsPrefix(a, a') && |a'| > 0 && a'[|a'| - 1] == c && Grey(v', a') == Grey(v, a)
    ensures IsPrefix(visited + [obj], v') && IsPrefix(all, a') && Grey(v', a') == Grey(visited, all) + {obj}
    ensures c in a' && forall n :: n in a ==> n in a'
  {
    assert IsPrefix(v, v + [c]);
    PrefixTrans(v, v + [c], v');
    PrefixTrans(visited + [obj], v, v');
    PrefixTrans(all, a, a');
    PrefixIn(a, a');
  }

  /** Once every child of `obj` is finished, appending `obj` finishes it. */
  lemma FinishedNode(g: Graph, visited: seq<Node>, all: seq<Node>, obj: Node, v: seq<Node>, a: seq<Node>)
    requires DfsState(g, v, a) && obj in g.children && obj !in visited
    requires IsPrefix(visited + [obj], v) && IsPrefix(all, a) && Grey(v, a) == Grey(visited, all) + {obj}
    requires forall c :: c in g.children[obj] ==> c in a
    ensures DfsState(g, v, a + [obj])
    ensures IsPrefix(all, a + [obj]) && Grey(v, a + [obj]) == Grey(visited, all)
  {
    assert obj in Grey(v, a);
    PostOrderedAppend(g, a, obj);
    assert IsPrefix(a, a + [obj]);
    PrefixTrans(all, a, a + [obj]);
    assert Grey(v, a + [obj]) == Grey(v, a) - {obj};
  }

  /** One more child is finished: the children before it stay finished as the list grows. */
  lemma ChildrenFinished(o: seq<Node>, k: nat, a: seq<Node>, a': seq<Node>)
    requires k < |o| && (forall j :: 0 <= j < k ==> o[j] in a)
    requires (forall n :: n in a ==> n in a') && o[k] in a'
    ensures forall j :: 0 <= j < k + 1 ==> o[j] in a'
  {
  }

  /** Entering `obj` shrinks the set of nodes still to visit: the measure of localdfs's recursion. */
  lemma FewerUnvisited(g: Graph, visited: seq<Node>, v: seq<Node>, obj: Node)
    requires obj in g.children && obj !in visited && obj in v
    requires forall n :: n in visited ==> n in v
    ensures (set n | n in g.children && n !in v) < (set n | n in g.children && n !in visited)
  {
    var before := set n | n in g.children && n !in visited;
    var after := set n | n in g.children && n !in v;
    assert obj in before && obj !in after;
  }

  /**
   * localdfs: marks `obj` visited, searches each of its children not yet
   * visited, then appends `obj` to `all`.  The grey nodes are the callers on
   * the search stack; they all rank before `obj`, so none of them is a child
   * of `obj`, and every child is finished when `obj` is.
   */
  method LocalDfs(g: Graph, obj: Node, visited: seq<Node>, all: seq<Node>, ghost rank: map<Node, nat>)
    returns (visited': seq<Node>, all': seq<Node>)
    requires Ranked(g, rank) && obj in g.children && obj !in visited
    requires DfsState(g, visited, all)
    requires forall n :: n in Grey(visited, all) ==> rank[n] < rank[obj]
    ensures DfsState(g, visited', all')
    ensures IsPrefix(visited + [obj], visited')
    ensures IsPrefix(all, all') && |all'| > 0 && all'[|all'| - 1] == obj
    ensures Grey(visited', all') == Grey(visited, all)
    decreases set n | n in g.children && n !in visited
  {
    visited' := visited + [obj];
    all' := all;
    var o := g.children[obj];
    for k := 0 to |o|
      invariant Searching(g, visited, all, obj, visited', all')
      invariant forall j :: 0 <= j < k ==> o[j] in all'
    {
      if o[k] !in visited' {
        PrefixIn(visited + [obj], visited');
        FewerUnvisited(g, visited, visited', obj);
        EnterChild(g, rank, visited, all, obj, visited', all', o[k]);
        var v, a := LocalDfs(g, o[k], visited', all', rank);
        SearchedChild(g, visited, all, obj, visited', all', o[k], v, a);
        ChildrenFinished(o, k, all', a);
        visited', all' := v, a;
      } else {
        ChildAlreadyFinished(g, rank, visited, all, obj, visited', all', o[k]);
        ChildrenFinished(o, k, all', all');
      }
    }
    FinishedNode(g, visited, all, obj, visited', all');
    all' := all' + [obj];
  }

  /** In a post-ordered list, whatever a listed node reaches is listed no later than it. */
  lemma {:induction false} PostOrderedReach(g: Graph, rank: map<Node, nat>, all: seq<Node>, i: nat, y: Node)
    returns (m: nat)
    requires Ranked(g, rank) && (forall n :: n in all ==> n in g.children) && PostOrdered(g, all)
    requires i < |all| && Reaches(g, rank, all[i], y)
    ensures m <= i && all[m] == y
    decreases Height(rank) - rank[all[i]]
  {
    if y == all[i] {
      m := i;
    } else {
      var c :| c in g.children[all[i]] && Reaches(g, rank, c, y);
      assert c in all[..i];
      var k :| 0 <= k < i && all[k] == c;
      m := PostOrderedReach(g, rank, all, k, y);
    }
  }

  /** In a post-ordered list without duplicates, a node that reaches another is listed after it. */
  lemma PostOrderedIndex(g: Graph, rank: map<Node, nat>, all: seq<Node>, i: nat, j: nat)
    requires Ranked(g, rank) && (forall n :: n in all ==> n in g.children) && PostOrdered(g, all) && NoDup(all)
    requires i < |all| && j < |all| && Reaches(g, rank, all[i], all[j])
    ensures j <= i
  {
    var m := PostOrderedReach(g, rank, all, i, all[j]);
  }

  /**
   * calcPath( os ): orders the distinct nodes of `os` so that each comes
   * before everything that depends on it: a depth-first search from each
   * node of `os` not yet visited, then the reversed finishing order filtered
   * to the nodes of `os`.
   */
  method CalcPath(g: Graph, os: seq<Node>, ghost rank: map<Node, nat>) returns (ret: seq<Node>)
    requires Ranked(g, rank) && forall n :: n in os ==> n in g.children
    ensures NoDup(ret)
    ensures forall n :: n in ret <==> n in os
    ensures ParentsFirst(g, rank, ret)
  {
    var visited: seq<Node> := [];
    var all: seq<Node> := [];
    for k := 0 to |os|
      invariant DfsState(g, visited, all)
      invariant Grey(visited, all) == {}
      invariant forall j :: 0 <= j < k ==> os[j] in all
    {
      if os[k] !in visited {
        var v, a := LocalDfs(g, os[k], visited, all, rank);
        PrefixIn(all, a);
        visited, all := v, a;
      } else {
        assert os[k] !in Grey(visited, all);
      }
    }

    ret := [];
    ghost var pos: seq<nat> := [];
    var k := |all|;
    while k > 0
      invariant 0 <= k <= |all|
      invariant |pos| == |ret|
      invariant forall a :: 0 <= a < |ret| ==> k <= pos[a] < |all| && all[pos[a]] == ret[a]
      invariant forall a, b :: 0 <= a < b < |ret| ==> pos[a] > pos[b]
      invariant forall n :: n in ret <==> n in all[k..] && n in os
    {
      k := k - 1;
      if all[k] in os {
        ret := ret + [all[k]];
        pos := pos + [k];
      }
    }
    assert all[0..] == all;
    forall a, b | 0 <= a < |ret| && 0 <= b < |ret| && a != b && Reaches(g, rank, ret[a], ret[b])
      ensures a < b
    {
      PostOrderedIndex(g, rank, all, pos[a], pos[b]);
    }
  }

  // ---------------------------------------------------------------------
  // calcPath( from, to ): the nodes lying between `from` and `to`.

  /** The nodes other than `to` that depend on some node of `o` and on which `to` depends. */
  ghost function Branch(g: Graph, rank: map<Node, nat>, o: seq<Node>, to: Node): set<Node>
    requires Ranked(g, rank) && to in g.children && forall n :: n in o ==> n in g.children
  {
    set n | n in g.children && n != to && Reaches(g, rank, n, to) && exists x :: x in o && Reaches(g, rank, x, n)
  }

  /** The nodes strictly between some node of `from` and `to` on a path of child edges. */
  ghost function Between(g: Graph, rank: map<Node, nat>, from: seq<Node>, to: Node): set<Node>
    requires Ranked(g, rank) && to in g.children && forall n :: n in from ==> n in g.children
  {
    set n | n in g.children && n != to && Reaches(g, rank, n, to) && exists f :: f in from && f != n && Reaches(g, rank, f, n)
  }

  /**
   * Within `s`, every node comes after each of its descendants that also lie
   * on a path down to `to`: addBranch appends a node only after the branch
   * below it.
   */
  ghost predicate BranchOrdered(g: Graph, rank: map<Node, nat>, s: seq<Node>, to: Node)
    requires Ranked(g, rank) && forall n :: n in s ==> n in g.children
  {
    forall q, d ::
      (0 <= q < |s| && d in g.children && d != s[q] && d != to && Reaches(g, rank, s[q], d) && Reaches(g, rank, d, to))
      ==> d in s[..q]
  }

  lemma UnionAssoc(a: set<Node>, b: set<Node>, c: set<Node>)
    ensures a + (b + c) == (a + b) + c
  {
  }

  lemma Absorb(s: set<Node>, t: set<Node>)
    requires s <= t
    ensures t == s + t
  {
  }

  /** One round of getAllParents: the current level is already in `ret`, and the next one is among its own ancestors. */
  lemma LevelUp(ret: set<Node>, cur: set<Node>, next: set<Node>, above: set<Node>)
    requires cur <= ret && next <= above
    ensures ret + (cur + above) == (ret + next) + above
    ensures next <= ret + next
  {
  }

  lemma RemoveOne(cur: set<Node>, rest: set<Node>, i: Node)
    requires i in rest && rest <= cur
    ensures cur - (rest - {i}) == (cur - rest) + {i}
  {
  }

  lemma RemoveAll(g: Graph, cur: set<Node>)
    ensures cur - cur == {} && ParentsOf(g, cur - cur) == {} && ChildrenOf(g, cur - cur) == {}
  {
  }

  lemma RemoveNone(cur: set<Node>)
    ensures cur - {} == cur
  {
  }

  lemma ElemsConcat(a: seq<Node>, b: seq<Node>)
    ensures Elems(a + b) == Elems(a) + Elems(b)
  {
    assert forall n :: n in a + b <==> n in a || n in b;
  }

  lemma BranchOrderedConcat(g: Graph, rank: map<Node, nat>, a: seq<Node>, b: seq<Node>, to: Node)
    requires Ranked(g, rank) && (forall n :: n in a ==> n in g.children) && (forall n :: n in b ==> n in g.children)
    requires BranchOrdered(g, rank, a, to) && BranchOrdered(g, rank, b, to)
    ensures forall n :: n in a + b ==> n in g.children
    ensures BranchOrdered(g, rank, a + b, to)
  {
    var s := a + b;
    forall q, d | 0 <= q < |s| && d in g.children && d != s[q] && d != to
                  && Reaches(g, rank, s[q], d) && Reaches(g, rank, d, to)
      ensures d in s[..q]
    {
      if q < |a| {
        assert s[..q] == a[..q];
      } else {
        assert s[q] == b[q - |a|];
        assert d in b[..q - |a|];
        assert s[..q] == a + b[..q - |a|];
      }
    }
  }

  /** The branch through the nodes `o[..k+1]` adds the branch through `o[k]` to the one through `o[..k]`. */
  lemma BranchCons(g: Graph, rank: map<Node, nat>, o: seq<Node>, k: nat, to: Node)
    requires Ranked(g, rank) && to in g.children && (forall n :: n in o ==> n in g.children) && k < |o|
    ensures Branch(g, rank, o[..k + 1], to) == Branch(g, rank, o[..k], to) + Branch(g, rank, [o[k]], to)
  {
    assert o[..k + 1] == o[..k] + [o[k]];
  }

  /** No node other than `to` both depends on `to` and reaches `to`: the branch through `to` is empty. */
  lemma BranchOfTo(g: Graph, rank: map<Node, nat>, to: Node)
    requires Ranked(g, rank) && to in g.children
    ensures Branch(g, rank, [to], to) == {}
  {
    forall n | n in Branch(g, rank, [to], to)
      ensures false
    {
      Acyclic(g, rank, n, to);
    }
  }

  /** The branch through a node `i` other than `to`: the branch through its children, plus `i` when it reaches `to`. */
  lemma BranchOfNode(g: Graph, rank: map<Node, nat>, i: Node, to: Node)
    requires Ranked(g, rank) && to in g.children && i in g.children && i != to
    ensures Branch(g, rank, [i], to) ==
              Branch(g, rank, g.children[i], to) + (if Reaches(g, rank, i, to) then {i} else {})
  {
    forall n | n in g.children
      ensures n in Branch(g, rank, [i], to) <==> n in Branch(g, rank, g.children[i], to) || (n == i && Reaches(g, rank, i, to))
    {
      InBranchOfNode(g, rank, i, to, n);
    }
  }

  lemma InBranchOfNode(g: Graph, rank: map<Node, nat>, i: Node, to: Node, n: Node)
    requires Ranked(g, rank) && to in g.children && i in g.children && i != to && n in g.children
    ensures n in Branch(g, rank, [i], to) <==> n in Branch(g, rank, g.children[i], to) || (n == i && Reaches(g, rank, i, to))
  {
    if n != i && Reaches(g, rank, i, n) {
      var c :| c in g.children[i] && Reaches(g, rank, c, n);
    }
    if n in Branch(g, rank, g.children[i], to) {
      var c :| c in g.children[i] && Reaches(g, rank, c, n);
      assert Reaches(g, rank, i, n);
    }
    if n == i && Reaches(g, rank, i, to) {
      assert Reaches(g, rank, i, i);
    }
    assert i in [i];
  }

  /** The branch below the children of `f` is the set of nodes strictly between `f` and `to`. */
  lemma BranchBelow(g: Graph, rank: map<Node, nat>, f: Node, to: Node)
    requires Ranked(g, rank) && to in g.children && f in g.children
    ensures Branch(g, rank, g.children[f], to) == Between(g, rank, [f], to)
  {
    forall n | n in Branch(g, rank, g.children[f], to)
      ensures n in Between(g, rank, [f], to)
    {
      var c :| c in g.children[f] && Reaches(g, rank, c, n);
      ReachesRank(g, rank, c, n);
      assert Reaches(g, rank, f, n);
    }
    forall n | n in Between(g, rank, [f], to)
      ensures n in Branch(g, rank, g.children[f], to)
    {
      var c :| c in g.children[f] && Reaches(g, rank, c, n);
    }
  }

  lemma BetweenCons(g: Graph, rank: map<Node, nat>, from: seq<Node>, k: nat, to: Node)
    requires Ranked(g, rank) && to in g.children && (forall n :: n in from ==> n in g.children) && k < |from|
    ensures Between(g, rank, from[..k + 1], to) == Between(g, rank, from[..k], to) + Between(g, rank, [from[k]], to)
  {
    assert from[..k + 1] == from[..k] + [from[k]];
  }

  /** Some node of `o` reaches `to`. */
  ghost predicate AnyReaches(g: Graph, rank: map<Node, nat>, o: seq<Node>, to: Node)
    requires Ranked(g, rank) && forall n :: n in o ==> n in g.children
  {
    exists x :: x in o && Reaches(g, rank, x, to)
  }

  lemma AnyReachesCons(g: Graph, rank: map<Node, nat>, o: seq<Node>, k: nat, to: Node)
    requires Ranked(g, rank) && (forall n :: n in o ==> n in g.children) && k < |o|
    ensures AnyReaches(g, rank, o[..k + 1], to) <==> AnyReaches(g, rank, o[..k], to) || Reaches(g, rank, o[k], to)
  {
    assert o[..k + 1] == o[..k] + [o[k]];
    if Reaches(g, rank, o[k], to) {
      assert o[k] in o[..k + 1];
    }
  }

  /** A node other than `to` reaches `to` exactly when one of its children does. */
  lemma ChildrenReach(g: Graph, rank: map<Node, nat>, i: Node, to: Node)
    requires Ranked(g, rank) && i in g.children && i != to
    ensures Reaches(g, rank, i, to) <==> AnyReaches(g, rank, g.children[i], to)
  {
  }

  /**
   * addBranch: for each node of `o` other than `to`, searches the branch
   * below its children and appends the node after that branch when the
   * branch reaches `to`.  Returns whether any node of `o` reaches `to`.
   * `lo` is a lower bound of the ranks in `o`, for termination.
   */
  method AddBranch(g: Graph, o: seq<Node>, to: Node, ret: seq<Node>, ghost rank: map<Node, nat>, ghost lo: nat)
    returns (rb: bool, ret': seq<Node>)
    requires Ranked(g, rank) && to in g.children
    requires forall n :: n in o ==> n in g.children && lo <= rank[n]
    ensures rb <==> AnyReaches(g, rank, o, to)
    ensures IsPrefix(ret, ret')
    ensures forall n :: n in ret'[|ret|..] ==> n in g.children
    ensures Elems(ret'[|ret|..]) == Branch(g, rank, o, to)
    ensures BranchOrdered(g, rank, ret'[|ret|..], to)
    decreases Height(rank) - lo
  {
    rb := false;
    var added: seq<Node> := [];
    for k := 0 to |o|
      invariant forall n :: n in added ==> n in g.children
      invariant rb <==> AnyReaches(g, rank, o[..k], to)
      invariant Elems(added) == Branch(g, rank, o[..k], to)
      invariant BranchOrdered(g, rank, added, to)
    {
      var i := o[k];
      BranchCons(g, rank, o, k, to);
      AnyReachesCons(g, rank, o, k, to);
      if i == to {
        BranchOfTo(g, rank, to);
        assert Reaches(g, rank, to, to);
        rb := true;
      } else {
        var b, r := AddBranch(g, g.children[i], to, ret + added, rank, rank[i] + 1);
        var below := r[|ret + added|..];
        ChildrenReach(g, rank, i, to);
        BranchOfNode(g, rank, i, to);
        if b {
          rb := true;
          BranchTop(g, rank, i, to, below);
          ElemsConcat(below, [i]);
          below := below + [i];
        }
        ElemsConcat(added, below);
        BranchOrderedConcat(g, rank, added, below, to);
        added := added + below;
      }
    }
    ret' := ret + added;
    assert ret'[|ret|..] == added;
  }

  /** Appending `i` after the branch below it keeps the branch ordered. */
  lemma BranchTop(g: Graph, rank: map<Node, nat>, i: Node, to: Node, below: seq<Node>)
    requires Ranked(g, rank) && to in g.children && i in g.children && i != to
    requires forall n :: n in below ==> n in g.children
    requires Elems(below) == Branch(g, rank, g.children[i], to) && BranchOrdered(g, rank, below, to)
    ensures BranchOrdered(g, rank, below + [i], to)
  {
    var s := below + [i];
    forall q, d | 0 <= q < |s| && d in g.children && d != s[q] && d != to
                  && Reaches(g, rank, s[q], d) && Reaches(g, rank, d, to)
      ensures d in s[..q]
    {
      if q < |below| {
        assert s[..q] == below[..q];
      } else {
        var c :| c in g.children[i] && Reaches(g, rank, c, d);
        assert d in Elems(below);
        assert s[..q] == below;
      }
    }
  }

  function Reverse(s: seq<Node>): (r: seq<Node>)
    ensures |r| == |s| && forall i :: 0 <= i < |s| ==> r[i] == s[|s| - 1 - i]
  {
    if s == [] then [] else Reverse(s[1..]) + [s[0]]
  }

  /**
   * calcPath( from, to ): the nodes strictly between the nodes of `from`
   * and `to`, each once, every node before the nodes that depend on it.
   * addBranch collects the branch below the children of each node of
   * `from`; duplicates are dropped, keeping first occurrences, and the
   * result is reversed.
   */
  method CalcPathBetween(g: Graph, from: seq<Node>, to: Node, ghost rank: map<Node, nat>) returns (ret: seq<Node>)
    requires Ranked(g, rank) && to in g.children && forall n :: n in from ==> n in g.children
    ensures NoDup(ret) && to !in ret
    ensures forall n :: n in ret <==> n in Between(g, rank, from, to)
    ensures ParentsFirst(g, rank, ret)
  {
    var all: seq<Node> := [];
    for k := 0 to |from|
      invariant forall n :: n in all ==> n in g.children
      invariant Elems(all) == Between(g, rank, from[..k], to)
      invariant BranchOrdered(g, rank, all, to)
    {
      var f := from[k];
      var _, a := AddBranch(g, g.children[f], to, all, rank, rank[f] + 1);
      BranchBelow(g, rank, f, to);
      BetweenCons(g, rank, from, k, to);
      var below := a[|all|..];
      ElemsConcat(all, below);
      BranchOrderedConcat(g, rank, all, below, to);
      all := all + below;
    }
    assert from[..|from|] == from;

    assert forall n :: n in all ==> n in Elems(all);
    var firsts := DropRepeats(all);
    ReachedFirst(g, rank, all, to, firsts);
    ret := Reverse(firsts);
    ReverseOrder(g, rank, firsts);
  }

  /** The nodes of `all` in order of first occurrence, with `at` the index of each first occurrence. */
  ghost predicate FirstOccurrences(all: seq<Node>, firsts: seq<Node>, at: seq<nat>) {
    && |at| == |firsts|
    && (forall a :: 0 <= a < |firsts| ==> at[a] < |all| && all[at[a]] == firsts[a] && firsts[a] !in all[..at[a]])
    && (forall a, b :: 0 <= a < b < |firsts| ==> at[a] < at[b])
  }

  /** The copy loop of calcPath( from, to ) that keeps only the first occurrence of each node. */
  method DropRepeats(all: seq<Node>) returns (firsts: seq<Node>)
    ensures NoDup(firsts) && forall n :: n in firsts <==> n in all
    ensures exists at :: FirstOccurrences(all, firsts, at)
  {
    firsts := [];
    ghost var at: seq<nat> := [];
    for k := 0 to |all|
      invariant NoDup(firsts)
      invariant forall n :: n in firsts <==> n in all[..k]
      invariant FirstOccurrences(all[..k], firsts, at)
    {
      assert all[..k + 1] == all[..k] + [all[k]];
      assert forall a :: 0 <= a < |firsts| ==> all[..k + 1][..at[a]] == all[..k][..at[a]];
      if all[k] !in firsts {
        firsts := firsts + [all[k]];
        at := at + [k];
      }
    }
    assert all[..|all|] == all;
  }

  /** In the first occurrences of a branch-ordered list, a node comes after every other node it reaches. */
  lemma ReachedFirst(g: Graph, rank: map<Node, nat>, all: seq<Node>, to: Node, firsts: seq<Node>)
    requires Ranked(g, rank) && to in g.children && (forall n :: n in all ==> n in g.children)
    requires BranchOrdered(g, rank, all, to)
    requires forall n :: n in all ==> n != to && Reaches(g, rank, n, to)
    requires NoDup(firsts) && (forall n :: n in firsts <==> n in all)
    requires exists at :: FirstOccurrences(all, firsts, at)
    ensures forall x, y :: 0 <= x < |firsts| && 0 <= y < |firsts| && x != y && Reaches(g, rank, firsts[x], firsts[y]) ==> y < x
  {
    var at :| FirstOccurrences(all, firsts, at);
    forall x, y | 0 <= x < |firsts| && 0 <= y < |firsts| && x != y && Reaches(g, rank, firsts[x], firsts[y])
      ensures y < x
    {
      assert firsts[y] in all;
      assert firsts[y] in all[..at[x]];
      var m :| 0 <= m < at[x] && all[m] == firsts[y];
      assert at[y] <= m;
    }
  }

  /** Reversing a list whose nodes come after the nodes they reach puts every node first. */
  lemma ReverseOrder(g: Graph, rank: map<Node, nat>, s: seq<Node>)
    requires Ranked(g, rank) && (forall n :: n in s ==> n in g.children) && NoDup(s)
    requires forall x, y :: 0 <= x < |s| && 0 <= y < |s| && x != y && Reaches(g, rank, s[x], s[y]) ==> y < x
    ensures forall n :: n in Reverse(s) <==> n in s
    ensures NoDup(Reverse(s)) && ParentsFirst(g, rank, Reverse(s))
  {
    var r := Reverse(s);
    var last := |s| - 1;
    forall n
      ensures n in r <==> n in s
    {
      if n in r {
        var i :| 0 <= i < |r| && r[i] == n;
        assert s[last - i] == n;
      }
      if n in s {
        var i :| 0 <= i < |s| && s[i] == n;
        assert r[last - i] == n;
      }
    }
    forall a, b | 0 <= a < |r| && 0 <= b < |r| && a != b && Reaches(g, rank, r[a], r[b])
      ensures a < b
    {
      assert r[a] == s[last - a] && r[b] == s[last - b];
    }
  }

  // ---------------------------------------------------------------------
  // getAllChildren, getAllParents, isChild: closures computed level by level.

  /** The children of the nodes of `s`. */
  ghost function ChildrenOf(g: Graph, s: set<Node>): set<Node> {
    set x, c | x in s && x in g.children && c in g.children[x] :: c
  }

  /** The parents of the nodes of `s`. */
  ghost function ParentsOf(g: Graph, s: set<Node>): set<Node> {
    set x, p | x in s && x in g.parents && p in g.parents[x] :: p
  }

  lemma ChildrenOfAdd(g: Graph, s: set<Node>, i: Node)
    requires i in g.children
    ensures ChildrenOf(g, s + {i}) == ChildrenOf(g, s) + Elems(g.children[i])
  {
  }

  lemma ParentsOfNodes(g: Graph, s: set<Node>)
    requires Mirrored(g)
    ensures ParentsOf(g, s) <= g.children.Keys
  {
    forall p | p in ParentsOf(g, s)
      ensures p in g.children
    {
      var x :| x in s && x in g.parents && p in g.parents[x];
    }
  }

  lemma ChildrenOfNodes(g: Graph, rank: map<Node, nat>, s: set<Node>)
    requires Ranked(g, rank)
    ensures ChildrenOf(g, s) <= g.children.Keys
  {
    forall c | c in ChildrenOf(g, s)
      ensures c in g.children
    {
      var x :| x in s && x in g.children && c in g.children[x];
    }
  }

  lemma ParentsOfAdd(g: Graph, s: set<Node>, i: Node)
    requires i in g.parents
    ensures ParentsOf(g, s + {i}) == ParentsOf(g, s) + Elems(g.parents[i])
  {
  }

  /** The descendants of a set are the set itself and the descendants of its children. */
  lemma DescOfStep(g: Graph, rank: map<Node, nat>, s: set<Node>)
    requires Ranked(g, rank) && s <= g.children.Keys
    ensures ChildrenOf(g, s) <= g.children.Keys
    ensures DescOf(g, rank, s) == s + DescOf(g, rank, ChildrenOf(g, s))
  {
    ChildrenOfNodes(g, rank, s);
    forall y | y in g.children
      ensures y in DescOf(g, rank, s) <==> y in s || y in DescOf(g, rank, ChildrenOf(g, s))
    {
      DescOfStepAt(g, rank, s, y);
    }
  }

  lemma DescOfStepAt(g: Graph, rank: map<Node, nat>, s: set<Node>, y: Node)
    requires Ranked(g, rank) && s <= g.children.Keys && y in g.children
    ensures ChildrenOf(g, s) <= g.children.Keys
    ensures y in DescOf(g, rank, s) <==> y in s || y in DescOf(g, rank, ChildrenOf(g, s))
  {
    ChildrenOfNodes(g, rank, s);
    var next := ChildrenOf(g, s);
    if y in DescOf(g, rank, s) && y !in s {
      var x :| x in s && Reaches(g, rank, x, y);
      var c :| c in g.children[x] && Reaches(g, rank, c, y);
      assert c in next;
    }
    if y in DescOf(g, rank, next) {
      var c :| c in next && Reaches(g, rank, c, y);
      var x :| x in s && x in g.children && c in g.children[x];
      assert Reaches(g, rank, x, y);
    }
    if y in s {
      assert Reaches(g, rank, y, y);
    }
  }

  lemma AncOfEmpty(g: Graph, rank: map<Node, nat>)
    requires Ranked(g, rank)
    ensures AncOf(g, rank, {}) == {}
  {
  }

  /** A set is among its own ancestors. */
  lemma AncOfContains(g: Graph, rank: map<Node, nat>, s: set<Node>)
    requires Ranked(g, rank) && s <= g.children.Keys
    ensures s <= AncOf(g, rank, s)
  {
    forall a | a in s
      ensures a in AncOf(g, rank, s)
    {
      assert Reaches(g, rank, a, a);
    }
  }

  /** The parents of a level rank below it, so getAllParents's rounds stay under the height. */
  /** Every node of `s` ranks below `bound`. */
  ghost predicate RanksBelow(g: Graph, rank: map<Node, nat>, s: set<Node>, bound: int)
    requires Ranked(g, rank) && s <= g.children.Keys
  {
    forall n :: n in s ==> rank[n] < bound
  }

  lemma RoundUp(g: Graph, rank: map<Node, nat>, cur: set<Node>, bound: int)
    requires Dag(g, rank) && cur <= g.children.Keys && RanksBelow(g, rank, cur, bound)
    ensures ParentsOf(g, cur) <= g.children.Keys
    ensures RanksBelow(g, rank, ParentsOf(g, cur), bound - 1)
    ensures cur != {} ==> bound > 0
  {
    ParentsOfNodes(g, cur);
    if cur != {} {
      var n :| n in cur;
    }
    forall p | p in ParentsOf(g, cur)
      ensures rank[p] < bound - 1
    {
      var x :| x in cur && x in g.parents && p in g.parents[x];
    }
  }

  /** The ancestors of a set are the set itself and the ancestors of its parents. */
  lemma AncOfStep(g: Graph, rank: map<Node, nat>, s: set<Node>)
    requires Dag(g, rank) && s <= g.children.Keys
    ensures ParentsOf(g, s) <= g.children.Keys
    ensures AncOf(g, rank, s) == s + AncOf(g, rank, ParentsOf(g, s))
  {
    ParentsOfNodes(g, s);
    forall a | a in g.children
      ensures a in AncOf(g, rank, s) <==> a in s || a in AncOf(g, rank, ParentsOf(g, s))
    {
      AncOfStepAt(g, rank, s, a);
    }
  }

  lemma AncOfStepAt(g: Graph, rank: map<Node, nat>, s: set<Node>, a: Node)
    requires Dag(g, rank) && s <= g.children.Keys && a in g.children
    ensures ParentsOf(g, s) <= g.children.Keys
    ensures a in AncOf(g, rank, s) <==> a in s || a in AncOf(g, rank, ParentsOf(g, s))
  {
    ParentsOfNodes(g, s);
    var next := ParentsOf(g, s);
    if a in AncOf(g, rank, s) && a !in s {
      var x :| x in s && Reaches(g, rank, a, x);
      ReachesViaParent(g, rank, a, x);
      var p :| p in g.parents[x] && Reaches(g, rank, a, p);
      assert p in next;
    }
    if a in AncOf(g, rank, next) {
      var p :| p in next && Reaches(g, rank, a, p);
      var x :| x in s && x in g.parents && p in g.parents[x];
      ReachesChild(g, rank, a, p, x);
    }
    if a in s {
      assert Reaches(g, rank, a, a);
    }
  }

  /**
   * getAllChildren( objs ): the nodes of `objs` and everything that depends
   * on them.  Each round records the current level and moves to its
   * children; ranks grow along child edges, so the rounds end.
   */
  method GetAllChildren(g: Graph, objs: seq<Node>, ghost rank: map<Node, nat>) returns (ret: set<Node>)
    requires Ranked(g, rank) && forall n :: n in objs ==> n in g.children
    ensures ret == DescOf(g, rank, Elems(objs))
  {
    ret := {};
    var cur := Elems(objs);
    ghost var round: nat := 0;
    ghost var height := Height(rank);
    while cur != {}
      invariant cur <= g.children.Keys
      invariant DescOf(g, rank, Elems(objs)) == ret + DescOf(g, rank, cur)
      invariant forall n :: n in cur ==> round <= rank[n] < height
      decreases height - round
    {
      ghost var ret0 := ret;
      var next: set<Node> := {};
      var rest := cur;
      RemoveAll(g, cur);
      while rest != {}
        invariant rest <= cur
        invariant ret == ret0 + (cur - rest)
        invariant next == ChildrenOf(g, cur - rest)
        decreases rest
      {
        var i :| i in rest;
        ChildrenOfAdd(g, cur - rest, i);
        RemoveOne(cur, rest, i);
        ret := ret + {i};
        next := next + Elems(g.children[i]);
        rest := rest - {i};
      }
      RemoveNone(cur);
      DescOfStep(g, rank, cur);
      UnionAssoc(ret0, cur, DescOf(g, rank, next));
      cur := next;
      round := round + 1;
    }
  }

  /** One round of getAllParents: gathers the parents of every node of the current level. */
  method ParentsOfLevel(g: Graph, cur: set<Node>) returns (next: set<Node>)
    requires cur <= g.parents.Keys
    ensures next == ParentsOf(g, cur)
  {
    next := {};
    var rest := cur;
    RemoveAll(g, cur);
    while rest != {}
      invariant rest <= cur
      invariant next == ParentsOf(g, cur - rest)
      decreases rest
    {
      var i :| i in rest;
      ParentsOfAdd(g, cur - rest, i);
      RemoveOne(cur, rest, i);
      next := next + Elems(g.parents[i]);
      rest := rest - {i};
    }
    RemoveNone(cur);
  }

  /** One round of getAllParents keeps its loop invariant. */
  lemma ParentsRound(g: Graph, rank: map<Node, nat>, target: set<Node>, ret: set<Node>, cur: set<Node>, bound: int)
    requires Dag(g, rank) && cur <= ret && cur <= g.children.Keys
    requires target == ret + AncOf(g, rank, cur) && RanksBelow(g, rank, cur, bound)
    ensures ParentsOf(g, cur) <= ret + ParentsOf(g, cur) && ParentsOf(g, cur) <= g.children.Keys
    ensures target == (ret + ParentsOf(g, cur)) + AncOf(g, rank, ParentsOf(g, cur))
    ensures RanksBelow(g, rank, ParentsOf(g, cur), bound - 1)
    ensures cur != {} ==> bound > 0
  {
    var next := ParentsOf(g, cur);
    AncOfStep(g, rank, cur);
    AncOfContains(g, rank, next);
    LevelUp(ret, cur, next, AncOf(g, rank, next));
    RoundUp(g, rank, cur, bound);
  }

  /**
   * getAllParents( objs ): the nodes of `objs` and everything they depend
   * on, each once.  Each round moves to the parents of the current level;
   * ranks shrink along parent edges, so the rounds end.  The source returns
   * the set's elements in pointer order, which the model leaves open by
   * returning the set.
   */
  method GetAllParents(g: Graph, objs: seq<Node>, ghost rank: map<Node, nat>) returns (ret: set<Node>)
    requires Dag(g, rank) && forall n :: n in objs ==> n in g.children
    ensures ret == AncOf(g, rank, Elems(objs))
  {
    ret := Elems(objs);
    var cur := ret;
    ghost var round: nat := 0;
    ghost var height := Height(rank);
    AncOfContains(g, rank, cur);
    Absorb(ret, AncOf(g, rank, cur));
    while cur != {}
      invariant cur <= ret && cur <= g.children.Keys
      invariant AncOf(g, rank, Elems(objs)) == ret + AncOf(g, rank, cur)
      invariant RanksBelow(g, rank, cur, height - round)
      decreases height - round
    {
      var next := ParentsOfLevel(g, cur);
      ParentsRound(g, rank, AncOf(g, rank, Elems(objs)), ret, cur, height - round);
      ret := ret + next;
      cur := next;
      round := round + 1;
    }
  }

  /** The nodes `o` depends on, `o` itself excluded. */
  ghost function ProperAnc(g: Graph, rank: map<Node, nat>, o: Node): set<Node>
    requires Ranked(g, rank) && o in g.children
  {
    set a | a in g.children && a != o && Reaches(g, rank, a, o)
  }

  /** The ancestors of the parents of `o` are exactly the proper ancestors of `o`. */
  lemma ProperAncestors(g: Graph, rank: map<Node, nat>, o: Node)
    requires Dag(g, rank) && o in g.children
    ensures Elems(g.parents[o]) <= g.children.Keys
    ensures AncOf(g, rank, Elems(g.parents[o])) == ProperAnc(g, rank, o)
  {
    var ps := Elems(g.parents[o]);
    forall a | a in g.children
      ensures a in AncOf(g, rank, ps) <==> a in ProperAnc(g, rank, o)
    {
      if a in AncOf(g, rank, ps) {
        var p :| p in ps && Reaches(g, rank, a, p);
        ReachesChild(g, rank, a, p, o);
        ReachesRank(g, rank, a, p);
      }
      if a in ProperAnc(g, rank, o) {
        ReachesViaParent(g, rank, a, o);
        var p :| p in g.parents[o] && Reaches(g, rank, a, p);
        assert p in ps;
      }
    }
  }

  /** One round of isChild keeps its loop invariant. */
  lemma IsChildRound(g: Graph, rank: map<Node, nat>, up: set<Node>, seen: set<Node>, cur: set<Node>, bound: int)
    requires Dag(g, rank) && cur <= g.children.Keys
    requires up == seen + AncOf(g, rank, cur) && RanksBelow(g, rank, cur, bound)
    ensures ParentsOf(g, cur) <= g.children.Keys
    ensures up == (seen + cur) + AncOf(g, rank, ParentsOf(g, cur))
    ensures RanksBelow(g, rank, ParentsOf(g, cur), bound - 1)
    ensures cur != {} ==> bound > 0
  {
    AncOfStep(g, rank, cur);
    UnionAssoc(seen, cur, AncOf(g, rank, ParentsOf(g, cur)));
    RoundUp(g, rank, cur, bound);
  }

  /**
   * isChild( o, os ): whether `o` depends, through one or more parent
   * edges, on some node of `os`.  Each round checks the current level
   * against `os`, then moves to its parents.
   */
  method IsChild(g: Graph, o: Node, os: seq<Node>, ghost rank: map<Node, nat>) returns (b: bool)
    requires Dag(g, rank) && o in g.children
    ensures b <==> exists a :: a in os && a in ProperAnc(g, rank, o)
  {
    ProperAncestors(g, rank, o);
    ghost var up := AncOf(g, rank, Elems(g.parents[o]));
    var cur := Elems(g.parents[o]);
    ghost var seen: set<Node> := {};
    ghost var round: nat := 0;
    ghost var height := Height(rank);
    UnionAssoc({}, {}, up);
    while cur != {}
      invariant cur <= g.children.Keys
      invariant up == seen + AncOf(g, rank, cur)
      invariant forall n :: n in seen ==> n !in os
      invariant RanksBelow(g, rank, cur, height - round)
      decreases height - round
    {
      var next: set<Node> := {};
      var rest := cur;
      RemoveAll(g, cur);
      while rest != {}
        invariant rest <= cur
        invariant next == ParentsOf(g, cur - rest)
        invariant forall n :: n in cur - rest ==> n !in os
        decreases rest
      {
        var i :| i in rest;
        if i in os {
          AncOfContains(g, rank, cur);
          return true;
        }
        ParentsOfAdd(g, cur - rest, i);
        RemoveOne(cur, rest, i);
        next := next + Elems(g.parents[i]);
        rest := rest - {i};
      }
      RemoveNone(cur);
      IsChildRound(g, rank, up, seen, cur, height - round);
      seen := seen + cur;
      cur := next;
      round := round + 1;
    }
    AncOfEmpty(g, rank);
    return false;
  }
}
