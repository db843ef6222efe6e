/** The graph builder's operations on the graph, and exactly when each of them
    keeps the graph one that the scheduler can run. */
module Builder {
  import opened Graphs

  // ---------- operations ----------

  /** The start and the end node, not yet connected. */
  const BLANK: Graph := [Node("__start__", Normal, [], []), Node("__end__", Normal, [], [])]

  function WithNode(g: Graph, name: string, kind: Kind): Graph {
    g + [Node(name, kind, [], [])]
  }

  function WithEdge(g: Graph, a: nat, b: nat): (r: Graph)
    requires a < |g| && b < |g|
    ensures |r| == |g|
  {
    var g1 := g[a := g[a].(next := g[a].next + [b])];
    g1[b := g1[b].(prev := g1[b].prev + [a])]
  }

  /** An entry edge is recorded at the start node only. */
  function WithEntry(g: Graph, n: nat): (r: Graph)
    requires |g| > START && n < |g|
    ensures |r| == |g|
  {
    g[START := g[START].(next := g[START].next + [n])]
  }

  /** A branch of conditional `c` is a virtual node carrying the tag, put between `c` and `to`. */
  function WithBranch(g: Graph, c: nat, to: nat, tag: string): (r: Graph)
    requires c < |g| && to < |g|
    ensures |r| == |g| + 1
  {
    WithEdge(WithEdge(WithNode(g, tag, Virtual), c, |g|), |g|, to)
  }

  // ---------- the two directions of the edges ----------

  /** Each edge is recorded as often at its source as at its target; an
      entry edge at the start node alone. */
  ghost predicate Balanced(g: Graph) {
    forall a, b :: 0 <= a < |g| && 0 <= b < |g| ==>
      && (a != START ==> multiset(g[a].next)[b] == multiset(g[b].prev)[a])
      && multiset(g[a].next)[b] >= multiset(g[b].prev)[a]
  }

  lemma BalancedLinked(g: Graph)
    requires InRange(g) && Balanced(g)
    ensures Linked(g)
  {
    forall b, k | 0 <= b < |g| && 0 <= k < |g[b].prev|
      ensures Edge(g, g[b].prev[k], b)
    {
      var a := g[b].prev[k];
      assert a in multiset(g[b].prev);
      assert multiset(g[a].next)[b] >= multiset(g[b].prev)[a];
      assert b in multiset(g[a].next);
    }
    forall a: nat, b: nat | Edge(g, a, b)
      ensures a == START || a in g[b].prev
    {
      if a != START {
        assert b in multiset(g[a].next);
        assert multiset(g[a].next)[b] == multiset(g[b].prev)[a];
        assert a in multiset(g[b].prev);
      }
    }
  }

  lemma AppendCount(s: seq<nat>, x: nat, y: nat)
    ensures multiset(s + [x])[y] == multiset(s)[y] + if x == y then 1 else 0
  {
  }

  lemma WithEdgeCounts(g: Graph, a: nat, b: nat, x: nat, y: nat)
    requires a < |g| && b < |g| && x < |g| && y < |g|
    ensures var r := WithEdge(g, a, b);
            var more := if x == a && y == b then 1 else 0;
            && multiset(r[x].next)[y] == multiset(g[x].next)[y] + more
            && multiset(r[y].prev)[x] == multiset(g[y].prev)[x] + more
  {
    var r := WithEdge(g, a, b);
    assert r[x].next == if x == a then g[x].next + [b] else g[x].next;
    assert r[y].prev == if y == b then g[y].prev + [a] else g[y].prev;
    AppendCount(g[x].next, b, y);
    AppendCount(g[y].prev, a, x);
  }

  lemma WithEdgeBalanced(g: Graph, a: nat, b: nat)
    requires a < |g| && b < |g| && Balanced(g)
    ensures Balanced(WithEdge(g, a, b))
  {
    var r := WithEdge(g, a, b);
    forall x, y | 0 <= x < |r| && 0 <= y < |r|
      ensures (x != START ==> multiset(r[x].next)[y] == multiset(r[y].prev)[x])
      ensures multiset(r[x].next)[y] >= multiset(r[y].prev)[x]
    {
      WithEdgeCounts(g, a, b, x, y);
    }
  }

  lemma WithEntryBalanced(g: Graph, n: nat)
    requires |g| > START && n < |g| && Balanced(g)
    ensures Balanced(WithEntry(g, n))
  {
    var r := WithEntry(g, n);
    forall x, y | 0 <= x < |r| && 0 <= y < |r|
      ensures (x != START ==> multiset(r[x].next)[y] == multiset(r[y].prev)[x])
      ensures multiset(r[x].next)[y] >= multiset(r[y].prev)[x]
    {
      assert r[y].prev == g[y].prev;
      assert multiset(g[x].next)[y] >= multiset(g[y].prev)[x];
    }
  }

  lemma WithNodeBalanced(g: Graph, name: string, kind: Kind)
    requires InRange(g) && Balanced(g)
    ensures Balanced(WithNode(g, name, kind))
  {
    var r := WithNode(g, name, kind);
    forall x, y | 0 <= x < |r| && 0 <= y < |r|
      ensures (x != START ==> multiset(r[x].next)[y] == multiset(r[y].prev)[x])
      ensures multiset(r[x].next)[y] >= multiset(r[y].prev)[x]
    {
      if x < |g| && y < |g| {
        assert r[x] == g[x] && r[y] == g[y];
      } else {
        assert y == |g| && x < |g| ==> |g| !in multiset(g[x].next);
        assert x == |g| && y < |g| ==> |g| !in multiset(g[y].prev);
      }
    }
  }

  // ---------- acyclicity ----------

  /** `r` has the edges of `g` and one more, from `a` to `b`. */
  ghost predicate OneMoreEdge(g: Graph, r: Graph, a: nat, b: nat) {
    && |r| == |g| && a < |g| && b < |g|
    && forall x: nat, y: nat :: Edge(r, x, y) <==> Edge(g, x, y) || (x == a && y == b)
  }

  lemma PathKept(g: Graph, r: Graph, x: nat, y: nat)
    requires forall u: nat, v: nat :: Edge(g, u, v) ==> Edge(r, u, v)
    requires Reaches(g, x, y)
    ensures Reaches(r, x, y)
  {
    var p :| PathFromTo(g, p, x, y) && |p| >= 2;
    assert PathFromTo(r, p, x, y);
  }

  /** A numbering for the larger graph: what `b` leads to is moved past everything else. */
  ghost function Shifted(g: Graph, b: nat): (s: seq<nat>)
    ensures |s| == |g|
    ensures forall n :: 0 <= n < |g| ==>
              s[n] == Rank(g, n) + if n == b || Reaches(g, b, n) then |g| + 1 else 0
  {
    seq(|g|, n requires 0 <= n < |g| => Rank(g, n) + if n == b || Reaches(g, b, n) then |g| + 1 else 0)
  }

  /** An edge keeps the graph acyclic exactly when it closes no path. */
  lemma AcyclicWithEdge(g: Graph, r: Graph, a: nat, b: nat)
    requires OneMoreEdge(g, r, a, b)
    ensures Acyclic(r) <==> Acyclic(g) && a != b && !Reaches(g, b, a)
  {
    if Acyclic(r) {
      forall n | 0 <= n < |g|
        ensures !Reaches(g, n, n)
      {
        if Reaches(g, n, n) { PathKept(g, r, n, n); }
      }
      EdgeReaches(r, a, b);
      if Reaches(g, b, a) {
        PathKept(g, r, b, a);
        ReachesTransitive(r, a, b, a);
      }
    }
    if Acyclic(g) && a != b && !Reaches(g, b, a) {
      var s := Shifted(g, b);
      forall x: nat, y: nat | Edge(r, x, y)
        ensures s[x] < s[y]
      {
        if Edge(g, x, y) {
          EdgeRank(g, x, y);
          EdgeReaches(g, x, y);
          if Reaches(g, b, x) {
            ReachesTransitive(g, b, x, y);
          }
        } else {
          RankBound(g, a);
        }
      }
      assert Ranked(r, s);
      AcyclicIffRanked(r);
    }
  }

  lemma WithEdgeEdges(g: Graph, a: nat, b: nat)
    requires InRange(g) && a < |g| && b < |g|
    ensures InRange(WithEdge(g, a, b)) && OneMoreEdge(g, WithEdge(g, a, b), a, b)
  {
    var r := WithEdge(g, a, b);
    forall x: nat, y: nat
      ensures Edge(r, x, y) <==> Edge(g, x, y) || (x == a && y == b)
    {
      if x < |g| {
        assert r[x].next == if x == a then g[x].next + [b] else g[x].next;
      }
    }
  }

  lemma WithEntryEdges(g: Graph, n: nat)
    requires InRange(g) && |g| > START && n < |g|
    ensures InRange(WithEntry(g, n)) && OneMoreEdge(g, WithEntry(g, n), START, n)
  {
    var r := WithEntry(g, n);
    forall x: nat, y: nat
      ensures Edge(r, x, y) <==> Edge(g, x, y) || (x == START && y == n)
    {
      if x < |g| {
        assert r[x].next == if x == START then g[x].next + [n] else g[x].next;
      }
    }
  }

  lemma WithNodeEdges(g: Graph, name: string, kind: Kind)
    requires InRange(g)
    ensures var r := WithNode(g, name, kind);
            InRange(r) && forall x: nat, y: nat :: Edge(r, x, y) <==> Edge(g, x, y)
  {
    var r := WithNode(g, name, kind);
    forall x: nat, y: nat
      ensures Edge(r, x, y) <==> Edge(g, x, y)
    {
      if x < |g| {
        assert r[x] == g[x];
      }
    }
  }

  lemma SameEdgesReach(g: Graph, r: Graph, x: nat, y: nat)
    requires forall u: nat, v: nat :: Edge(r, u, v) <==> Edge(g, u, v)
    ensures Reaches(r, x, y) <==> Reaches(g, x, y)
  {
    if Reaches(g, x, y) { PathKept(g, r, x, y); }
    if Reaches(r, x, y) { PathKept(r, g, x, y); }
  }

  lemma WithNodeAcyclic(g: Graph, name: string, kind: Kind)
    requires InRange(g)
    ensures Acyclic(WithNode(g, name, kind)) <==> Acyclic(g)
  {
    var r := WithNode(g, name, kind);
    WithNodeEdges(g, name, kind);
    forall n: nat
      ensures Reaches(r, n, n) <==> Reaches(g, n, n)
    {
      SameEdgesReach(g, r, n, n);
    }
    if Reaches(g, |g|, |g|) {
      var m := ReachesFirstEdge(g, |g|, |g|);
    }
  }

  // ---------- which calls keep the graph runnable ----------

  lemma WithEdgeKinds(g: Graph, a: nat, b: nat, n: nat)
    requires a < |g| && b < |g| && n < |g|
    ensures var r := WithEdge(g, a, b);
            && r[n].name == g[n].name && r[n].kind == g[n].kind
            && r[n].next == (if n == a then g[n].next + [b] else g[n].next)
            && r[n].prev == (if n == b then g[n].prev + [a] else g[n].prev)
  {
  }

  /** `r` adds to `g` no branch, and touches none. */
  ghost predicate KeepsBranches(g: Graph, r: Graph) {
    && 2 <= |g| <= |r|
    && (forall n :: 0 <= n < |g| ==>
          && r[n].kind == g[n].kind
          && (g[n].kind == Conditional ==> r[n].next == g[n].next)
          && (g[n].kind == Virtual ==> r[n].prev == g[n].prev))
    && (forall n :: |g| <= n < |r| ==> r[n].kind != Virtual && (r[n].kind == Conditional ==> r[n].next == []))
    && (forall m :: m in r[START].next ==> m in g[START].next || (m < |r| && r[m].kind != Virtual))
  }

  lemma KeepsBranching(g: Graph, r: Graph)
    requires WellFormed(g) && KeepsBranches(g, r)
    ensures Branching(r)
  {
    forall c, k | 0 <= c < |r| && r[c].kind == Conditional && 0 <= k < |r[c].next|
      ensures r[c].next[k] < |r| && r[r[c].next[k]].kind == Virtual
    {
      assert c < |g| && r[c].next == g[c].next;
    }
    forall c, k, l | 0 <= c < |r| && r[c].kind == Conditional && 0 <= k < l < |r[c].next|
      ensures r[c].next[k] != r[c].next[l]
    {
      assert c < |g| && r[c].next == g[c].next;
    }
    forall v | 0 <= v < |r| && r[v].kind == Virtual
      ensures |r[v].prev| == 1 && r[v].prev[0] < |r| && r[r[v].prev[0]].kind == Conditional && v !in r[START].next
    {
      assert v < |g| && r[v].prev == g[v].prev;
      assert v !in g[START].next;
    }
  }

  lemma WithEdgeBranching(g: Graph, a: nat, b: nat)
    requires WellFormed(g) && a < |g| && b < |g|
    ensures Branching(WithEdge(g, a, b)) <==> g[a].kind != Conditional && g[b].kind != Virtual
  {
    var r := WithEdge(g, a, b);
    WithEdgeKinds(g, a, b, a);
    WithEdgeKinds(g, a, b, b);
    if g[b].kind == Virtual {
      assert |r[b].prev| == 2;
    } else if g[a].kind == Conditional {
      assert r[a].next[|g[a].next|] == b;
    } else {
      forall n | 0 <= n < |g|
        ensures r[n].kind == g[n].kind
        ensures g[n].kind == Conditional ==> r[n].next == g[n].next
        ensures g[n].kind == Virtual ==> r[n].prev == g[n].prev
      {
        WithEdgeKinds(g, a, b, n);
      }
      WithEdgeKinds(g, a, b, START);
      assert KeepsBranches(g, r);
      KeepsBranching(g, r);
    }
  }

  /** An ordinary edge keeps a graph runnable exactly when it closes no path, does not lead
      into the start or into another's branch, and does not leave a conditional. */
  lemma WithEdgeWellFormed(g: Graph, a: nat, b: nat)
    requires WellFormed(g) && Balanced(g) && a < |g| && b < |g|
    ensures Balanced(WithEdge(g, a, b))
    ensures WellFormed(WithEdge(g, a, b)) <==>
              && g[a].kind != Conditional && g[b].kind != Virtual
              && b != START && a != b && !Reaches(g, b, a)
  {
    var r := WithEdge(g, a, b);
    WithEdgeBalanced(g, a, b);
    WithEdgeEdges(g, a, b);
    BalancedLinked(r);
    AcyclicWithEdge(g, r, a, b);
    WithEdgeBranching(g, a, b);
    WithEdgeKinds(g, a, b, START);
    WithEdgeKinds(g, a, b, END);
  }

  lemma WithEntryBranching(g: Graph, n: nat)
    requires WellFormed(g) && n < |g|
    ensures Branching(WithEntry(g, n)) <==> g[n].kind != Virtual
  {
    var r := WithEntry(g, n);
    assert r[START].next == g[START].next + [n] && r[START].next[|g[START].next|] == n;
    if g[n].kind != Virtual {
      assert KeepsBranches(g, r);
      KeepsBranching(g, r);
    } else {
      assert r[n].kind == Virtual && n in r[START].next;
    }
  }

  lemma NothingBeforeStart(g: Graph, n: nat)
    requires WellFormed(g)
    ensures !Reaches(g, n, START)
  {
    if Reaches(g, n, START) {
      var m := ReachesLastEdge(g, n, START);
      NotIntoStart(g, m);
    }
  }

  /** An entry edge does so exactly when its node is neither the start itself nor a branch. */
  lemma WithEntryWellFormed(g: Graph, n: nat)
    requires WellFormed(g) && Balanced(g) && n < |g|
    ensures Balanced(WithEntry(g, n))
    ensures WellFormed(WithEntry(g, n)) <==> n != START && g[n].kind != Virtual
  {
    var r := WithEntry(g, n);
    WithEntryBalanced(g, n);
    WithEntryEdges(g, n);
    BalancedLinked(r);
    AcyclicWithEdge(g, r, START, n);
    NothingBeforeStart(g, n);
    WithEntryBranching(g, n);
  }

  lemma WithNodeWellFormed(g: Graph, name: string, kind: Kind)
    requires WellFormed(g) && Balanced(g) && kind != Virtual
    ensures WellFormed(WithNode(g, name, kind)) && Balanced(WithNode(g, name, kind))
  {
    var r := WithNode(g, name, kind);
    WithNodeBalanced(g, name, kind);
    WithNodeEdges(g, name, kind);
    WithNodeAcyclic(g, name, kind);
    BalancedLinked(r);
    assert r[START] == g[START] && r[END] == g[END];
    KeepsBranching(g, r);
  }

  lemma BlankWellFormed()
    ensures WellFormed(BLANK) && Balanced(BLANK)
  {
    assert Ranked(BLANK, [0, 0]);
    AcyclicIffRanked(BLANK);
    forall n | 0 <= n < |BLANK|
      ensures BLANK[n].next == [] && BLANK[n].prev == [] && BLANK[n].kind == Normal
    {
    }
  }

  // ---------- branches ----------

  /** Into a node that leads nowhere, one more edge opens no way to any other node. */
  lemma DeadEnd(g: Graph, r: Graph, a: nat, b: nat, x: nat, y: nat)
    requires OneMoreEdge(g, r, a, b) && Reaches(r, x, y) && y != b
    requires forall z: nat :: !Edge(r, b, z)
    ensures Reaches(g, x, y)
  {
    var p :| PathFromTo(r, p, x, y) && |p| >= 2;
    forall i | 0 <= i < |p| - 1
      ensures Edge(g, p[i], p[i + 1])
    {
      assert Edge(r, p[i], p[i + 1]);
      assert i + 1 < |p| - 1 ==> Edge(r, p[i + 1], p[i + 1 + 1]);
    }
    assert PathFromTo(g, p, x, y);
  }

  lemma WithBranchAcyclic(g: Graph, c: nat, to: nat, tag: string)
    requires InRange(g) && c < |g| && to < |g|
    ensures Acyclic(WithBranch(g, c, to, tag)) <==> Acyclic(g) && to != c && !Reaches(g, to, c)
  {
    var v := |g|;
    var g1 := WithNode(g, tag, Virtual);
    var g2 := WithEdge(g1, c, v);
    var r := WithEdge(g2, v, to);
    WithNodeEdges(g, tag, Virtual);
    WithNodeAcyclic(g, tag, Virtual);
    WithEdgeEdges(g1, c, v);
    AcyclicWithEdge(g1, g2, c, v);
    WithEdgeEdges(g2, v, to);
    AcyclicWithEdge(g2, r, v, to);
    forall z: nat
      ensures !Edge(g1, v, z) && !Edge(g2, v, z) && !Edge(g1, z, v)
    {
    }
    if Reaches(g1, v, c) {
      var m := ReachesFirstEdge(g1, v, c);
      assert false;
    }
    if to == c || Reaches(g, to, c) {
      EdgeReaches(g2, c, v);
      if to != c {
        PathKept(g, g2, to, c);
        ReachesTransitive(g2, to, c, v);
      }
    } else if Reaches(g2, to, v) {
      var m := ReachesLastEdge(g2, to, v);
      DeadEnd(g1, g2, c, v, to, c);
      SameEdgesReach(g, g1, to, c);
      assert false;
    }
  }

  lemma WithBranchNodes(g: Graph, c: nat, to: nat, tag: string, n: nat)
    requires c < |g| && to < |g| && n <= |g|
    ensures var r := WithBranch(g, c, to, tag);
            && (n == |g| ==> r[n] == Node(tag, Virtual, [c], [to]))
            && (n < |g| ==>
                  && r[n].kind == g[n].kind && r[n].name == g[n].name
                  && r[n].next == (if n == c then g[n].next + [|g|] else g[n].next)
                  && r[n].prev == (if n == to then g[n].prev + [|g|] else g[n].prev))
  {
  }

  /** The branches of every conditional are still virtual nodes, each of them once. */
  lemma WithBranchConditionals(g: Graph, c: nat, to: nat, tag: string, d: nat)
    requires WellFormed(g) && c < |g| && to < |g| && g[c].kind == Conditional
    requires d <= |g| && WithBranch(g, c, to, tag)[d].kind == Conditional
    ensures var r := WithBranch(g, c, to, tag);
            && (forall k :: 0 <= k < |r[d].next| ==> r[d].next[k] < |r| && r[r[d].next[k]].kind == Virtual)
            && (forall k, l :: 0 <= k < l < |r[d].next| ==> r[d].next[k] != r[d].next[l])
  {
    var r := WithBranch(g, c, to, tag);
    WithBranchNodes(g, c, to, tag, d);
    WithBranchNodes(g, c, to, tag, |g|);
    forall k | 0 <= k < |r[d].next|
      ensures r[d].next[k] < |r| && r[r[d].next[k]].kind == Virtual
    {
      if k < |g[d].next| {
        WithBranchNodes(g, c, to, tag, g[d].next[k]);
      }
    }
  }

  /** A virtual node, old or new, still belongs to one conditional and is no entry. */
  lemma WithBranchVirtuals(g: Graph, c: nat, to: nat, tag: string, v: nat)
    requires WellFormed(g) && c < |g| && to < |g| && g[c].kind == Conditional && g[to].kind != Virtual
    requires v <= |g| && WithBranch(g, c, to, tag)[v].kind == Virtual
    ensures var r := WithBranch(g, c, to, tag);
            |r[v].prev| == 1 && r[v].prev[0] < |r| && r[r[v].prev[0]].kind == Conditional && v !in r[START].next
  {
    WithBranchNodes(g, c, to, tag, v);
    WithBranchNodes(g, c, to, tag, START);
    if v < |g| {
      assert |g[v].prev| == 1 && v !in g[START].next;
      WithBranchNodes(g, c, to, tag, g[v].prev[0]);
    } else {
      WithBranchNodes(g, c, to, tag, c);
      assert forall m :: m in g[START].next ==> m < |g|;
    }
  }

  lemma WithBranchBranching(g: Graph, c: nat, to: nat, tag: string)
    requires WellFormed(g) && c < |g| && to < |g| && g[c].kind == Conditional
    ensures Branching(WithBranch(g, c, to, tag)) <==> g[to].kind != Virtual
  {
    var r := WithBranch(g, c, to, tag);
    if g[to].kind == Virtual {
      WithBranchNodes(g, c, to, tag, to);
      assert |r[to].prev| == 2;
    } else {
      forall d: nat | d < |r|
        ensures r[d].kind == Conditional ==>
                  && (forall k :: 0 <= k < |r[d].next| ==> r[d].next[k] < |r| && r[r[d].next[k]].kind == Virtual)
                  && (forall k, l :: 0 <= k < l < |r[d].next| ==> r[d].next[k] != r[d].next[l])
        ensures r[d].kind == Virtual ==>
                  |r[d].prev| == 1 && r[d].prev[0] < |r| && r[r[d].prev[0]].kind == Conditional && d !in r[START].next
      {
        if r[d].kind == Conditional {
          WithBranchConditionals(g, c, to, tag, d);
        } else if r[d].kind == Virtual {
          WithBranchVirtuals(g, c, to, tag, d);
        }
      }
    }
  }

  lemma WithBranchBalanced(g: Graph, c: nat, to: nat, tag: string)
    requires InRange(g) && Balanced(g) && c < |g| && to < |g|
    ensures InRange(WithBranch(g, c, to, tag)) && Balanced(WithBranch(g, c, to, tag))
  {
    var v := |g|;
    var g1 := WithNode(g, tag, Virtual);
    var g2 := WithEdge(g1, c, v);
    WithNodeBalanced(g, tag, Virtual);
    WithNodeEdges(g, tag, Virtual);
    WithEdgeBalanced(g1, c, v);
    WithEdgeEdges(g1, c, v);
    WithEdgeBalanced(g2, v, to);
    WithEdgeEdges(g2, v, to);
  }

  /** A branch keeps a graph runnable exactly when it closes no path and does not
      lead into the start or into another's branch. */
  lemma WithBranchWellFormed(g: Graph, c: nat, to: nat, tag: string)
    requires WellFormed(g) && Balanced(g) && c < |g| && to < |g| && g[c].kind == Conditional
    ensures Balanced(WithBranch(g, c, to, tag))
    ensures WellFormed(WithBranch(g, c, to, tag)) <==>
              g[to].kind != Virtual && to != START && to != c && !Reaches(g, to, c)
  {
    WithBranchBalanced(g, c, to, tag);
    BalancedLinked(WithBranch(g, c, to, tag));
    WithBranchAcyclic(g, c, to, tag);
    WithBranchBranching(g, c, to, tag);
    WithBranchNodes(g, c, to, tag, START);
    WithBranchNodes(g, c, to, tag, END);
  }

  // ---------- a call ----------

  datatype Call =
    | NodeCall(name: string, kind: Kind)
    | EdgeCall(from: nat, to: nat)
    | BranchCall(from: nat, to: nat, tag: string)
    | EntryCall(n: nat)
    | ExitCall(n: nat)

  ghost predicate InScope(g: Graph, call: Call) {
    match call
    case NodeCall(_, kind) => kind != Virtual
    case EdgeCall(a, b) => a < |g| && b < |g|
    case BranchCall(c, to, _) => c < |g| && to < |g|
    case EntryCall(n) => n < |g|
    case ExitCall(n) => n < |g|
  }

  /** What a call makes of the graph; a call that is answered with an error, nothing. */
  ghost function Called(g: Graph, call: Call): (r: Graph)
    requires |g| >= 2 && InScope(g, call)
    ensures |r| >= |g|
  {
    match call
    case NodeCall(name, kind) => WithNode(g, name, kind)
    case EdgeCall(a, b) => if g[a].kind == Conditional then g else WithEdge(g, a, b)
    case BranchCall(c, to, tag) => if g[c].kind != Conditional then g else WithBranch(g, c, to, tag)
    case EntryCall(n) => WithEntry(g, n)
    case ExitCall(n) => WithEdge(g, n, END)
  }

  /** A caller can tell beforehand which calls keep the graph runnable. */
  ghost predicate Legal(g: Graph, call: Call)
    requires |g| >= 2 && InScope(g, call)
  {
    match call
    case NodeCall(_, _) => true
    case EdgeCall(a, b) =>
      g[a].kind == Conditional || (g[b].kind != Virtual && b != START && a != b && !Reaches(g, b, a))
    case BranchCall(c, to, _) =>
      g[c].kind != Conditional || (g[to].kind != Virtual && to != START && to != c && !Reaches(g, to, c))
    case EntryCall(n) => n != START && g[n].kind != Virtual
    case ExitCall(n) => g[n].kind != Conditional && n != END && !Reaches(g, END, n)
  }

  /** Each call keeps the graph runnable exactly when it is legal; the two
      directions of the edges agree in any case. */
  lemma CallKeepsIffLegal(g: Graph, call: Call)
    requires WellFormed(g) && Balanced(g) && InScope(g, call)
    ensures Balanced(Called(g, call))
    ensures WellFormed(Called(g, call)) <==> Legal(g, call)
  {
    match call {
      case NodeCall(name, kind) => WithNodeWellFormed(g, name, kind);
      case EdgeCall(a, b) => WithEdgeWellFormed(g, a, b);
      case BranchCall(c, to, tag) => if g[c].kind == Conditional { WithBranchWellFormed(g, c, to, tag); }
      case EntryCall(n) => WithEntryWellFormed(g, n);
      case ExitCall(n) => WithEdgeWellFormed(g, n, END);
    }
  }

  // ---------- calls only ever add ----------

  ghost predicate BranchOf(g: Graph, v: nat)
    requires v < |g|
  {
    g[v].prev != [] && g[v].prev[0] < |g| && g[g[v].prev[0]].kind == Conditional
  }

  ghost predicate Shaped(g: Graph) {
    && |g| >= 2 && g[START].kind == Normal && g[END].kind == Normal
    && forall v :: 0 <= v < |g| && g[v].kind == Virtual ==> BranchOf(g, v)
  }

  /** What every sequence of calls keeps, legal or not. */
  ghost predicate Sound(g: Graph) {
    Shaped(g) && InRange(g) && Balanced(g)
  }

  /** `r` has the nodes of `g`, and each of them all its edges. */
  ghost predicate Grown(g: Graph, r: Graph) {
    && |g| <= |r|
    && forall n :: 0 <= n < |g| ==> r[n].kind == g[n].kind && g[n].next <= r[n].next && g[n].prev <= r[n].prev
  }

  lemma WithEdgeGrown(g: Graph, a: nat, b: nat)
    requires a < |g| && b < |g|
    ensures Grown(g, WithEdge(g, a, b))
  {
    forall n | 0 <= n < |g|
      ensures WithEdge(g, a, b)[n].kind == g[n].kind
      ensures g[n].next <= WithEdge(g, a, b)[n].next && g[n].prev <= WithEdge(g, a, b)[n].prev
    {
      WithEdgeKinds(g, a, b, n);
    }
  }

  lemma GrownBranchOf(g: Graph, r: Graph, v: nat)
    requires Grown(g, r) && v < |g| && BranchOf(g, v)
    ensures BranchOf(r, v)
  {
    assert g[v].prev <= r[v].prev && r[v].prev[0] == g[v].prev[0];
  }

  /** Of the virtual nodes only a new one needs looking at. */
  lemma GrownShaped(g: Graph, r: Graph)
    requires Shaped(g) && Grown(g, r)
    requires |r| <= |g| + 1 && (|r| > |g| && r[|g|].kind == Virtual ==> BranchOf(r, |g|))
    ensures Shaped(r)
  {
    forall v | 0 <= v < |r| && r[v].kind == Virtual
      ensures BranchOf(r, v)
    {
      if v < |g| {
        GrownBranchOf(g, r, v);
      }
    }
  }

  lemma WithEdgeSound(g: Graph, a: nat, b: nat)
    requires a < |g| && b < |g| && Sound(g)
    ensures Sound(WithEdge(g, a, b)) && Grown(g, WithEdge(g, a, b))
  {
    WithEdgeBalanced(g, a, b);
    WithEdgeEdges(g, a, b);
    WithEdgeGrown(g, a, b);
    GrownShaped(g, WithEdge(g, a, b));
  }

  lemma WithEntrySound(g: Graph, n: nat)
    requires n < |g| && Sound(g)
    ensures Sound(WithEntry(g, n)) && Grown(g, WithEntry(g, n))
  {
    WithEntryBalanced(g, n);
    WithEntryEdges(g, n);
    GrownShaped(g, WithEntry(g, n));
  }

  lemma WithNodeSound(g: Graph, name: string, kind: Kind)
    requires Sound(g) && kind != Virtual
    ensures Sound(WithNode(g, name, kind)) && Grown(g, WithNode(g, name, kind))
  {
    WithNodeBalanced(g, name, kind);
    WithNodeEdges(g, name, kind);
    GrownShaped(g, WithNode(g, name, kind));
  }

  lemma WithBranchGrown(g: Graph, c: nat, to: nat, tag: string)
    requires c < |g| && to < |g|
    ensures Grown(g, WithBranch(g, c, to, tag))
  {
    forall n | 0 <= n < |g|
      ensures WithBranch(g, c, to, tag)[n].kind == g[n].kind
      ensures g[n].next <= WithBranch(g, c, to, tag)[n].next && g[n].prev <= WithBranch(g, c, to, tag)[n].prev
    {
      WithBranchNodes(g, c, to, tag, n);
    }
  }

  lemma WithBranchSound(g: Graph, c: nat, to: nat, tag: string)
    requires c < |g| && to < |g| && g[c].kind == Conditional && Sound(g)
    ensures Sound(WithBranch(g, c, to, tag)) && Grown(g, WithBranch(g, c, to, tag))
  {
    WithBranchBalanced(g, c, to, tag);
    WithBranchGrown(g, c, to, tag);
    NewBranch(g, c, to, tag);
    GrownShaped(g, WithBranch(g, c, to, tag));
  }

  lemma NewBranch(g: Graph, c: nat, to: nat, tag: string)
    requires c < |g| && to < |g| && g[c].kind == Conditional
    ensures BranchOf(WithBranch(g, c, to, tag), |g|)
  {
    WithBranchNodes(g, c, to, tag, |g|);
    WithBranchNodes(g, c, to, tag, c);
  }

  lemma CalledSound(g: Graph, call: Call)
    requires Sound(g) && InScope(g, call)
    ensures Sound(Called(g, call)) && Grown(g, Called(g, call))
  {
    match call {
      case NodeCall(name, kind) => WithNodeSound(g, name, kind);
      case EdgeCall(a, b) => if g[a].kind != Conditional { WithEdgeSound(g, a, b); }
      case BranchCall(c, to, tag) => if g[c].kind == Conditional { WithBranchSound(g, c, to, tag); }
      case EntryCall(n) => WithEntrySound(g, n);
      case ExitCall(n) => WithEdgeSound(g, n, END);
    }
  }

  lemma GrownEdges(g: Graph, r: Graph, a: nat, b: nat)
    requires Grown(g, r) && Edge(g, a, b)
    ensures Edge(r, a, b)
  {
  }

  lemma GrownBranching(g: Graph, r: Graph)
    requires Sound(g) && Grown(g, r) && Branching(r) && InRange(r)
    ensures Branching(g)
  {
    forall c, k | 0 <= c < |g| && g[c].kind == Conditional && 0 <= k < |g[c].next|
      ensures g[c].next[k] < |g| && g[g[c].next[k]].kind == Virtual
    {
      assert r[c].next[k] == g[c].next[k];
    }
    forall c, k, l | 0 <= c < |g| && g[c].kind == Conditional && 0 <= k < l < |g[c].next|
      ensures g[c].next[k] != g[c].next[l]
    {
      assert r[c].next[k] == g[c].next[k] && r[c].next[l] == g[c].next[l];
    }
    forall v | 0 <= v < |g| && g[v].kind == Virtual
      ensures |g[v].prev| == 1 && g[v].prev[0] < |g| && g[g[v].prev[0]].kind == Conditional && v !in g[START].next
    {
      assert g[v].prev <= r[v].prev && |r[v].prev| == 1;
    }
  }

  /** What is wrong with a graph is never repaired. */
  lemma GrownWellFormed(g: Graph, r: Graph)
    requires Sound(g) && Grown(g, r) && WellFormed(r)
    ensures WellFormed(g)
  {
    BalancedLinked(g);
    GrownBranching(g, r);
    forall n | 0 <= n < |g|
      ensures !Reaches(g, n, n)
    {
      if Reaches(g, n, n) {
        forall a: nat, b: nat | Edge(g, a, b)
          ensures Edge(r, a, b)
        {
          GrownEdges(g, r, a, b);
        }
        PathKept(g, r, n, n);
      }
    }
  }

  // ---------- any sequence of calls ----------

  /** Each call is given nodes that exist when it is made. */
  ghost predicate AllInScope(g: Graph, calls: seq<Call>)
    requires |g| >= 2
    decreases |calls|
  {
    calls == [] || (InScope(g, calls[0]) && AllInScope(Called(g, calls[0]), calls[1..]))
  }

  ghost function Built(g: Graph, calls: seq<Call>): Graph
    requires |g| >= 2 && AllInScope(g, calls)
    decreases |calls|
  {
    if calls == [] then g else Built(Called(g, calls[0]), calls[1..])
  }

  /** Each call is legal when it is made. */
  ghost predicate AllLegal(g: Graph, calls: seq<Call>)
    requires |g| >= 2 && AllInScope(g, calls)
    decreases |calls|
  {
    calls == [] || (Legal(g, calls[0]) && AllLegal(Called(g, calls[0]), calls[1..]))
  }

  lemma {:induction false} BuiltFrom(g: Graph, calls: seq<Call>)
    requires Sound(g) && AllInScope(g, calls)
    ensures Balanced(Built(g, calls))
    ensures WellFormed(Built(g, calls)) <==> WellFormed(g) && AllLegal(g, calls)
    decreases |calls|
  {
    if calls != [] {
      CalledSound(g, calls[0]);
      BuiltFrom(Called(g, calls[0]), calls[1..]);
      if WellFormed(g) {
        CallKeepsIffLegal(g, calls[0]);
      } else if WellFormed(Called(g, calls[0])) {
        GrownWellFormed(g, Called(g, calls[0]));
      }
    }
  }

  /** Whatever is built from a blank graph has edges that agree in both directions, and it
      can be run exactly when every single call was legal. */
  lemma BuiltWellFormed(calls: seq<Call>)
    requires AllInScope(BLANK, calls)
    ensures Balanced(Built(BLANK, calls))
    ensures WellFormed(Built(BLANK, calls)) <==> AllLegal(BLANK, calls)
  {
    BlankWellFormed();
    BlankNormal();
    AllNormal(BLANK);
    BuiltFrom(BLANK, calls);
  }

  // ---------- branches with one successor ----------

  /** The call leads on from a branch's virtual node, which no error answers. */
  ghost predicate LeavesBranch(g: Graph, call: Call)
    requires |g| >= 2 && InScope(g, call)
  {
    match call
    case EdgeCall(a, _) => g[a].kind == Virtual
    case ExitCall(n) => g[n].kind == Virtual
    case _ => false
  }

  ghost predicate NoneLeavesBranch(g: Graph, calls: seq<Call>)
    requires |g| >= 2 && AllInScope(g, calls)
    decreases |calls|
  {
    calls == [] || (!LeavesBranch(g, calls[0]) && NoneLeavesBranch(Called(g, calls[0]), calls[1..]))
  }

  ghost predicate LeadOn(g: Graph) {
    forall v :: 0 <= v < |g| && g[v].kind == Virtual ==> |g[v].next| >= 1
  }

  ghost predicate LeadToOne(g: Graph) {
    forall v :: 0 <= v < |g| && g[v].kind == Virtual ==> |g[v].next| == 1
  }

  lemma CalledLeads(g: Graph, call: Call)
    requires Sound(g) && InScope(g, call) && LeadOn(g)
    ensures LeadOn(Called(g, call))
    ensures LeadToOne(Called(g, call)) <==> LeadToOne(g) && !LeavesBranch(g, call)
  {
    CalledSound(g, call);
    match call {
      case NodeCall(_, _) => NewNodeLeads(g, Called(g, call));
      case EdgeCall(a, b) => if g[a].kind != Conditional { EdgeLeads(g, a, b); }
      case BranchCall(c, to, tag) => if g[c].kind == Conditional { BranchLeads(g, c, to, tag); }
      case EntryCall(_) => NewNodeLeads(g, Called(g, call));
      case ExitCall(n) => EdgeLeads(g, n, END);
    }
  }

  /** A call that touches no branch. */
  lemma NewNodeLeads(g: Graph, r: Graph)
    requires LeadOn(g) && Grown(g, r)
    requires forall n :: 0 <= n < |g| && g[n].kind == Virtual ==> r[n].next == g[n].next
    requires forall n :: |g| <= n < |r| ==> r[n].kind != Virtual
    ensures LeadOn(r) && (LeadToOne(r) <==> LeadToOne(g))
  {
    if LeadToOne(r) {
      forall v | 0 <= v < |g| && g[v].kind == Virtual
        ensures |g[v].next| == 1
      {
        assert r[v].kind == Virtual && r[v].next == g[v].next;
      }
    }
  }

  lemma EdgeLeads(g: Graph, a: nat, b: nat)
    requires a < |g| && b < |g| && LeadOn(g)
    ensures LeadOn(WithEdge(g, a, b))
    ensures LeadToOne(WithEdge(g, a, b)) <==> LeadToOne(g) && g[a].kind != Virtual
  {
    var r := WithEdge(g, a, b);
    forall n | 0 <= n < |g|
      ensures r[n].kind == g[n].kind && |r[n].next| == |g[n].next| + if n == a then 1 else 0
    {
      WithEdgeKinds(g, a, b, n);
    }
    if LeadToOne(r) {
      forall v | 0 <= v < |g| && g[v].kind == Virtual
        ensures |g[v].next| == 1
      {
        assert r[v].kind == Virtual;
      }
    }
  }

  lemma BranchLeads(g: Graph, c: nat, to: nat, tag: string)
    requires c < |g| && to < |g| && g[c].kind == Conditional && LeadOn(g)
    ensures LeadOn(WithBranch(g, c, to, tag)) && (LeadToOne(WithBranch(g, c, to, tag)) <==> LeadToOne(g))
  {
    var r := WithBranch(g, c, to, tag);
    forall n | 0 <= n < |r|
      ensures r[n].kind == Virtual <==> n == |g| || g[n].kind == Virtual
      ensures r[n].kind == Virtual ==> |r[n].next| == if n == |g| then 1 else |g[n].next|
    {
      WithBranchNodes(g, c, to, tag, n);
    }
    if LeadToOne(r) {
      forall v | 0 <= v < |g| && g[v].kind == Virtual
        ensures |g[v].next| == 1
      {
        assert r[v].kind == Virtual;
      }
    }
  }

  lemma {:induction false} BuiltLeads(g: Graph, calls: seq<Call>)
    requires Sound(g) && LeadOn(g) && AllInScope(g, calls)
    ensures LeadToOne(Built(g, calls)) <==> LeadToOne(g) && NoneLeavesBranch(g, calls)
    decreases |calls|
  {
    if calls != [] {
      CalledSound(g, calls[0]);
      CalledLeads(g, calls[0]);
      BuiltLeads(Called(g, calls[0]), calls[1..]);
    }
  }

  lemma AllNormal(g: Graph)
    requires WellFormed(g) && Balanced(g) && forall n :: 0 <= n < |g| ==> g[n].kind == Normal
    ensures Sound(g) && LeadOn(g) && LeadToOne(g)
  {
  }

  lemma BlankNormal()
    ensures forall n :: 0 <= n < |BLANK| ==> BLANK[n].kind == Normal
  {
  }

  /** Whatever is built from a blank graph, each branch leads to one node,
      exactly when no call led on from a branch. */
  lemma BuiltBranches(calls: seq<Call>)
    requires AllInScope(BLANK, calls)
    ensures LeadToOne(Built(BLANK, calls)) <==> NoneLeavesBranch(BLANK, calls)
  {
    BlankWellFormed();
    BlankNormal();
    AllNormal(BLANK);
    BuiltLeads(BLANK, calls);
  }
}
