/** The execution graph of the scheduler: nodes, edges, paths and acyclicity.

    A node is named by its handle, its position in the scheduler's list of nodes;
    a handle plays the part of the source's node pointer. */
module Graphs {
  const START: nat := 0
  const END: nat := 1

  datatype Kind = Normal | Conditional | SubGraph | Virtual

  datatype Node = Node(name: string, kind: Kind, prev: seq<nat>, next: seq<nat>)

  type Graph = seq<Node>

  ghost predicate InRange(g: Graph) {
    && (forall n, k :: 0 <= n < |g| && 0 <= k < |g[n].next| ==> g[n].next[k] < |g|)
    && (forall n, k :: 0 <= n < |g| && 0 <= k < |g[n].prev| ==> g[n].prev[k] < |g|)
  }

  // ---------- paths ----------

  ghost predicate Edge(g: Graph, a: nat, b: nat) {
    a < |g| && b < |g| && b in g[a].next
  }

  ghost predicate Path(g: Graph, p: seq<nat>) {
    |p| > 0 && forall i :: 0 <= i < |p| - 1 ==> Edge(g, p[i], p[i + 1])
  }

  ghost predicate PathFromTo(g: Graph, p: seq<nat>, a: nat, b: nat) {
    Path(g, p) && p[0] == a && p[|p| - 1] == b
  }

  /** b is a proper descendant of a. */
  ghost predicate Reaches(g: Graph, a: nat, b: nat) {
    exists p :: PathFromTo(g, p, a, b) && |p| >= 2
  }

  ghost predicate Acyclic(g: Graph) {
    forall n :: 0 <= n < |g| ==> !Reaches(g, n, n)
  }

  lemma EdgeReaches(g: Graph, a: nat, b: nat)
    requires Edge(g, a, b)
    ensures Reaches(g, a, b)
  {
    assert PathFromTo(g, [a, b], a, b);
  }

  lemma ReachesTransitive(g: Graph, a: nat, b: nat, c: nat)
    requires Reaches(g, a, b) && Reaches(g, b, c)
    ensures Reaches(g, a, c)
  {
    var p :| PathFromTo(g, p, a, b) && |p| >= 2;
    var q :| PathFromTo(g, q, b, c) && |q| >= 2;
    var r := p + q[1..];
    forall i | 0 <= i < |r| - 1
      ensures Edge(g, r[i], r[i + 1])
    {
      if i < |p| - 1 {
        assert Edge(g, p[i], p[i + 1]);
      } else {
        assert Edge(g, q[i - (|p| - 1)], q[i - (|p| - 1) + 1]);
      }
    }
    assert PathFromTo(g, r, a, c);
  }

  /** Every descendant is reached by a first edge, then nothing or a further path. */
  lemma ReachesFirstEdge(g: Graph, a: nat, b: nat) returns (m: nat)
    requires Reaches(g, a, b)
    ensures Edge(g, a, m) && (m == b || Reaches(g, m, b))
  {
    var p :| PathFromTo(g, p, a, b) && |p| >= 2;
    m := p[1];
    assert Edge(g, p[0], p[1]);
    var q := p[1..];
    forall i | 0 <= i < |q| - 1
      ensures Edge(g, q[i], q[i + 1])
    {
      assert Edge(g, p[i + 1], p[i + 2]);
    }
    assert PathFromTo(g, q, m, b);
  }

  lemma ReachesLastEdge(g: Graph, a: nat, b: nat) returns (m: nat)
    requires Reaches(g, a, b)
    ensures Edge(g, m, b) && (m == a || Reaches(g, a, m))
  {
    var p :| PathFromTo(g, p, a, b) && |p| >= 2;
    m := p[|p| - 2];
    assert Edge(g, p[|p| - 2], p[|p| - 2 + 1]);
    var q := p[..|p| - 1];
    forall i | 0 <= i < |q| - 1
      ensures Edge(g, q[i], q[i + 1])
    {
      assert Edge(g, p[i], p[i + 1]);
    }
    assert PathFromTo(g, q, a, m);
  }

  // ---------- ranks ----------

  ghost function Ancestors(g: Graph, n: nat): set<nat> {
    set a | 0 <= a < |g| && Reaches(g, a, n)
  }

  /** The number of proper ancestors: grows along every edge of an acyclic graph. */
  ghost function Rank(g: Graph, n: nat): nat {
    |Ancestors(g, n)|
  }

  lemma SubsetSize(a: set<nat>, b: set<nat>)
    requires a <= b
    ensures |a| <= |b|
    ensures a != b ==> |a| < |b|
  {
    assert b == a + (b - a);
    if a != b {
      assert b - a != {};
    }
  }

  lemma BoundedSize(s: set<nat>, n: nat)
    requires forall x :: x in s ==> x < n
    ensures |s| <= n
  {
    if n == 0 {
      assert s == {};
    } else {
      BoundedSize(s - {n - 1}, n - 1);
      assert s <= (s - {n - 1}) + {n - 1};
      SubsetSize(s, (s - {n - 1}) + {n - 1});
    }
  }

  lemma RankBound(g: Graph, n: nat)
    ensures Rank(g, n) <= |g|
  {
    BoundedSize(Ancestors(g, n), |g|);
  }

  lemma EdgeRank(g: Graph, a: nat, b: nat)
    requires Acyclic(g) && Edge(g, a, b)
    ensures Rank(g, a) < Rank(g, b) <= |g|
  {
    EdgeReaches(g, a, b);
    forall x | x in Ancestors(g, a)
      ensures x in Ancestors(g, b)
    {
      ReachesTransitive(g, x, a, b);
    }
    assert a in Ancestors(g, b) && a !in Ancestors(g, a);
    SubsetSize(Ancestors(g, a), Ancestors(g, b));
    RankBound(g, b);
  }

  /** A numbering of the nodes that grows along every edge. */
  ghost predicate Ranked(g: Graph, r: seq<nat>) {
    |r| == |g| && forall a: nat, b: nat :: Edge(g, a, b) ==> r[a] < r[b]
  }

  lemma {:induction false} RankedPath(g: Graph, r: seq<nat>, p: seq<nat>)
    requires Ranked(g, r) && Path(g, p) && |p| >= 2
    ensures p[0] < |g| && p[|p| - 1] < |g| && r[p[0]] < r[p[|p| - 1]]
    decreases |p|
  {
    assert Edge(g, p[0], p[1]);
    if |p| > 2 {
      var q := p[1..];
      forall i | 0 <= i < |q| - 1
        ensures Edge(g, q[i], q[i + 1])
      {
        assert Edge(g, p[i + 1], p[i + 2]);
      }
      RankedPath(g, r, q);
    }
  }

  /** Acyclic means exactly that the nodes can be numbered along the edges. */
  lemma AcyclicIffRanked(g: Graph)
    ensures Acyclic(g) <==> exists r :: Ranked(g, r)
  {
    if Acyclic(g) {
      var r := seq(|g|, i requires 0 <= i < |g| => Rank(g, i));
      forall a: nat, b: nat | Edge(g, a, b)
        ensures r[a] < r[b]
      {
        EdgeRank(g, a, b);
      }
      assert Ranked(g, r);
    }
    if r :| Ranked(g, r) {
      forall n | 0 <= n < |g|
        ensures !Reaches(g, n, n)
      {
        if Reaches(g, n, n) {
          var p :| PathFromTo(g, p, n, n) && |p| >= 2;
          RankedPath(g, r, p);
        }
      }
    }
  }

  // ---------- well-formed graphs ----------

  /** The two directions of the edges agree, except that an entry edge
      is recorded at the start node alone. */
  ghost predicate Linked(g: Graph) {
    && (forall b, k :: 0 <= b < |g| && 0 <= k < |g[b].prev| ==> Edge(g, g[b].prev[k], b))
    && (forall a: nat, b: nat :: Edge(g, a, b) ==> a == START || a in g[b].prev)
  }

  /** A conditional branches over virtual nodes of its own, each of them once. */
  ghost predicate Branching(g: Graph) {
    && (forall c, k :: 0 <= c < |g| && g[c].kind == Conditional && 0 <= k < |g[c].next| ==>
          g[c].next[k] < |g| && g[g[c].next[k]].kind == Virtual)
    && (forall c, k, l :: 0 <= c < |g| && g[c].kind == Conditional && 0 <= k < l < |g[c].next| ==>
          g[c].next[k] != g[c].next[l])
    && (forall v :: 0 <= v < |g| && g[v].kind == Virtual ==>
          && |g[v].prev| == 1
          && g[v].prev[0] < |g|
          && g[g[v].prev[0]].kind == Conditional
          && v !in g[START].next)
  }

  /** What the scheduler expects of the graph it runs. Nothing checks it at run time. */
  ghost predicate WellFormed(g: Graph) {
    && |g| >= 2
    && InRange(g)
    && g[START].kind == Normal && g[START].prev == []
    && g[END].kind == Normal
    && Linked(g)
    && Branching(g)
    && Acyclic(g)
  }

  lemma NotIntoStart(g: Graph, a: nat)
    requires WellFormed(g)
    ensures !Edge(g, a, START)
  {
    if Edge(g, a, START) {
      EdgeReaches(g, a, START);
    }
  }

  /** A branch is entered from its conditional and from nowhere else. */
  lemma BranchParent(g: Graph, a: nat, v: nat)
    requires WellFormed(g) && Edge(g, a, v) && g[v].kind == Virtual
    ensures a == g[v].prev[0] && g[a].kind == Conditional
  {
  }
}
