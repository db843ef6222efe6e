/** A graph that routes by a conditional in its middle, run twice. */
module RoutedGraphs {
  import opened Wrappers
  import opened Graphs
  import opened Builder
  import opened Protocol
  import opened Outcomes
  import opened Bounds
  import opened Messages
  import opened Theorems
  import opened Reruns
  import opened Choices
  import opened Scheduling

  const A: nat := 2
  const COND: nat := 3
  const LEFT: nat := 4
  const RIGHT: nat := 5
  const LAST: nat := 6
  const LEFT_TAG: nat := 7
  const RIGHT_TAG: nat := 8

  /** The start leads to a node, this to a conditional with
      two branches, and what is behind the branches to a last node. */
  function Routed(): (g: Graph)
    ensures |g| == 9
  {
    [Node("__start__", Normal, [], [A]),
     Node("__end__", Normal, [LAST], []),
     Node("a", Normal, [], [COND]),
     Node("cond", Conditional, [A], [LEFT_TAG, RIGHT_TAG]),
     Node("leftNode", Normal, [LEFT_TAG], [LAST]),
     Node("rightNode", Normal, [RIGHT_TAG], [LAST]),
     Node("end", Normal, [LEFT, RIGHT], [END]),
     Node("left", Virtual, [COND], [LEFT]),
     Node("right", Virtual, [COND], [RIGHT])]
  }

  function RoutedConfig(): Config {
    Config(Routed(), map[COND := ["right"]], {})
  }

  /** All nodes but the start and the conditional. */
  const REGISTERED: set<nat> := {END, A, LEFT, RIGHT, LAST, LEFT_TAG, RIGHT_TAG}

  // ---------- building it ----------

  lemma EntryAdded(g: Graph, n: nat)
    requires n < |g|
    ensures WithEntry(g, n)[START] == g[START].(next := g[START].next + [n])
    ensures forall m :: 0 <= m < |g| && m != START ==> WithEntry(g, n)[m] == g[m]
  {
  }

  lemma EdgeAdded(g: Graph, a: nat, b: nat)
    requires a < |g| && b < |g| && a != b
    ensures WithEdge(g, a, b)[a] == g[a].(next := g[a].next + [b]) && WithEdge(g, a, b)[b] == g[b].(prev := g[b].prev + [a])
    ensures forall m :: 0 <= m < |g| && m != a && m != b ==> WithEdge(g, a, b)[m] == g[m]
  {
  }

  lemma BranchAdded(g: Graph, c: nat, to: nat, tag: string)
    requires c < |g| && to < |g| && c != to
    ensures var r := WithBranch(g, c, to, tag);
            && r[|g|] == Node(tag, Virtual, [c], [to])
            && r[c] == g[c].(next := g[c].next + [|g|]) && r[to] == g[to].(prev := g[to].prev + [|g|])
            && forall m :: 0 <= m < |g| && m != c && m != to ==> r[m] == g[m]
  {
    var v := |g|;
    var g1 := WithNode(g, tag, Virtual);
    EdgeAdded(g1, c, v);
    EdgeAdded(WithEdge(g1, c, v), v, to);
  }

  ghost predicate Plain(g: Graph, n: nat, name: string, prev: seq<nat>, next: seq<nat>) {
    n < |g| && g[n] == Node(name, Normal, prev, next)
  }

  /** The nodes, in the order of the test's calls. */
  method AddFirstNode() returns (sb: Scheduler)
    ensures fresh(sb) && sb.Valid() && sb.idGen == 1 && |sb.nodes| == 3
    ensures sb.nodes[START] == BLANK[START] && sb.nodes[END] == BLANK[END] && Plain(sb.nodes, A, "a", [], [])
    ensures sb.graph == map[START_ID := END, END_ID := END, 1 := A]
  {
    sb := new Scheduler();
    var a := sb.AddNode("a", Normal, true);
  }

  method AddFirstNodes() returns (sb: Scheduler)
    ensures fresh(sb) && sb.Valid() && sb.idGen == 3 && |sb.nodes| == 5
    ensures sb.nodes[START] == BLANK[START] && sb.nodes[END] == BLANK[END]
    ensures Plain(sb.nodes, A, "a", [], []) && sb.nodes[COND] == Node("cond", Conditional, [], []) && Plain(sb.nodes, LEFT, "leftNode", [], [])
    ensures sb.graph == map[START_ID := END, END_ID := END, 1 := A, 3 := LEFT]
  {
    sb := AddFirstNode();
    var c := sb.AddUnregistered("cond", Conditional);
    var l := sb.AddNode("leftNode", Normal, true);
  }

  method AddNodes() returns (sb: Scheduler)
    ensures fresh(sb) && sb.Valid() && sb.idGen == 5 && |sb.nodes| == 7
    ensures sb.nodes[START] == BLANK[START] && sb.nodes[END] == BLANK[END]
    ensures Plain(sb.nodes, A, "a", [], []) && sb.nodes[COND] == Node("cond", Conditional, [], []) && Plain(sb.nodes, LEFT, "leftNode", [], [])
    ensures Plain(sb.nodes, RIGHT, "rightNode", [], []) && Plain(sb.nodes, LAST, "end", [], [])
    ensures sb.graph == map[START_ID := END, END_ID := END, 1 := A, 3 := LEFT, 4 := RIGHT, 5 := LAST]
  {
    sb := AddFirstNodes();
    var r := sb.AddNode("rightNode", Normal, true);
    var z := sb.AddNode("end", Normal, true);
  }

  /** The entry and the exit. */
  method AddEnds() returns (sb: Scheduler)
    ensures fresh(sb) && sb.Valid() && sb.idGen == 5 && |sb.nodes| == 7
    ensures sb.nodes[START] == BLANK[START].(next := [A]) && sb.nodes[END] == BLANK[END].(prev := [LAST])
    ensures Plain(sb.nodes, A, "a", [], []) && sb.nodes[COND] == Node("cond", Conditional, [], []) && Plain(sb.nodes, LEFT, "leftNode", [], [])
    ensures Plain(sb.nodes, RIGHT, "rightNode", [], []) && Plain(sb.nodes, LAST, "end", [], [END])
    ensures sb.graph == map[START_ID := END, END_ID := END, 1 := A, 3 := LEFT, 4 := RIGHT, 5 := LAST]
  {
    sb := AddNodes();
    EntryAdded(sb.nodes, A);
    sb.SetEntry(A);
    EdgeAdded(sb.nodes, LAST, END);
    sb.SetExit(LAST);
  }

  /** The edge to the conditional. */
  method AddFirstEdge() returns (sb: Scheduler)
    ensures fresh(sb) && sb.Valid() && sb.idGen == 5 && |sb.nodes| == 7
    ensures sb.nodes[START] == BLANK[START].(next := [A]) && sb.nodes[END] == BLANK[END].(prev := [LAST])
    ensures Plain(sb.nodes, A, "a", [], [COND]) && sb.nodes[COND] == Node("cond", Conditional, [A], [])
    ensures Plain(sb.nodes, LEFT, "leftNode", [], []) && Plain(sb.nodes, RIGHT, "rightNode", [], []) && Plain(sb.nodes, LAST, "end", [], [END])
    ensures sb.graph == map[START_ID := END, END_ID := END, 1 := A, 3 := LEFT, 4 := RIGHT, 5 := LAST]
  {
    sb := AddEnds();
    EdgeAdded(sb.nodes, A, COND);
    var err := sb.AddEdge(Some(A), Some(COND));
  }

  method AddLeftBranch() returns (sb: Scheduler)
    ensures fresh(sb) && sb.Valid() && sb.idGen == 6 && |sb.nodes| == 8
    ensures sb.nodes[START] == BLANK[START].(next := [A]) && sb.nodes[END] == BLANK[END].(prev := [LAST])
    ensures Plain(sb.nodes, A, "a", [], [COND]) && sb.nodes[COND] == Node("cond", Conditional, [A], [LEFT_TAG])
    ensures Plain(sb.nodes, LEFT, "leftNode", [LEFT_TAG], []) && Plain(sb.nodes, RIGHT, "rightNode", [], []) && Plain(sb.nodes, LAST, "end", [], [END])
    ensures sb.nodes[LEFT_TAG] == Node("left", Virtual, [COND], [LEFT])
    ensures sb.graph == map[START_ID := END, END_ID := END, 1 := A, 3 := LEFT, 4 := RIGHT, 5 := LAST, 6 := LEFT_TAG]
  {
    sb := AddFirstEdge();
    BranchAdded(sb.nodes, COND, LEFT, "left");
    var err := sb.AddConditionalEdge(Some(COND), Some(LEFT), "left");
  }

  method AddBranches() returns (sb: Scheduler)
    ensures fresh(sb) && sb.Valid() && |sb.nodes| == 9
    ensures sb.nodes[START] == BLANK[START].(next := [A]) && sb.nodes[END] == BLANK[END].(prev := [LAST])
    ensures Plain(sb.nodes, A, "a", [], [COND]) && sb.nodes[COND] == Node("cond", Conditional, [A], [LEFT_TAG, RIGHT_TAG])
    ensures Plain(sb.nodes, LEFT, "leftNode", [LEFT_TAG], []) && Plain(sb.nodes, RIGHT, "rightNode", [RIGHT_TAG], [])
    ensures Plain(sb.nodes, LAST, "end", [], [END])
    ensures sb.nodes[LEFT_TAG] == Node("left", Virtual, [COND], [LEFT]) && sb.nodes[RIGHT_TAG] == Node("right", Virtual, [COND], [RIGHT])
    ensures sb.graph == map[START_ID := END, END_ID := END, 1 := A, 3 := LEFT, 4 := RIGHT, 5 := LAST, 6 := LEFT_TAG, 7 := RIGHT_TAG]
  {
    sb := AddLeftBranch();
    BranchAdded(sb.nodes, COND, RIGHT, "right");
    var err := sb.AddConditionalEdge(Some(COND), Some(RIGHT), "right");
  }

  /** What the last two edges make of these nodes. */
  lemma LastEdges(g: Graph)
    requires |g| == 9 && g[START] == BLANK[START].(next := [A]) && g[END] == BLANK[END].(prev := [LAST])
    requires Plain(g, A, "a", [], [COND]) && g[COND] == Node("cond", Conditional, [A], [LEFT_TAG, RIGHT_TAG])
    requires Plain(g, LEFT, "leftNode", [LEFT_TAG], []) && Plain(g, RIGHT, "rightNode", [RIGHT_TAG], []) && Plain(g, LAST, "end", [], [END])
    requires g[LEFT_TAG] == Node("left", Virtual, [COND], [LEFT]) && g[RIGHT_TAG] == Node("right", Virtual, [COND], [RIGHT])
    ensures WithEdge(WithEdge(g, LEFT, LAST), RIGHT, LAST) == Routed()
  {
    var g1 := WithEdge(g, LEFT, LAST);
    var g2 := WithEdge(g1, RIGHT, LAST);
    EdgeAdded(g, LEFT, LAST);
    EdgeAdded(g1, RIGHT, LAST);
    assert g2[LAST] == Routed()[LAST] && g2[LEFT] == Routed()[LEFT] && g2[RIGHT] == Routed()[RIGHT];
  }

  /** The test's scheduler has this graph, and all nodes but the start and the conditional registered. */
  method Build() returns (sb: Scheduler)
    ensures fresh(sb) && sb.Valid() && sb.nodes == Routed() && sb.Registered() == REGISTERED
  {
    sb := AddBranches();
    LastEdges(sb.nodes);
    RoutedRegistered(sb.graph);
    EdgeAdded(sb.nodes, LEFT, LAST);
    var err := sb.AddEdge(Some(LEFT), Some(LAST));
    err := sb.AddEdge(Some(RIGHT), Some(LAST));
  }

  lemma RoutedRegistered(m: map<int, nat>)
    requires m == map[START_ID := END, END_ID := END, 1 := A, 3 := LEFT, 4 := RIGHT, 5 := LAST, 6 := LEFT_TAG, 7 := RIGHT_TAG]
    ensures NodesOf(m) == REGISTERED
  {
    assert m[END_ID] == END && m[1] == A && m[3] == LEFT && m[4] == RIGHT && m[5] == LAST && m[6] == LEFT_TAG && m[7] == RIGHT_TAG;
  }

  // ---------- the graph can be run ----------

  lemma RoutedAcyclic()
    ensures InRange(Routed()) && Acyclic(Routed())
  {
    var r := [0, 6, 1, 2, 4, 4, 5, 3, 3];
    forall a: nat, b: nat | Edge(Routed(), a, b)
      ensures r[a] < r[b]
    {
    }
    assert Ranked(Routed(), r);
    AcyclicIffRanked(Routed());
  }

  lemma RoutedLinked()
    ensures Linked(Routed())
  {
    var g := Routed();
    forall a: nat, b: nat | Edge(g, a, b)
      ensures a == START || a in g[b].prev
    {
      if b == END { assert g[b].prev[0] == LAST; }
      if b == COND { assert g[b].prev[0] == A; }
      if b == LEFT { assert g[b].prev[0] == LEFT_TAG; }
      if b == RIGHT { assert g[b].prev[0] == RIGHT_TAG; }
      if b == LAST { assert g[b].prev[0] == LEFT && g[b].prev[1] == RIGHT; }
      if b == LEFT_TAG || b == RIGHT_TAG { assert g[b].prev[0] == COND; }
    }
    forall b, k | 0 <= b < |g| && 0 <= k < |g[b].prev|
      ensures Edge(g, g[b].prev[k], b)
    {
      if b == LEFT_TAG { assert g[COND].next[0] == b; }
      if b == RIGHT_TAG { assert g[COND].next[1] == b; }
      if b != LEFT_TAG && b != RIGHT_TAG { assert g[g[b].prev[k]].next[0] == b; }
    }
  }

  lemma RoutedKinds()
    ensures var g := Routed();
            && g[COND].kind == Conditional && g[LEFT_TAG].kind == Virtual && g[RIGHT_TAG].kind == Virtual
            && forall n :: 0 <= n < |g| && n != COND && n != LEFT_TAG && n != RIGHT_TAG ==> g[n].kind == Normal
  {
  }

  lemma RoutedBranching()
    ensures Branching(Routed())
  {
    var g := Routed();
    RoutedKinds();
    assert g[COND].next == [LEFT_TAG, RIGHT_TAG];
    assert g[LEFT_TAG].prev == [COND] && g[RIGHT_TAG].prev == [COND] && g[START].next == [A];
    CondBranching(g);
  }

  lemma CondBranching(g: Graph)
    requires |g| == 9 && g[COND].kind == Conditional && g[LEFT_TAG].kind == Virtual && g[RIGHT_TAG].kind == Virtual
    requires forall n :: 0 <= n < |g| && n != COND && n != LEFT_TAG && n != RIGHT_TAG ==> g[n].kind == Normal
    requires g[COND].next == [LEFT_TAG, RIGHT_TAG] && g[START].next == [A]
    requires g[LEFT_TAG].prev == [COND] && g[RIGHT_TAG].prev == [COND]
    ensures Branching(g)
  {
  }

  lemma RoutedWellFormed()
    ensures WellFormed(Routed())
  {
    RoutedAcyclic();
    RoutedLinked();
    RoutedBranching();
  }

  lemma RoutedWired()
    ensures Wired(Routed()) && Needed(Routed(), COND)
  {
    var g := Routed();
    assert A in g[START].next by { assert g[START].next[0] == A; }
    var p := [COND, LEFT_TAG, LEFT, LAST, END];
    forall i | 0 <= i < |p| - 1
      ensures Edge(g, p[i], p[i + 1])
    {
      assert g[p[i]].next[0] == p[i + 1];
    }
    assert PathFromTo(g, p, COND, END);
  }

  lemma OneWay(g: Graph, w: seq<nat>, n: nat, m: nat)
    requires Weighs(g, Ones(g), w) && n < |g| && m < |g| && g[n].next == [m]
    ensures w[n] == 1 + w[m]
  {
    assert WeighsAt(g, Ones(g), w, n);
    assert SumNext(w, [m], 0) == w[m] + SumNext(w, [m], 1);
  }

  lemma TwoWays(g: Graph, w: seq<nat>, n: nat, m: nat, l: nat)
    requires Weighs(g, Ones(g), w) && n < |g| && m < |g| && l < |g| && g[n].next == [m, l]
    ensures w[n] == 1 + w[m] + w[l]
  {
    assert WeighsAt(g, Ones(g), w, n);
    assert SumNext(w, [m, l], 0) == w[m] + SumNext(w, [m, l], 1);
    assert SumNext(w, [m, l], 1) == w[l] + SumNext(w, [m, l], 2);
  }

  /** What leads on from each node. */
  ghost predicate Routes(g: Graph) {
    && |g| == 9
    && g[START].next == [A] && g[END].next == [] && g[A].next == [COND] && g[COND].next == [LEFT_TAG, RIGHT_TAG]
    && g[LEFT].next == [LAST] && g[RIGHT].next == [LAST] && g[LAST].next == [END]
    && g[LEFT_TAG].next == [LEFT] && g[RIGHT_TAG].next == [RIGHT]
  }

  lemma RoutedPaths(g: Graph)
    requires WellFormed(g) && Routes(g)
    ensures Paths(g, START) == 11
  {
    var w := Totals(g, Ones(g));
    TotalsWeigh(g, Ones(g));
    assert WeighsAt(g, Ones(g), w, END);
    OneWay(g, w, LAST, END);
    OneWay(g, w, LEFT, LAST);
    OneWay(g, w, RIGHT, LAST);
    OneWay(g, w, LEFT_TAG, LEFT);
    OneWay(g, w, RIGHT_TAG, RIGHT);
    TwoWays(g, w, COND, LEFT_TAG, RIGHT_TAG);
    OneWay(g, w, A, COND);
    OneWay(g, w, START, A);
  }

  lemma RoutesOnce(cfg: Config) returns (first: seq<Action>, s: State)
    requires WellFormed(cfg.g) && Wired(cfg.g) && Routes(cfg.g) && Needed(cfg.g, COND) && cfg.canFail == {}
    requires cfg.g[A].prev == [] && cfg.g[COND].prev == [A] && cfg.g[A].kind == Normal && cfg.g[COND].kind == Conditional
    requires Registers(cfg.g, REGISTERED)
    ensures Roomy(cfg) && Reached(cfg, first, s) && Stuck(cfg, s) && s.outcome == Success
    ensures forall again, t :: Rerun(cfg, ResetStates(s.st, REGISTERED), again, t) ==> t.outcome != Success
  {
    RoutedPaths(cfg.g);
    CountWithinPaths(cfg);
    RoomyNeverJams(cfg);
    assert Eval(cfg, A) == Finished && cfg.g[COND].prev[0] == A;
    first, s := SucceedsOnce(cfg, REGISTERED, COND);
  }

  lemma RoutedRegisters()
    ensures Registers(Routed(), REGISTERED)
  {
    RoutedKinds();
  }

  lemma RoutedRoutes()
    ensures Routes(Routed()) && Routed()[A].prev == [] && Routed()[COND].prev == [A]
  {
  }

  // ---------- who runs ----------

  /** What leads to the nodes behind the conditional, of whose two branches one is answered. */
  ghost predicate Forks(cfg: Config) {
    var g := cfg.g;
    && |g| == 9 && g[A].prev == [] && g[COND].prev == [A] && g[A].kind == g[LEFT].kind == g[RIGHT].kind == Normal
    && g[COND].kind == Conditional && g[LEFT_TAG].kind == g[RIGHT_TAG].kind == Virtual
    && g[LEFT_TAG].prev == g[RIGHT_TAG].prev == [COND] && g[LEFT].prev == [LEFT_TAG] && g[RIGHT].prev == [RIGHT_TAG]
    && Answers(cfg, COND, RIGHT_TAG) && !Answers(cfg, COND, LEFT_TAG)
  }

  lemma RightChosen(cfg: Config)
    requires Forks(cfg)
    ensures Chosen(cfg, RIGHT)
  {
    ChosenFirst(cfg, A);
    ChosenNext(cfg, A, COND);
    ChosenNext(cfg, COND, RIGHT_TAG);
    ChosenNext(cfg, RIGHT_TAG, RIGHT);
  }

  lemma LeftNotChosen(cfg: Config)
    requires Forks(cfg)
    ensures !Chosen(cfg, LEFT)
  {
    if Chosen(cfg, LEFT) {
      var v := ChosenBefore(cfg, LEFT);
      var c := ChosenBefore(cfg, v);
      assert false;
    }
  }

  lemma BothNeeded(g: Graph)
    requires InRange(g) && Routes(g)
    ensures Needed(g, LEFT) && Needed(g, RIGHT)
  {
    forall n | n == LEFT || n == RIGHT
      ensures Needed(g, n)
    {
      assert g[n].next[0] == LAST && g[LAST].next[0] == END;
      EdgeReaches(g, n, LAST);
      EdgeReaches(g, LAST, END);
      ReachesTransitive(g, n, LAST, END);
    }
  }

  /** Every complete run succeeds, having started the node behind
      the answered branch once and the other not at all. */
  ghost predicate RunsRight(cfg: Config)
    requires WellFormed(cfg.g) && |cfg.g| == 9
  {
    forall acts, s :: Reached(cfg, acts, s) && Stuck(cfg, s) ==>
      s.outcome == Success && s.starts[RIGHT] == 1 && s.starts[LEFT] == 0
  }

  lemma ForksRunRight(cfg: Config)
    requires WellFormed(cfg.g) && Wired(cfg.g) && Roomy(cfg) && cfg.canFail == {} && Routes(cfg.g) && Forks(cfg)
    ensures RunsRight(cfg)
  {
    RightChosen(cfg);
    LeftNotChosen(cfg);
    BothNeeded(cfg.g);
    forall acts, s | Reached(cfg, acts, s) && Stuck(cfg, s)
      ensures s.outcome == Success && s.starts[RIGHT] == 1 && s.starts[LEFT] == 0
    {
      RunAlwaysReturns(cfg, acts, s);
      ChosenAreStarted(cfg, acts, s, RIGHT);
      ChosenAreStarted(cfg, acts, s, LEFT);
    }
  }

  lemma RoutedForks()
    ensures Forks(RoutedConfig())
  {
    RoutedKinds();
    assert "right" in ["right"] && "left" != "right";
  }

  lemma RoutedRoomy()
    requires WellFormed(Routed())
    ensures Roomy(RoutedConfig())
  {
    RoutedRoutes();
    RoutedPaths(Routed());
    CountWithinPaths(RoutedConfig());
  }

  /** Every complete first run succeeds, with the right-hand node started once and
      the left-hand one not at all; no second run ever succeeds. */
  lemma RoutedRunsOnce() returns (first: seq<Action>, s: State)
    ensures WellFormed(Routed()) && Wired(Routed()) && Roomy(RoutedConfig()) && RunsRight(RoutedConfig())
    ensures Reached(RoutedConfig(), first, s) && Stuck(RoutedConfig(), s) && s.outcome == Success
    ensures s.starts[RIGHT] == 1 && s.starts[LEFT] == 0
    ensures forall again, t :: Rerun(RoutedConfig(), ResetStates(s.st, REGISTERED), again, t) ==> t.outcome != Success
  {
    RoutedWellFormed();
    RoutedWired();
    RoutedRoomy();
    RoutedForks();
    RoutedRoutes();
    RoutedKinds();
    RoutedRegisters();
    ForksRunRight(RoutedConfig());
    first, s := RoutesOnce(RoutedConfig());
  }
}
