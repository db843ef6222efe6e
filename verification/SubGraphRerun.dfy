/** A sub-graph node left finished by an earlier run: it is taken for settled
    before the new run gets to it, and the new run succeeds without it. */
module SubGraphReruns {
  import opened Graphs
  import opened Protocol
  import opened Outcomes
  import opened Safety
  import opened Theorems
  import opened Reruns

  const SUB: nat := 2
  const OTHER: nat := 3

  /** The start leads to a sub-graph node and to an ordinary one, both of them to the end. */
  function Fork(): (g: Graph)
    ensures |g| == 4
  {
    [Node("__start__", Normal, [], [SUB, OTHER]),
     Node("__end__", Normal, [SUB, OTHER], []),
     Node("s", SubGraph, [], [END]),
     Node("o", Normal, [], [END])]
  }

  function ForkConfig(): Config {
    Config(Fork(), map[], {})
  }

  /** All nodes but the start and the sub-graph node. */
  const REGISTERED: set<nat> := {END, OTHER}

  lemma ForkEdges(a: nat, b: nat)
    ensures Edge(Fork(), a, b) <==> (a == START && (b == SUB || b == OTHER)) || ((a == SUB || a == OTHER) && b == END)
  {
    var g := Fork();
    assert g[START].next[0] == SUB && g[START].next[1] == OTHER && g[SUB].next[0] == END && g[OTHER].next[0] == END;
  }

  lemma ForkAcyclic()
    ensures InRange(Fork()) && Acyclic(Fork())
  {
    var g, r := Fork(), [0, 2, 1, 1];
    forall a: nat, b: nat | Edge(g, a, b)
      ensures r[a] < r[b]
    {
      ForkEdges(a, b);
    }
    assert Ranked(g, r);
    AcyclicIffRanked(g);
  }

  lemma ForkLinked()
    ensures Linked(Fork())
  {
    var g := Fork();
    assert g[END].prev[0] == SUB && g[END].prev[1] == OTHER;
    forall a: nat, b: nat | Edge(g, a, b)
      ensures a == START || a in g[b].prev
    {
      ForkEdges(a, b);
    }
    forall b, k | 0 <= b < |g| && 0 <= k < |g[b].prev|
      ensures Edge(g, g[b].prev[k], b)
    {
      ForkEdges(g[b].prev[k], b);
    }
  }

  lemma ForkKinds()
    ensures forall n :: 0 <= n < |Fork()| ==> Fork()[n].kind == if n == SUB then SubGraph else Normal
  {
  }

  lemma NoBranching(g: Graph)
    requires forall n :: 0 <= n < |g| ==> g[n].kind == Normal || g[n].kind == SubGraph
    ensures Branching(g)
  {
  }

  lemma ForkWellFormed()
    ensures WellFormed(Fork())
  {
    ForkAcyclic();
    ForkLinked();
    ForkKinds();
    NoBranching(Fork());
  }

  lemma ForkWired()
    ensures Wired(Fork()) && Needed(Fork(), SUB)
  {
    ForkEdges(SUB, END);
    EdgeReaches(Fork(), SUB, END);
    forall n | 0 <= n < |Fork()| && n != START
      ensures Fed(Fork(), n)
    {
      ForkEdges(START, n);
      assert n == END ==> Fork()[n].prev[0] == SUB;
    }
  }

  /** What the second run meets. */
  ghost predicate ForkShape(cfg: Config) {
    && |cfg.g| == 4 && InRange(cfg.g)
    && cfg.g[START].kind == Normal && cfg.g[END].kind == Normal && cfg.g[SUB].kind == SubGraph && cfg.g[OTHER].kind == Normal
    && cfg.g[START].next == [SUB, OTHER] && cfg.g[SUB].prev == [] && cfg.g[OTHER].prev == []
    && cfg.g[OTHER].next == [END] && cfg.g[END].prev == [SUB, OTHER]
  }

  function StateOf(w: Worker): Status {
    match w
    case Absent => Pending
    case Executing => Running
    case _ => Finished
  }

  /** What matters of a state on the way: the three workers, the queue and the control loop. */
  ghost predicate Scene(s: State, start: Worker, other: Worker, end: Worker, done: seq<nat>, ctl: Control) {
    && |s.wk| == |s.st| == 4 && s.wk[START] == start && s.wk[OTHER] == other && s.wk[END] == end
    && s.st[SUB] == Finished && s.wk[SUB] == Absent
    && s.st[OTHER] == StateOf(other) && s.st[END] == StateOf(end)
    && s.done == done && s.ctl == ctl && s.outcome == Waiting && s.errs == 0 && !s.finished
  }

  ghost predicate RunTo(cfg: Config, st0: seq<Status>, s: State)
    requires InRange(cfg.g) && |st0| == |cfg.g|
  {
    exists acts :: Runs(cfg, Launch(cfg.g, st0), acts) && s == After(cfg, Launch(cfg.g, st0), acts)
  }

  lemma Next(cfg: Config, st0: seq<Status>, s: State, a: Action) returns (t: State)
    requires InRange(cfg.g) && |st0| == |cfg.g| && Typed(cfg.g, s) && RunTo(cfg, st0, s) && Enabled(cfg, s, a)
    ensures t == Apply(cfg, s, a) && RunTo(cfg, st0, t)
  {
    var acts :| Runs(cfg, Launch(cfg.g, st0), acts) && s == After(cfg, Launch(cfg.g, st0), acts);
    t := Apply(cfg, s, a);
    var one := RunsCons(cfg, s, a, []);
    RunsConcat(cfg, Launch(cfg.g, st0), acts, one);
  }

  ghost predicate Sees(cfg: Config, st0: seq<Status>, s: State) {
    ForkShape(cfg) && |st0| == 4 && Typed(cfg.g, s) && RunTo(cfg, st0, s)
  }

  /** The start node's worker finishes its node and publishes it; the control loop takes it. */
  lemma StartTaken(cfg: Config, st0: seq<Status>, s: State) returns (t: State)
    requires Sees(cfg, st0, s) && Scene(s, Executing, Absent, Absent, [], Idle)
    ensures Sees(cfg, st0, t) && Scene(t, Exited, Absent, Absent, [], Visiting(START, 0))
  {
    t := Next(cfg, st0, s, Work(START, false));
    assert Scene(t, Publishing, Absent, Absent, [], Idle);
    t := Next(cfg, st0, t, Work(START, false));
    assert Scene(t, Exited, Absent, Absent, [START], Idle);
    t := Next(cfg, st0, t, Schedule);
  }

  /** The sub-graph node is not pending: its swap fails. */
  lemma SubPassed(cfg: Config, st0: seq<Status>, s: State) returns (t: State)
    requires Sees(cfg, st0, s) && Scene(s, Exited, Absent, Absent, [], Visiting(START, 0))
    ensures Sees(cfg, st0, t) && Scene(t, Exited, Absent, Absent, [], Visiting(START, 1))
  {
    t := Next(cfg, st0, s, Schedule);
    assert Scene(t, Exited, Absent, Absent, [], Reading(START, 0, 0, 0));
    t := Next(cfg, st0, t, Schedule);
  }

  lemma OtherStarted(cfg: Config, st0: seq<Status>, s: State) returns (t: State)
    requires Sees(cfg, st0, s) && Scene(s, Exited, Absent, Absent, [], Visiting(START, 1))
    ensures Sees(cfg, st0, t) && Scene(t, Exited, Executing, Absent, [], Idle)
  {
    t := Next(cfg, st0, s, Schedule);
    assert Scene(t, Exited, Absent, Absent, [], Reading(START, 1, 0, 0));
    t := Next(cfg, st0, t, Schedule);
    assert Scene(t, Exited, Executing, Absent, [], Visiting(START, 2));
    t := Next(cfg, st0, t, Schedule);
  }

  lemma OtherTaken(cfg: Config, st0: seq<Status>, s: State) returns (t: State)
    requires Sees(cfg, st0, s) && Scene(s, Exited, Executing, Absent, [], Idle)
    ensures Sees(cfg, st0, t) && Scene(t, Exited, Exited, Absent, [], Reading(OTHER, 0, 0, 0))
  {
    t := Next(cfg, st0, s, Work(OTHER, false));
    assert Scene(t, Exited, Publishing, Absent, [], Idle);
    t := Next(cfg, st0, t, Work(OTHER, false));
    assert Scene(t, Exited, Exited, Absent, [OTHER], Idle);
    t := Next(cfg, st0, t, Schedule);
    assert Scene(t, Exited, Exited, Absent, [], Visiting(OTHER, 0));
    t := Next(cfg, st0, t, Schedule);
  }

  /** Both predecessors of the end read as finished. */
  lemma EndStarted(cfg: Config, st0: seq<Status>, s: State) returns (t: State)
    requires Sees(cfg, st0, s) && Scene(s, Exited, Exited, Absent, [], Reading(OTHER, 0, 0, 0))
    ensures Sees(cfg, st0, t) && Scene(t, Exited, Exited, Executing, [], Idle)
  {
    t := Next(cfg, st0, s, Schedule);
    assert Scene(t, Exited, Exited, Absent, [], Reading(OTHER, 0, 1, 0));
    t := Next(cfg, st0, t, Schedule);
    assert Scene(t, Exited, Exited, Absent, [], Reading(OTHER, 0, 2, 0));
    t := Next(cfg, st0, t, Schedule);
    assert Scene(t, Exited, Exited, Executing, [], Visiting(OTHER, 1));
    t := Next(cfg, st0, t, Schedule);
  }

  lemma EndTold(cfg: Config, st0: seq<Status>, s: State) returns (t: State)
    requires Sees(cfg, st0, s) && Scene(s, Exited, Exited, Executing, [], Idle)
    ensures Sees(cfg, st0, t) && t.outcome == Success
  {
    t := Next(cfg, st0, s, Work(END, false));
    assert Scene(t, Exited, Exited, Publishing, [], Idle);
    t := Next(cfg, st0, t, Work(END, false));
    assert Scene(t, Exited, Exited, Exited, [END], Idle);
    t := Next(cfg, st0, t, Schedule);
    assert Scene(t, Exited, Exited, Exited, [], SignallingEnd);
    t := Next(cfg, st0, t, Schedule);
    t := Next(cfg, st0, t, Return(Success));
  }

  lemma SecondSucceeds(cfg: Config, st0: seq<Status>) returns (acts: seq<Action>, s: State)
    requires ForkShape(cfg) && st0 == [Pending, Pending, Finished, Pending]
    ensures Runs(cfg, Launch(cfg.g, st0), acts) && s == After(cfg, Launch(cfg.g, st0), acts) && s.outcome == Success
  {
    s := Launch(cfg.g, st0);
    assert Runs(cfg, s, []) && After(cfg, s, []) == s;
    s := StartTaken(cfg, st0, s);
    s := SubPassed(cfg, st0, s);
    s := OtherStarted(cfg, st0, s);
    s := OtherTaken(cfg, st0, s);
    s := EndStarted(cfg, st0, s);
    s := EndTold(cfg, st0, s);
    acts :| Runs(cfg, Launch(cfg.g, st0), acts) && s == After(cfg, Launch(cfg.g, st0), acts);
  }

  lemma FirstLeaves(cfg: Config, first: seq<Action>, s: State)
    requires Reached(cfg, first, s) && s.outcome == Success && Needed(cfg.g, SUB)
    requires |cfg.g| == 4 && cfg.g[SUB].kind == SubGraph && cfg.g[SUB].prev == []
    ensures |s.st| == |s.starts| == 4 && s.st[SUB] == Finished && s.starts[SUB] == 1
    ensures ResetStates(s.st, REGISTERED) == [Pending, Pending, Finished, Pending]
  {
    ReachedLive(cfg, first, s);
    ReturnsAreRight(cfg, first, s);
    assert WorkerOk(cfg, s.st, s.wk[SUB], s.starts[SUB], SUB);
  }

  lemma FirstSucceeds(cfg: Config) returns (first: seq<Action>, s: State)
    requires WellFormed(cfg.g) && Wired(cfg.g) && Roomy(cfg) && cfg.canFail == {}
    ensures Reached(cfg, first, s) && Stuck(cfg, s) && s.outcome == Success
  {
    first := RunsEnd(cfg, Init(cfg));
    s := After(cfg, Init(cfg), first);
    RunAlwaysReturns(cfg, first, s);
  }

  lemma ForkShaped()
    ensures ForkShape(ForkConfig())
  {
    ForkAcyclic();
  }

  lemma ForkRoomy()
    requires WellFormed(Fork())
    ensures Roomy(ForkConfig())
  {
    ForkKinds();
    PlainIsRoomy(ForkConfig());
  }

  /** A complete first run: it succeeds, and the sub-graph has been run. */
  ghost predicate FirstRun(cfg: Config, acts: seq<Action>, s: State) {
    && WellFormed(cfg.g) && Reached(cfg, acts, s) && Stuck(cfg, s) && s.outcome == Success
    && |s.st| == |s.starts| == |cfg.g| == 4 && s.starts[SUB] == 1
  }

  /** A second run, after the reset: it succeeds, and the sub-graph has not been run. */
  ghost predicate SecondRun(cfg: Config, left: seq<Status>, acts: seq<Action>, t: State) {
    && InRange(cfg.g) && |left| == |cfg.g| == 4
    && Runs(cfg, Launch(cfg.g, ResetStates(left, REGISTERED)), acts)
    && t == After(cfg, Launch(cfg.g, ResetStates(left, REGISTERED)), acts)
    && t.outcome == Success && |t.starts| == 4 && t.starts[SUB] == 0
  }

  lemma RunsTwice(cfg: Config) returns (first: seq<Action>, s: State, second: seq<Action>, t: State)
    requires ForkShape(cfg) && WellFormed(cfg.g) && Wired(cfg.g) && Needed(cfg.g, SUB) && Roomy(cfg) && cfg.canFail == {}
    ensures FirstRun(cfg, first, s)
    ensures SecondRun(cfg, s.st, second, t)
  {
    first, s := FirstSucceeds(cfg);
    FirstLeaves(cfg, first, s);
    second, t := SecondSucceeds(cfg, ResetStates(s.st, REGISTERED));
    MissedNeverStarted(cfg, s.st, REGISTERED, second, SUB);
  }

  /** After a complete and successful first run some second run
      reports success although the sub-graph has not been run. */
  lemma SuccessWithoutSubGraph() returns (first: seq<Action>, s: State, second: seq<Action>, t: State)
    ensures WellFormed(Fork()) && Wired(Fork()) && Needed(Fork(), SUB) && Roomy(ForkConfig())
    ensures FirstRun(ForkConfig(), first, s) && SecondRun(ForkConfig(), s.st, second, t)
  {
    ForkWellFormed();
    ForkWired();
    ForkRoomy();
    ForkShaped();
    first, s, second, t := RunsTwice(ForkConfig());
  }
}
