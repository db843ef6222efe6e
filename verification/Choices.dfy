/** Which nodes a run gets to, read off the graph and the tags
    alone: those that some path of answered branches leads to. */
module Choices {
  import opened Graphs
  import opened Protocol
  import opened Outcomes
  import opened Safety
  import opened Theorems

  /** Among the tags that conditional `c` answers is the name of its branch `v`. */
  predicate Answers(cfg: Config, c: nat, v: nat)
    requires v < |cfg.g|
  {
    c in cfg.tags && cfg.g[v].name in cfg.tags[c]
  }

  predicate OpenStep(cfg: Config, a: nat, b: nat)
    requires b < |cfg.g|
  {
    a in cfg.g[b].prev && (cfg.g[b].kind == Virtual ==> Answers(cfg, a, b))
  }

  /** A path to `n` from a node without predecessors, on which every branch's tag was answered. */
  ghost predicate OpenPath(cfg: Config, p: seq<nat>, n: nat) {
    && |p| > 0 && p[|p| - 1] == n
    && (forall i :: 0 <= i < |p| ==> p[i] < |cfg.g|)
    && cfg.g[p[0]].prev == []
    && forall i :: 0 < i < |p| ==> OpenStep(cfg, p[i - 1], p[i])
  }

  ghost predicate Chosen(cfg: Config, n: nat) {
    exists p :: OpenPath(cfg, p, n)
  }

  lemma ChosenFirst(cfg: Config, n: nat)
    requires n < |cfg.g| && cfg.g[n].prev == []
    ensures Chosen(cfg, n)
  {
    assert OpenPath(cfg, [n], n);
  }

  lemma ChosenNext(cfg: Config, a: nat, n: nat)
    requires n < |cfg.g| && Chosen(cfg, a) && OpenStep(cfg, a, n)
    ensures Chosen(cfg, n)
  {
    var p :| OpenPath(cfg, p, a);
    assert OpenPath(cfg, p + [n], n);
  }

  lemma ChosenBefore(cfg: Config, n: nat) returns (a: nat)
    requires n < |cfg.g| && Chosen(cfg, n) && cfg.g[n].prev != []
    ensures OpenStep(cfg, a, n) && Chosen(cfg, a)
  {
    var p :| OpenPath(cfg, p, n);
    var q := p[..|p| - 1];
    a := p[|p| - 2];
    assert OpenStep(cfg, p[|p| - 2], p[|p| - 1]);
    assert OpenPath(cfg, q, a);
  }

  /** Some step from a node that finishes leads to `n`. */
  ghost predicate Opened(cfg: Config, n: nat)
    requires WellFormed(cfg.g) && n < |cfg.g|
  {
    exists k :: 0 <= k < |cfg.g[n].prev| && OpenStep(cfg, cfg.g[n].prev[k], n) && Eval(cfg, cfg.g[n].prev[k]) == Finished
  }

  lemma EvalOpened(cfg: Config, n: nat)
    requires WellFormed(cfg.g) && n < |cfg.g| && cfg.g[n].prev != []
    ensures Eval(cfg, n) == Finished <==> Opened(cfg, n)
  {
    var prev := cfg.g[n].prev;
    if cfg.g[n].kind == Virtual {
      assert OpenStep(cfg, prev[0], n) <==> Answers(cfg, prev[0], n);
    } else {
      assert forall k :: 0 <= k < |prev| ==> OpenStep(cfg, prev[k], n);
    }
  }

  /** The evaluator finishes exactly the nodes with such a path, and skips the others. */
  lemma {:induction false} EvalIffChosen(cfg: Config, n: nat)
    requires WellFormed(cfg.g) && n < |cfg.g|
    ensures Eval(cfg, n) == Finished <==> Chosen(cfg, n)
    decreases Rank(cfg.g, n)
  {
    if cfg.g[n].prev == [] {
      ChosenFirst(cfg, n);
    } else {
      EvalOpened(cfg, n);
      if Opened(cfg, n) {
        var k :| 0 <= k < |cfg.g[n].prev| && OpenStep(cfg, cfg.g[n].prev[k], n) && Eval(cfg, cfg.g[n].prev[k]) == Finished;
        PredecessorRank(cfg.g, n, k);
        EvalIffChosen(cfg, cfg.g[n].prev[k]);
        ChosenNext(cfg, cfg.g[n].prev[k], n);
      } else if Chosen(cfg, n) {
        var a := ChosenBefore(cfg, n);
        var k :| 0 <= k < |cfg.g[n].prev| && cfg.g[n].prev[k] == a;
        PredecessorRank(cfg.g, n, k);
        EvalIffChosen(cfg, a);
        assert false;
      }
    }
  }

  // ---------- runs ----------

  /** A settled branch of a finished conditional is finished exactly when
      its name is among the tags the conditional has answered. */
  lemma BranchesFollowTags(cfg: Config, acts: seq<Action>, s: State, c: nat, v: nat)
    requires Reached(cfg, acts, s) && c < |cfg.g| && cfg.g[c].kind == Conditional && Edge(cfg.g, c, v)
    requires s.st[c] == Finished && s.st[v].Settled()
    ensures s.st[v] == Finished <==> c in cfg.tags && cfg.g[v].name in cfg.tags[c]
  {
    Confluence(cfg, acts, s, c);
    Confluence(cfg, acts, s, v);
    ConditionalParent(cfg, c, v);
  }

  /** In every interleaving a settled node is finished exactly when some path of answered branches
      leads to it, and only such a node's function is ever started, and once. */
  lemma OnlyChosenStart(cfg: Config, acts: seq<Action>, s: State, n: nat)
    requires Reached(cfg, acts, s) && n < |cfg.g|
    ensures s.st[n].Settled() ==> (s.st[n] == Finished <==> Chosen(cfg, n))
    ensures s.starts[n] == 0 || (s.starts[n] == 1 && Chosen(cfg, n) && cfg.g[n].kind != Virtual)
  {
    ReachedLive(cfg, acts, s);
    assert NodeOk(cfg, s.st, n) && WorkerOk(cfg, s.st, s.wk[n], s.starts[n], n);
    EvalIffChosen(cfg, n);
    if n == START {
      ChosenFirst(cfg, START);
    }
  }

  /** When a run has succeeded, each function that the end waits for was started exactly
      once if some path of answered branches leads to its node, and otherwise never. */
  lemma ChosenAreStarted(cfg: Config, acts: seq<Action>, s: State, n: nat)
    requires Reached(cfg, acts, s) && s.outcome == Success
    requires n < |cfg.g| && Needed(cfg.g, n) && cfg.g[n].kind != Virtual
    ensures s.starts[n] == if Chosen(cfg, n) then 1 else 0
  {
    ReachedLive(cfg, acts, s);
    ReturnsAreRight(cfg, acts, s);
    assert NodeOk(cfg, s.st, n) && WorkerOk(cfg, s.st, s.wk[n], s.starts[n], n);
    EvalIffChosen(cfg, n);
  }
}
