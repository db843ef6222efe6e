/** What a run must make of each node: a recursive evaluator, and the
    invariant of the node states that ties every interleaving to it. */
module Outcomes {
  import opened Graphs
  import opened Protocol

  lemma PredecessorRank(g: Graph, n: nat, k: nat)
    requires WellFormed(g) && n < |g| && k < |g[n].prev|
    ensures g[n].prev[k] < |g| && Rank(g, g[n].prev[k]) < Rank(g, n)
  {
    assert Edge(g, g[n].prev[k], n);
    EdgeRank(g, g[n].prev[k], n);
  }

  lemma PredecessorRanks(g: Graph, n: nat)
    requires WellFormed(g) && n < |g|
    ensures forall k :: 0 <= k < |g[n].prev| ==> g[n].prev[k] < |g| && Rank(g, g[n].prev[k]) < Rank(g, n)
  {
    forall k | 0 <= k < |g[n].prev|
      ensures g[n].prev[k] < |g| && Rank(g, g[n].prev[k]) < Rank(g, n)
    {
      PredecessorRank(g, n, k);
    }
  }

  /** The outcome of a node, computed from its predecessors alone: a branch follows
      its conditional's tags, or is skipped with it; any other node is skipped
      when it has predecessors and all of them are. */
  ghost function Eval(cfg: Config, n: nat): (r: Status)
    requires WellFormed(cfg.g) && n < |cfg.g|
    ensures r.Settled()
    decreases Rank(cfg.g, n)
  {
    PredecessorRanks(cfg.g, n);
    var prev := cfg.g[n].prev;
    if n == START then Finished
    else if cfg.g[n].kind == Virtual then
      if Eval(cfg, prev[0]) == Skipped then Skipped else BranchStatus(cfg, prev[0], n)
    else if prev != [] && forall k :: 0 <= k < |prev| ==> Eval(cfg, prev[k]) == Skipped then Skipped
    else Finished
  }

  // ---------- node states ----------

  ghost predicate PrevSettled(g: Graph, st: seq<Status>, n: nat)
    requires |st| == |g| && n < |g|
  {
    forall k :: 0 <= k < |g[n].prev| ==> g[n].prev[k] < |g| && st[g[n].prev[k]].Settled()
  }

  ghost predicate PrevSkipped(g: Graph, st: seq<Status>, n: nat)
    requires |st| == |g| && n < |g|
  {
    forall k :: 0 <= k < |g[n].prev| ==> g[n].prev[k] < |g| && st[g[n].prev[k]] == Skipped
  }

  /** Some edge leads to the node. */
  ghost predicate Fed(g: Graph, n: nat)
    requires n < |g|
  {
    g[n].prev != [] || n in g[START].next
  }

  /** A node other than the start leaves Pending only after the start has finished and all
      its predecessors have settled, and only if an edge leads to it; it settles as the
      evaluator says, and it runs only if it is not to be skipped. */
  ghost predicate NodeOk(cfg: Config, st: seq<Status>, n: nat)
    requires WellFormed(cfg.g) && |st| == |cfg.g| && n < |cfg.g|
  {
    && (st[n] != Pending ==> PrevSettled(cfg.g, st, n))
    && (st[n] != Pending && n != START ==> st[START] == Finished && Fed(cfg.g, n))
    && (st[n].Settled() ==> st[n] == Eval(cfg, n))
    && (st[n] == Running || st[n] == Failed ==>
          Eval(cfg, n) == Finished && cfg.g[n].kind != Virtual && n != START)
    && (st[n] == Failed ==> n in cfg.canFail && n != END)
  }

  ghost predicate StatesOk(cfg: Config, st: seq<Status>)
    requires WellFormed(cfg.g)
  {
    |st| == |cfg.g| && forall n :: 0 <= n < |cfg.g| ==> NodeOk(cfg, st, n)
  }

  lemma FreshOk(cfg: Config)
    requires WellFormed(cfg.g)
    ensures StatesOk(cfg, Fresh(|cfg.g|))
  {
  }

  /** Every settled or failed node keeps its state from `st` to `st'`. */
  ghost predicate Stable(st: seq<Status>, st': seq<Status>) {
    |st| == |st'| && forall n :: 0 <= n < |st| && st[n].Ended() ==> st'[n] == st[n]
  }

  /** One store keeps the invariant when it leaves nodes alone that have ended
      and is right for the node it touches. */
  lemma StoreKeeps(cfg: Config, st: seq<Status>, n: nat, x: Status)
    requires WellFormed(cfg.g) && StatesOk(cfg, st) && n < |cfg.g|
    requires st[n].Ended() ==> x == st[n]
    requires NodeOk(cfg, st[n := x], n)
    ensures StatesOk(cfg, st[n := x]) && Stable(st, st[n := x])
  {
    var st' := st[n := x];
    forall m | 0 <= m < |cfg.g|
      ensures NodeOk(cfg, st', m)
    {
      assert NodeOk(cfg, st, m);
    }
  }

  lemma PrevSettledStored(g: Graph, st: seq<Status>, n: nat, m: nat, x: Status)
    requires |st| == |g| && n < |g| && m < |g| && PrevSettled(g, st, n)
    requires st[m].Settled() ==> x == st[m]
    ensures PrevSettled(g, st[m := x], n)
  {
  }

  /** With all predecessors settled, skipping is right exactly when all are skipped. */
  lemma EvalFromStates(cfg: Config, st: seq<Status>, n: nat)
    requires WellFormed(cfg.g) && StatesOk(cfg, st) && n < |cfg.g| && n != START
    requires PrevSettled(cfg.g, st, n) && cfg.g[n].kind != Virtual
    ensures Eval(cfg, n) == if cfg.g[n].prev != [] && PrevSkipped(cfg.g, st, n) then Skipped else Finished
  {
    var prev := cfg.g[n].prev;
    forall k | 0 <= k < |prev|
      ensures Eval(cfg, prev[k]) == st[prev[k]]
    {
      assert NodeOk(cfg, st, prev[k]);
    }
  }

  lemma EvalSkippedBranch(cfg: Config, st: seq<Status>, v: nat)
    requires WellFormed(cfg.g) && StatesOk(cfg, st) && v < |cfg.g| && v != START
    requires cfg.g[v].kind == Virtual && PrevSkipped(cfg.g, st, v)
    ensures Eval(cfg, v) == Skipped
  {
    var c := cfg.g[v].prev[0];
    assert NodeOk(cfg, st, c);
  }

  lemma EvalChosenBranch(cfg: Config, st: seq<Status>, c: nat, v: nat)
    requires WellFormed(cfg.g) && StatesOk(cfg, st) && c < |cfg.g|
    requires cfg.g[c].kind == Conditional && st[c] == Finished && Edge(cfg.g, c, v)
    ensures cfg.g[v].kind == Virtual && v != START && v != c && cfg.g[v].prev == [c]
    ensures NodeOk(cfg, st[v := BranchStatus(cfg, c, v)], v)
  {
    var k :| 0 <= k < |cfg.g[c].next| && cfg.g[c].next[k] == v;
    assert cfg.g[cfg.g[c].next[k]].kind == Virtual;
    assert c in cfg.g[v].prev;
    assert NodeOk(cfg, st, c);
  }
}
