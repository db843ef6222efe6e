/** How many messages a run can send, counted beforehand from the graph and the tags:
    a node that finishes is published once, one that is skipped once for each message
    that finds it so. */
module Messages {
  import opened Graphs
  import opened Protocol
  import opened Outcomes
  import opened Safety
  import opened Bounds

  // ---------- the count ----------

  /** A node a run can get to: an edge leads to it, and it can get to all predecessors. */
  ghost predicate Served(g: Graph, n: nat)
    requires WellFormed(g) && n < |g|
    decreases Rank(g, n)
  {
    PredecessorRanks(g, n);
    n == START || (Fed(g, n) && forall k :: 0 <= k < |g[n].prev| ==> Served(g, g[n].prev[k]))
  }

  ghost predicate Counted(cfg: Config, n: nat)
    requires WellFormed(cfg.g) && n < |cfg.g|
  {
    Served(cfg.g, n) && Eval(cfg, n) == Finished
  }

  /** The messages that come of finding `n` to be skipped: one about
      itself, and those about the nodes that this one finds skipped. */
  ghost function SkipCost(cfg: Config, n: nat): nat
    requires WellFormed(cfg.g) && n < |cfg.g|
    decreases |cfg.g| - Rank(cfg.g, n), |cfg.g[n].next| + 1
  {
    if Eval(cfg, n) == Skipped then 1 + SkipCosts(cfg, n, 0) else 0
  }

  /** The same for the successors of `n` from `i` on. */
  ghost function SkipCosts(cfg: Config, n: nat, i: nat): nat
    requires WellFormed(cfg.g) && n < |cfg.g| && i <= |cfg.g[n].next|
    decreases |cfg.g| - Rank(cfg.g, n), |cfg.g[n].next| - i
  {
    if i == |cfg.g[n].next| then 0
    else
      assert Edge(cfg.g, n, cfg.g[n].next[i]);
      EdgeRank(cfg.g, n, cfg.g[n].next[i]);
      SkipCost(cfg, cfg.g[n].next[i]) + SkipCosts(cfg, n, i + 1)
  }

  /** For each node the cost of finding it skipped; and what it sends of its own if it finishes:
      a message about itself, unless it is a conditional, and those about the nodes then skipped. */
  datatype Prices = Prices(cost: seq<nat>, own: seq<nat>)

  ghost function OwnPrice(cfg: Config, cost: seq<nat>, n: nat): nat
    requires WellFormed(cfg.g) && n < |cfg.g|
  {
    if !Counted(cfg, n) then 0
    else SumNext(cost, cfg.g[n].next, 0) + if cfg.g[n].kind == Conditional then 0 else 1
  }

  ghost predicate PricedAt(cfg: Config, p: Prices, n: nat)
    requires WellFormed(cfg.g) && n < |cfg.g| == |p.cost| == |p.own|
  {
    && p.cost[n] == (if Eval(cfg, n) == Skipped then 1 + SumNext(p.cost, cfg.g[n].next, 0) else 0)
    && p.own[n] == OwnPrice(cfg, p.cost, n)
  }

  ghost predicate Priced(cfg: Config, p: Prices)
    requires WellFormed(cfg.g)
  {
    |p.cost| == |p.own| == |cfg.g| && forall n :: 0 <= n < |cfg.g| ==> PricedAt(cfg, p, n)
  }

  ghost function Costs(cfg: Config): (cost: seq<nat>)
    requires WellFormed(cfg.g)
    ensures |cost| == |cfg.g| && forall n :: 0 <= n < |cfg.g| ==> cost[n] == SkipCost(cfg, n)
  {
    seq(|cfg.g|, n requires 0 <= n < |cfg.g| => SkipCost(cfg, n))
  }

  ghost function PricesOf(cfg: Config): (p: Prices)
    requires WellFormed(cfg.g)
    ensures p.cost == Costs(cfg) && |p.own| == |cfg.g|
    ensures forall n :: 0 <= n < |cfg.g| ==> p.own[n] == OwnPrice(cfg, p.cost, n)
  {
    Prices(Costs(cfg), seq(|cfg.g|, n requires 0 <= n < |cfg.g| => OwnPrice(cfg, Costs(cfg), n)))
  }

  lemma {:induction false} SkipCostsAre(cfg: Config, n: nat, i: nat)
    requires WellFormed(cfg.g) && n < |cfg.g| && i <= |cfg.g[n].next|
    ensures SkipCosts(cfg, n, i) == SumNext(Costs(cfg), cfg.g[n].next, i)
    decreases |cfg.g[n].next| - i
  {
    if i < |cfg.g[n].next| {
      SkipCostsAre(cfg, n, i + 1);
    }
  }

  lemma PricesAreRight(cfg: Config)
    requires WellFormed(cfg.g)
    ensures Priced(cfg, PricesOf(cfg))
  {
    forall n | 0 <= n < |cfg.g|
      ensures PricedAt(cfg, PricesOf(cfg), n)
    {
      SkipCostsAre(cfg, n, 0);
    }
  }

  ghost function MessageCount(cfg: Config): nat
    requires WellFormed(cfg.g)
  {
    Sum(PricesOf(cfg).own)
  }

  // ---------- what is left of it during a run ----------

  ghost function NodeLeft(g: Graph, p: Prices, n: nat, x: Status, k: Worker): nat
    requires n < |g| == |p.cost| == |p.own| && WorkerInRange(g, n, k)
  {
    match k
    case Absent => if x == Pending then p.own[n] else 0
    case Executing => p.own[n]
    case Publishing => 1 + SumNext(p.cost, g[n].next, 0)
    case Settling(i) => SumNext(p.cost, g[n].next, i)
    case PublishingBranch(i) => 1 + SumNext(p.cost, g[g[n].next[i]].next, 0) + SumNext(p.cost, g[n].next, i + 1)
    case _ => 0
  }

  ghost predicate NodesInRange(g: Graph, st: seq<Status>, wk: seq<Worker>) {
    |st| == |wk| == |g| && forall n :: 0 <= n < |g| ==> WorkerInRange(g, n, wk[n])
  }

  ghost function NodesLeft(g: Graph, p: Prices, st: seq<Status>, wk: seq<Worker>): (f: seq<nat>)
    requires |g| == |p.cost| == |p.own| && NodesInRange(g, st, wk)
    ensures |f| == |g| && forall n :: 0 <= n < |g| ==> f[n] == NodeLeft(g, p, n, st[n], wk[n])
  {
    seq(|g|, n requires 0 <= n < |g| => NodeLeft(g, p, n, st[n], wk[n]))
  }

  ghost function ControlLeft(g: Graph, p: Prices, ctl: Control): nat
    requires ControlInRange(g, ctl)
  {
    match ctl
    case Visiting(cur, i) => SumNext(p.cost, g[cur].next, i)
    case Reading(cur, i, _, _) => SumNext(p.cost, g[cur].next, i)
    case PublishingSkip(cur, i) => SumNext(p.cost, g[cur].next, i)
    case _ => 0
  }

  ghost function DoneLeft(g: Graph, p: Prices, done: seq<nat>): (f: seq<nat>)
    requires forall k :: 0 <= k < |done| ==> done[k] < |g|
    ensures |f| == |done| && forall k :: 0 <= k < |done| ==> f[k] == SumNext(p.cost, g[done[k]].next, 0)
  {
    seq(|done|, k requires 0 <= k < |done| && done[k] < |g| => SumNext(p.cost, g[done[k]].next, 0))
  }

  /** A bound on the messages the goroutines can still send from `s` on. */
  ghost function Left(g: Graph, p: Prices, s: State): nat
    requires Typed(g, s) && |g| == |p.cost| == |p.own|
  {
    Sum(NodesLeft(g, p, s.st, s.wk)) + Sum(DoneLeft(g, p, s.done)) + ControlLeft(g, p, s.ctl)
  }

  /** Sent so far and still to come are within the count. */
  ghost predicate Budgeted(g: Graph, p: Prices, s: State)
    requires Typed(g, s)
  {
    && |g| == |p.cost| == |p.own|
    && s.pushed + Left(g, p, s) <= Sum(p.own) && |s.done| <= s.pushed
  }

  lemma NodesLeftChange(g: Graph, p: Prices, st: seq<Status>, wk: seq<Worker>, n: nat, x: Status, k: Worker)
    requires |g| == |p.cost| == |p.own| && NodesInRange(g, st, wk) && n < |g| && WorkerInRange(g, n, k)
    ensures Sum(NodesLeft(g, p, st[n := x], wk[n := k])) + NodeLeft(g, p, n, st[n], wk[n])
            == Sum(NodesLeft(g, p, st, wk)) + NodeLeft(g, p, n, x, k)
  {
    assert NodesLeft(g, p, st[n := x], wk[n := k]) == NodesLeft(g, p, st, wk)[n := NodeLeft(g, p, n, x, k)];
    SumUpdate(NodesLeft(g, p, st, wk), n, NodeLeft(g, p, n, x, k));
  }

  lemma DoneLeftChange(g: Graph, p: Prices, done: seq<nat>, n: nat)
    requires n < |g| && forall k :: 0 <= k < |done| ==> done[k] < |g|
    ensures Sum(DoneLeft(g, p, done + [n])) == Sum(DoneLeft(g, p, done)) + SumNext(p.cost, g[n].next, 0)
  {
    assert DoneLeft(g, p, done + [n]) == DoneLeft(g, p, done) + [SumNext(p.cost, g[n].next, 0)];
    SumAppend(DoneLeft(g, p, done), SumNext(p.cost, g[n].next, 0));
  }

  // ---------- what each step must be able to pay ----------

  /** A step that changes one node and its worker, and sends nothing. */
  lemma OneNodeBudget(g: Graph, p: Prices, s: State, t: State, n: nat, x: Status, k: Worker)
    requires Typed(g, s) && Typed(g, t) && Budgeted(g, p, s) && n < |g| && WorkerInRange(g, n, k)
    requires NodeLeft(g, p, n, x, k) + ControlLeft(g, p, t.ctl) <= NodeLeft(g, p, n, s.st[n], s.wk[n]) + ControlLeft(g, p, s.ctl)
    requires t.st == s.st[n := x] && t.wk == s.wk[n := k] && t.done == s.done && t.pushed == s.pushed
    ensures Budgeted(g, p, t)
  {
    NodesLeftChange(g, p, s.st, s.wk, n, x, k);
  }

  /** A step that stores the state of `v` while the worker of `n` moves on. */
  lemma TwoNodesBudget(g: Graph, p: Prices, s: State, t: State, v: nat, n: nat)
    requires Typed(g, s) && Typed(g, t) && Budgeted(g, p, s) && n < |g| && v < |g| && v != n
    requires NodeLeft(g, p, v, s.st[v], s.wk[v]) + NodeLeft(g, p, n, s.st[n], s.wk[n])
             >= NodeLeft(g, p, v, t.st[v], s.wk[v]) + NodeLeft(g, p, n, s.st[n], t.wk[n])
    requires t == s.(st := s.st[v := t.st[v]], wk := s.wk[n := t.wk[n]])
    ensures Budgeted(g, p, t)
  {
    NodesLeftChange(g, p, s.st, s.wk, v, t.st[v], s.wk[v]);
    assert s.wk[v := s.wk[v]] == s.wk && t.st[n := t.st[n]] == t.st;
    NodesLeftChange(g, p, t.st, s.wk, n, t.st[n], t.wk[n]);
  }

  /** A worker's step that publishes `m`. */
  lemma SendBudget(g: Graph, p: Prices, s: State, t: State, n: nat, k: Worker, m: nat)
    requires Typed(g, s) && Typed(g, t) && Budgeted(g, p, s) && n < |g| && m < |g| && WorkerInRange(g, n, k)
    requires NodeLeft(g, p, n, s.st[n], s.wk[n]) >= NodeLeft(g, p, n, s.st[n], k) + 1 + SumNext(p.cost, g[m].next, 0)
    requires t == s.(wk := s.wk[n := k], done := s.done + [m], pushed := s.pushed + 1)
    ensures Budgeted(g, p, t)
  {
    NodesLeftChange(g, p, s.st, s.wk, n, s.st[n], k);
    assert s.st[n := s.st[n]] == s.st;
    DoneLeftChange(g, p, s.done, m);
  }

  // ---------- the steps of a worker ----------

  /** A node that has left Pending is served. */
  lemma {:induction false} ReachedServed(cfg: Config, st: seq<Status>, n: nat)
    requires WellFormed(cfg.g) && StatesOk(cfg, st) && n < |cfg.g| && st[n] != Pending
    ensures Served(cfg.g, n)
    decreases Rank(cfg.g, n)
  {
    assert NodeOk(cfg, st, n);
    forall k | 0 <= k < |cfg.g[n].prev|
      ensures Served(cfg.g, cfg.g[n].prev[k])
    {
      PredecessorRank(cfg.g, n, k);
      ReachedServed(cfg, st, cfg.g[n].prev[k]);
    }
  }

  /** A running node has its own price left to spend. */
  lemma ExecutingPrice(cfg: Config, p: Prices, s: State, n: nat)
    requires Safe(cfg, s) && Priced(cfg, p) && n < |cfg.g| && s.wk[n] == Executing
    ensures p.own[n] == SumNext(p.cost, cfg.g[n].next, 0) + if cfg.g[n].kind == Conditional then 0 else 1
  {
    assert WorkerOk(cfg, s.st, s.wk[n], s.starts[n], n) && NodeOk(cfg, s.st, n);
    if n != START {
      ReachedServed(cfg, s.st, n);
    }
    assert Counted(cfg, n) && PricedAt(cfg, p, n);
  }

  lemma FinishNodeBudget(g: Graph, p: Prices, s: State, n: nat)
    requires Typed(g, s) && Budgeted(g, p, s) && n < |g| && s.wk[n] == Executing
    requires p.own[n] == SumNext(p.cost, g[n].next, 0) + if g[n].kind == Conditional then 0 else 1
    ensures Budgeted(g, p, FinishNode(g, s, n)) && Budgeted(g, p, FailNode(g, s, n))
  {
    OneNodeBudget(g, p, s, FinishNode(g, s, n), n, Finished, FinishNode(g, s, n).wk[n]);
    OneNodeBudget(g, p, s, FailNode(g, s, n), n, Failed, Reporting);
  }

  lemma LeaveBudget(g: Graph, p: Prices, s: State, t: State, n: nat)
    requires Typed(g, s) && Typed(g, t) && Budgeted(g, p, s) && n < |g|
    requires t == s.(wk := s.wk[n := Exited], errs := t.errs)
    ensures Budgeted(g, p, t)
  {
    assert s.st[n := s.st[n]] == s.st;
    OneNodeBudget(g, p, s, t, n, s.st[n], Exited);
  }

  lemma PublishBudget(g: Graph, p: Prices, s: State, n: nat)
    requires Typed(g, s) && Budgeted(g, p, s) && n < |g|
    ensures s.wk[n] == Publishing ==> Budgeted(g, p, PublishNode(g, s, n))
    ensures s.wk[n].PublishingBranch? ==> Budgeted(g, p, PublishBranch(g, s, n))
  {
    if s.wk[n] == Publishing {
      SendBudget(g, p, s, PublishNode(g, s, n), n, Exited, n);
    }
    if s.wk[n].PublishingBranch? {
      SendBudget(g, p, s, PublishBranch(g, s, n), n, Settling(s.wk[n].i + 1), g[n].next[s.wk[n].i]);
    }
  }

  /** A branch is pending before it is settled, and as the evaluator says afterwards. */
  lemma SettleBranchFacts(cfg: Config, s: State, n: nat, i: nat, v: nat)
    requires Safe(cfg, s) && n < |cfg.g| && s.wk[n] == Settling(i) && i < |cfg.g[n].next| && cfg.g[n].next[i] == v
    ensures v < |cfg.g| && v != n && s.wk[v] == Absent && s.st[v] == Pending
    ensures SettleBranch(cfg, s, n).st[v] == Eval(cfg, v)
    ensures cfg.g[v].kind != Conditional && Served(cfg.g, v)
  {
    assert WorkerOk(cfg, s.st, s.wk[n], s.starts[n], n);
    assert Edge(cfg.g, n, v);
    EvalChosenBranch(cfg, s.st, n, v);
    assert WorkerOk(cfg, s.st, s.wk[v], s.starts[v], v);
    SettleBranchSafe(cfg, s, n);
    ReachedServed(cfg, SettleBranch(cfg, s, n).st, v);
  }

  /** A branch to be skipped is paid for by its conditional, one to be finished by itself. */
  lemma BranchPrice(cfg: Config, p: Prices, n: nat, i: nat, v: nat)
    requires WellFormed(cfg.g) && Priced(cfg, p) && n < |cfg.g| && i < |cfg.g[n].next| && cfg.g[n].next[i] == v
    requires v < |cfg.g| && cfg.g[v].kind != Conditional && Served(cfg.g, v)
    ensures p.own[v] + SumNext(p.cost, cfg.g[n].next, i) == 1 + SumNext(p.cost, cfg.g[v].next, 0) + SumNext(p.cost, cfg.g[n].next, i + 1)
  {
    assert PricedAt(cfg, p, v);
    assert SumNext(p.cost, cfg.g[n].next, i) == p.cost[v] + SumNext(p.cost, cfg.g[n].next, i + 1);
  }

  lemma PaidBranchBudget(cfg: Config, p: Prices, s: State, n: nat, i: nat, v: nat)
    requires Typed(cfg.g, s) && Budgeted(cfg.g, p, s) && n < |cfg.g| && s.wk[n] == Settling(i) && i < |cfg.g[n].next|
    requires cfg.g[n].next[i] == v && v != n && v < |cfg.g| && s.wk[v] == Absent && s.st[v] == Pending
    requires p.own[v] + SumNext(p.cost, cfg.g[n].next, i) == 1 + SumNext(p.cost, cfg.g[v].next, 0) + SumNext(p.cost, cfg.g[n].next, i + 1)
    ensures Budgeted(cfg.g, p, SettleBranch(cfg, s, n))
  {
    TwoNodesBudget(cfg.g, p, s, SettleBranch(cfg, s, n), v, n);
  }

  lemma SettleBranchBudget(cfg: Config, p: Prices, s: State, n: nat, i: nat, v: nat)
    requires Safe(cfg, s) && Priced(cfg, p) && Budgeted(cfg.g, p, s)
    requires n < |cfg.g| && s.wk[n] == Settling(i) && i < |cfg.g[n].next| && cfg.g[n].next[i] == v
    ensures Budgeted(cfg.g, p, SettleBranch(cfg, s, n))
  {
    SettleBranchFacts(cfg, s, n, i, v);
    BranchPrice(cfg, p, n, i, v);
    PaidBranchBudget(cfg, p, s, n, i, v);
  }

  lemma WorkedBudget(cfg: Config, p: Prices, s: State, n: nat, fails: bool)
    requires Safe(cfg, s) && Priced(cfg, p) && WorkEnabled(cfg, s, n, fails) && Budgeted(cfg.g, p, s)
    ensures Budgeted(cfg.g, p, Worked(cfg, s, n, fails))
  {
    match s.wk[n] {
      case Executing =>
        ExecutingPrice(cfg, p, s, n);
        FinishNodeBudget(cfg.g, p, s, n);
      case Publishing => PublishBudget(cfg.g, p, s, n);
      case Settling(i) =>
        if i == |cfg.g[n].next| {
          LeaveBudget(cfg.g, p, s, Worked(cfg, s, n, fails), n);
        } else {
          SettleBranchBudget(cfg, p, s, n, i, cfg.g[n].next[i]);
        }
      case PublishingBranch(_) => PublishBudget(cfg.g, p, s, n);
      case Reporting => LeaveBudget(cfg.g, p, s, Worked(cfg, s, n, fails), n);
    }
  }

  // ---------- the steps of the control loop ----------

  lemma PopBudget(g: Graph, p: Prices, s: State)
    requires Typed(g, s) && s.ctl == Idle && s.done != [] && Budgeted(g, p, s)
    ensures Budgeted(g, p, Pop(g, s))
  {
    assert DoneLeft(g, p, s.done)[1..] == DoneLeft(g, p, s.done[1..]);
  }

  lemma ReadBudget(g: Graph, p: Prices, s: State)
    requires Typed(g, s) && s.ctl.Reading? && s.ctl.j < |g[Target(g, s.ctl)].prev| && Budgeted(g, p, s)
    ensures Budgeted(g, p, ReadPredecessor(g, s))
  {
  }

  /** A node that is skipped leaves nothing unspent, one that is started keeps its price. */
  lemma DecideBudget(g: Graph, p: Prices, s: State)
    requires Typed(g, s) && AllRead(g, s) && Budgeted(g, p, s)
    requires g[Target(g, s.ctl)].kind != Virtual && s.st[Target(g, s.ctl)] == Pending ==> s.wk[Target(g, s.ctl)] == Absent
    ensures Budgeted(g, p, SkipNode(g, s)) && Budgeted(g, p, StartNode(g, s))
  {
    var n := Target(g, s.ctl);
    assert s.wk[n := s.wk[n]] == s.wk && s.st[n := s.st[n]] == s.st;
    OneNodeBudget(g, p, s, SkipNode(g, s), n, Skipped, s.wk[n]);
    OneNodeBudget(g, p, s, StartNode(g, s), n, StartNode(g, s).st[n], StartNode(g, s).wk[n]);
  }

  lemma TargetAbsent(cfg: Config, s: State)
    requires Safe(cfg, s) && AllRead(cfg.g, s) && s.st[Target(cfg.g, s.ctl)] == Pending
    ensures s.wk[Target(cfg.g, s.ctl)] == Absent
  {
    var n := Target(cfg.g, s.ctl);
    ScanComplete(cfg, s);
    assert WorkerOk(cfg, s.st, s.wk[n], s.starts[n], n);
  }

  lemma SkippedTarget(cfg: Config, s: State)
    requires Safe(cfg, s) && s.ctl.PublishingSkip?
    ensures Eval(cfg, Target(cfg.g, s.ctl)) == Skipped
  {
    assert NodeOk(cfg, s.st, Target(cfg.g, s.ctl));
  }

  lemma PublishSkippedBudget(g: Graph, p: Prices, s: State)
    requires Typed(g, s) && s.ctl.PublishingSkip? && Budgeted(g, p, s)
    requires p.cost[Target(g, s.ctl)] == 1 + SumNext(p.cost, g[Target(g, s.ctl)].next, 0)
    ensures Budgeted(g, p, PublishSkipped(g, s))
  {
    DoneLeftChange(g, p, s.done, Target(g, s.ctl));
  }

  lemma ScheduledBudget(cfg: Config, p: Prices, s: State)
    requires Safe(cfg, s) && Priced(cfg, p) && ScheduleEnabled(s) && Budgeted(cfg.g, p, s)
    ensures Budgeted(cfg.g, p, Scheduled(cfg.g, s))
  {
    match s.ctl {
      case Idle => PopBudget(cfg.g, p, s);
      case Reading(_, _, _, _) =>
        if !AllRead(cfg.g, s) {
          ReadBudget(cfg.g, p, s);
        } else {
          if s.st[Target(cfg.g, s.ctl)] == Pending {
            TargetAbsent(cfg, s);
          }
          DecideBudget(cfg.g, p, s);
        }
      case PublishingSkip(_, _) =>
        SkippedTarget(cfg, s);
        assert PricedAt(cfg, p, Target(cfg.g, s.ctl));
        PublishSkippedBudget(cfg.g, p, s);
      case _ =>
    }
  }

  lemma StepBudget(cfg: Config, p: Prices, s: State, a: Action)
    requires Safe(cfg, s) && Priced(cfg, p) && Enabled(cfg, s, a) && Budgeted(cfg.g, p, s)
    ensures Budgeted(cfg.g, p, Apply(cfg, s, a))
  {
    match a {
      case Work(n, fails) => WorkedBudget(cfg, p, s, n, fails);
      case Schedule => ScheduledBudget(cfg, p, s);
      case Return(_) =>
    }
  }

  lemma InitBudget(cfg: Config, p: Prices)
    requires WellFormed(cfg.g) && Priced(cfg, p)
    ensures Typed(cfg.g, Init(cfg)) && Budgeted(cfg.g, p, Init(cfg))
  {
    var s := Init(cfg);
    assert NodesLeft(cfg.g, p, s.st, s.wk) == p.own;
  }

  lemma {:induction false} RunBudget(cfg: Config, p: Prices, s: State, acts: seq<Action>)
    requires Safe(cfg, s) && Priced(cfg, p) && Runs(cfg, s, acts) && Budgeted(cfg.g, p, s)
    ensures Budgeted(cfg.g, p, After(cfg, s, acts))
    decreases |acts|
  {
    if acts != [] {
      StepSafe(cfg, s, acts[0]);
      StepBudget(cfg, p, s, acts[0]);
      RunBudget(cfg, p, Apply(cfg, s, acts[0]), acts[1..]);
    }
  }

  // ---------- room for the next message ----------

  ghost predicate WantsToSend(s: State) {
    s.ctl.PublishingSkip? || exists n :: 0 <= n < |s.wk| && (s.wk[n] == Publishing || s.wk[n].PublishingBranch?)
  }

  /** A goroutine about to send has its message still within the count. */
  lemma RoomToSend(g: Graph, p: Prices, s: State)
    requires Typed(g, s) && Budgeted(g, p, s) && WantsToSend(s)
    requires s.ctl.PublishingSkip? ==> p.cost[Target(g, s.ctl)] > 0
    ensures |s.done| < Sum(p.own)
  {
    if !s.ctl.PublishingSkip? {
      var n :| 0 <= n < |s.wk| && (s.wk[n] == Publishing || s.wk[n].PublishingBranch?);
      SumAtLeast(NodesLeft(g, p, s.st, s.wk), n);
    }
  }

  // ---------- the count and the paths of the graph ----------

  /** The weights of the nodes below `k` that are in `next`, each of them once. */
  ghost function SumOver(f: seq<nat>, next: seq<nat>, k: nat): nat
    requires k <= |f|
  {
    if k == 0 then 0 else SumOver(f, next, k - 1) + if k - 1 in next then f[k - 1] else 0
  }

  lemma {:induction false} SumOverNext(f: seq<nat>, next: seq<nat>, k: nat)
    requires k <= |f| && next != []
    ensures SumOver(f, next, k) <= SumOver(f, next[1..], k) + if next[0] < k then f[next[0]] else 0
    decreases k
  {
    if k > 0 {
      SumOverNext(f, next, k - 1);
      assert next == [next[0]] + next[1..];
    }
  }

  lemma {:induction false} SumOverEmpty(f: seq<nat>, k: nat)
    requires k <= |f|
    ensures SumOver(f, [], k) == 0
    decreases k
  {
    if k > 0 {
      SumOverEmpty(f, k - 1);
    }
  }

  /** Two weights that no node has both of, each within `w`: summed over
      the edges and over the nodes they are together within `w` summed over the edges. */
  lemma {:induction false} SumsApart(cost: seq<nat>, f: seq<nat>, w: seq<nat>, next: seq<nat>, i: nat)
    requires |cost| == |f| == |w| && i <= |next|
    requires forall k :: i <= k < |next| ==> next[k] < |w| && cost[next[k]] + f[next[k]] <= w[next[k]]
    ensures SumNext(cost, next, i) + SumOver(f, next[i..], |f|) <= SumNext(w, next, i)
    decreases |next| - i
  {
    if i == |next| {
      SumOverEmpty(f, |f|);
    } else {
      SumsApart(cost, f, w, next, i + 1);
      SumOverNext(f, next[i..], |f|);
      assert next[i..][1..] == next[i + 1..];
    }
  }

  ghost function CountedOnly(cfg: Config, w: seq<nat>): (f: seq<nat>)
    requires WellFormed(cfg.g) && |w| == |cfg.g|
    ensures |f| == |cfg.g| && forall n :: 0 <= n < |f| ==> f[n] == if Counted(cfg, n) then w[n] else 0
  {
    seq(|cfg.g|, n requires 0 <= n < |cfg.g| => if Counted(cfg, n) then w[n] else 0)
  }

  /** The paths by way of skipped successors and by way of counted ones are different paths. */
  lemma {:induction false} PathsApart(cfg: Config, p: Prices, w: seq<nat>, n: nat)
    requires WellFormed(cfg.g) && Priced(cfg, p) && Weighs(cfg.g, Ones(cfg.g), w) && n < |cfg.g|
    ensures SumNext(p.cost, cfg.g[n].next, 0) + SumOver(CountedOnly(cfg, w), cfg.g[n].next, |cfg.g|) + 1 <= w[n]
    decreases |cfg.g| - Rank(cfg.g, n)
  {
    var next, f := cfg.g[n].next, CountedOnly(cfg, w);
    forall k | 0 <= k < |next|
      ensures next[k] < |w| && p.cost[next[k]] + f[next[k]] <= w[next[k]]
    {
      assert Edge(cfg.g, n, next[k]);
      EdgeRank(cfg.g, n, next[k]);
      PathsApart(cfg, p, w, next[k]);
      assert PricedAt(cfg, p, next[k]);
    }
    assert WeighsAt(cfg.g, Ones(cfg.g), w, n);
    SumsApart(p.cost, f, w, next, 0);
    assert next[0..] == next;
  }

  /** A counted node other than the start follows another counted node. */
  lemma CountedBefore(cfg: Config, n: nat) returns (m: nat)
    requires WellFormed(cfg.g) && n < |cfg.g| && n != START && Counted(cfg, n)
    ensures m < |cfg.g| && Counted(cfg, m) && Edge(cfg.g, m, n)
  {
    var prev := cfg.g[n].prev;
    if prev == [] {
      m := START;
    } else {
      var k :| 0 <= k < |prev| && Eval(cfg, prev[k]) == Finished;
      m := prev[k];
      PredecessorRank(cfg.g, n, k);
      assert Edge(cfg.g, prev[k], n);
    }
  }

  ghost function Rows(cfg: Config, f: seq<nat>, k: nat): (r: seq<nat>)
    requires WellFormed(cfg.g) && |f| == |cfg.g| && k <= |cfg.g|
    ensures |r| == |cfg.g|
    ensures forall n :: 0 <= n < |r| ==> r[n] == if Counted(cfg, n) then SumOver(f, cfg.g[n].next, k) else 0
  {
    seq(|cfg.g|, n requires 0 <= n < |cfg.g| => if Counted(cfg, n) then SumOver(f, cfg.g[n].next, k) else 0)
  }

  ghost function Columns(f: seq<nat>, k: nat): (r: seq<nat>)
    requires k <= |f|
    ensures |r| == |f| && forall n :: 0 <= n < |r| ==> r[n] == if n < k && n != START then f[n] else 0
  {
    seq(|f|, n requires 0 <= n < |f| => if n < k && n != START then f[n] else 0)
  }

  lemma RowsGrow(cfg: Config, f: seq<nat>, m: nat)
    requires WellFormed(cfg.g) && |f| == |cfg.g| && m < |cfg.g|
    ensures Sum(Rows(cfg, f, m)) <= Sum(Rows(cfg, f, m + 1))
    ensures m != START && Counted(cfg, m) ==> Sum(Rows(cfg, f, m)) + f[m] <= Sum(Rows(cfg, f, m + 1))
  {
    SumGrows(Rows(cfg, f, m), Rows(cfg, f, m + 1), START, 0);
    if m != START && Counted(cfg, m) {
      var n := CountedBefore(cfg, m);
      SumGrows(Rows(cfg, f, m), Rows(cfg, f, m + 1), n, f[m]);
    }
  }

  lemma ColumnsGrow(f: seq<nat>, m: nat)
    requires m < |f|
    ensures Sum(Columns(f, m + 1)) == Sum(Columns(f, m)) + if m != START then f[m] else 0
  {
    var x := if m != START then f[m] else 0;
    assert Columns(f, m + 1) == Columns(f, m)[m := x];
    SumUpdate(Columns(f, m), m, x);
  }

  lemma {:induction false} ColumnsWithinRows(cfg: Config, f: seq<nat>, k: nat)
    requires WellFormed(cfg.g) && |f| == |cfg.g| && k <= |cfg.g|
    requires forall n :: 0 <= n < |f| && !Counted(cfg, n) ==> f[n] == 0
    ensures Sum(Columns(f, k)) <= Sum(Rows(cfg, f, k))
    decreases k
  {
    if k == 0 {
      SumZero(Columns(f, 0));
    } else {
      ColumnsWithinRows(cfg, f, k - 1);
      ColumnsGrow(f, k - 1);
      RowsGrow(cfg, f, k - 1);
    }
  }

  /** The messages of a run are never more than the paths that leave the start node. */
  lemma CountWithinPaths(cfg: Config)
    requires WellFormed(cfg.g)
    ensures MessageCount(cfg) <= Paths(cfg.g, START)
  {
    var g, p, w := cfg.g, PricesOf(cfg), Totals(cfg.g, Ones(cfg.g));
    var f := CountedOnly(cfg, w);
    PricesAreRight(cfg);
    TotalsWeigh(g, Ones(g));
    forall n | 0 <= n < |g|
      ensures p.own[n] + Rows(cfg, f, |g|)[n] <= f[n]
    {
      PathsApart(cfg, p, w, n);
      assert PricedAt(cfg, p, n);
    }
    SumsWithin(p.own, Rows(cfg, f, |g|), f);
    ColumnsWithinRows(cfg, f, |g|);
    assert f == Columns(f, |g|)[START := f[START]];
    SumUpdate(Columns(f, |g|), START, f[START]);
  }
}
