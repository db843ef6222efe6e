/** Weights summed along the paths of a graph, and the measure of a run that
    falls at every step, so that every schedule ends. */
module Bounds {
  import opened Graphs
  import opened Protocol

  // ---------- sums ----------

  ghost function Sum(f: seq<nat>): nat {
    if f == [] then 0 else f[0] + Sum(f[1..])
  }

  lemma {:induction false} SumUpdate(f: seq<nat>, i: nat, x: nat)
    requires i < |f|
    ensures Sum(f[i := x]) + f[i] == Sum(f) + x
    decreases |f|
  {
    if i == 0 {
      assert f[i := x][1..] == f[1..];
    } else {
      SumUpdate(f[1..], i - 1, x);
      assert f[i := x][1..] == f[1..][i - 1 := x];
    }
  }

  lemma {:induction false} SumAppend(f: seq<nat>, x: nat)
    ensures Sum(f + [x]) == Sum(f) + x
    decreases |f|
  {
    if f == [] {
      assert f + [x] == [x];
    } else {
      SumAppend(f[1..], x);
      assert (f + [x])[1..] == f[1..] + [x];
    }
  }

  lemma {:induction false} SumAtLeast(f: seq<nat>, i: nat)
    requires i < |f|
    ensures f[i] <= Sum(f)
    decreases |f|
  {
    if i > 0 {
      SumAtLeast(f[1..], i - 1);
    }
  }

  lemma {:induction false} SumZero(f: seq<nat>)
    requires forall i :: 0 <= i < |f| ==> f[i] == 0
    ensures Sum(f) == 0
    decreases |f|
  {
    if f != [] {
      SumZero(f[1..]);
    }
  }

  lemma {:induction false} SumsWithin(f: seq<nat>, g: seq<nat>, h: seq<nat>)
    requires |f| == |g| == |h| && forall i :: 0 <= i < |f| ==> f[i] + g[i] <= h[i]
    ensures Sum(f) + Sum(g) <= Sum(h)
    decreases |f|
  {
    if f != [] {
      SumsWithin(f[1..], g[1..], h[1..]);
    }
  }

  lemma SumGrows(f: seq<nat>, h: seq<nat>, i: nat, x: nat)
    requires |f| == |h| && i < |f| && f[i] + x <= h[i] && forall k :: 0 <= k < |f| ==> f[k] <= h[k]
    ensures Sum(f) + x <= Sum(h)
  {
    SumUpdate(f, i, f[i] + x);
    SumsWithin(f[i := f[i] + x], seq(|f|, _ => 0), h);
  }

  /** The weights of the successors from `i` on, each as often as there are edges to it. */
  ghost function SumNext(w: seq<nat>, next: seq<nat>, i: nat): nat
    decreases |next| - i
  {
    if i >= |next| then 0
    else (if next[i] < |w| then w[next[i]] else 0) + SumNext(w, next, i + 1)
  }

  // ---------- weights along the paths of the graph ----------

  /** The weights `own` summed over every path that leaves `n`, a node counting
      once for each path that ends in it. */
  ghost function Total(g: Graph, own: seq<nat>, n: nat): nat
    requires WellFormed(g) && |own| == |g| && n < |g|
    decreases |g| - Rank(g, n), |g[n].next| + 1
  {
    own[n] + TotalFrom(g, own, n, 0)
  }

  /** The same over the paths that leave `n` by successor `i` or a later one. */
  ghost function TotalFrom(g: Graph, own: seq<nat>, n: nat, i: nat): nat
    requires WellFormed(g) && |own| == |g| && n < |g| && i <= |g[n].next|
    decreases |g| - Rank(g, n), |g[n].next| - i
  {
    if i == |g[n].next| then 0
    else
      assert Edge(g, n, g[n].next[i]);
      EdgeRank(g, n, g[n].next[i]);
      Total(g, own, g[n].next[i]) + TotalFrom(g, own, n, i + 1)
  }

  ghost function Totals(g: Graph, own: seq<nat>): (w: seq<nat>)
    requires WellFormed(g) && |own| == |g|
    ensures |w| == |g| && forall n :: 0 <= n < |g| ==> w[n] == Total(g, own, n)
  {
    seq(|g|, n requires 0 <= n < |g| => Total(g, own, n))
  }

  ghost predicate WeighsAt(g: Graph, own: seq<nat>, w: seq<nat>, n: nat)
    requires n < |g| == |own| == |w|
  {
    w[n] == own[n] + SumNext(w, g[n].next, 0)
  }

  /** Each node weighs its own weight and those of its successors. */
  ghost predicate Weighs(g: Graph, own: seq<nat>, w: seq<nat>) {
    |own| == |w| == |g| && forall n :: 0 <= n < |g| ==> WeighsAt(g, own, w, n)
  }

  lemma {:induction false} TotalFromIs(g: Graph, own: seq<nat>, n: nat, i: nat)
    requires WellFormed(g) && |own| == |g| && n < |g| && i <= |g[n].next|
    ensures TotalFrom(g, own, n, i) == SumNext(Totals(g, own), g[n].next, i)
    decreases |g[n].next| - i
  {
    if i < |g[n].next| {
      TotalFromIs(g, own, n, i + 1);
    }
  }

  lemma TotalsWeigh(g: Graph, own: seq<nat>)
    requires WellFormed(g) && |own| == |g|
    ensures Weighs(g, own, Totals(g, own))
  {
    forall n | 0 <= n < |g|
      ensures WeighsAt(g, own, Totals(g, own), n)
    {
      TotalFromIs(g, own, n, 0);
    }
  }

  lemma NextWeight(g: Graph, own: seq<nat>, w: seq<nat>, n: nat, i: nat)
    requires InRange(g) && Weighs(g, own, w) && n < |g| && i < |g[n].next|
    ensures var m := g[n].next[i];
            m < |g| && SumNext(w, g[n].next, i) == own[m] + SumNext(w, g[m].next, 0) + SumNext(w, g[n].next, i + 1)
  {
    var m := g[n].next[i];
    assert m < |g| && WeighsAt(g, own, w, m);
  }

  ghost function Ones(g: Graph): (own: seq<nat>)
    ensures |own| == |g| && forall n :: 0 <= n < |g| ==> own[n] == 1
  {
    seq(|g|, _ => 1)
  }

  /** How many paths leave `n`, the one that stays there included. */
  ghost function Paths(g: Graph, n: nat): nat
    requires WellFormed(g) && n < |g|
  {
    Total(g, Ones(g), n)
  }

  /** The work of scheduling a node once: its predecessors read, and a constant. */
  ghost function Steps(g: Graph): (own: seq<nat>)
    ensures |own| == |g| && forall n :: 0 <= n < |g| ==> own[n] == |g[n].prev| + 8
  {
    seq(|g|, n requires 0 <= n < |g| => |g[n].prev| + 8)
  }

  // ---------- every step uses fuel ----------

  ghost function WorkerFuel(g: Graph, w: seq<nat>, n: nat, k: Worker): nat
    requires n < |g| && WorkerInRange(g, n, k)
  {
    match k
    case Executing => 5 + SumNext(w, g[n].next, 0)
    case Publishing => 4 + SumNext(w, g[n].next, 0)
    case Settling(i) => 1 + SumNext(w, g[n].next, i)
    case PublishingBranch(i) => 5 + SumNext(w, g[g[n].next[i]].next, 0) + SumNext(w, g[n].next, i + 1)
    case Reporting => 2
    case _ => 0
  }

  ghost function MessageFuel(g: Graph, w: seq<nat>, n: nat): nat
    requires n < |g|
  {
    3 + SumNext(w, g[n].next, 0)
  }

  ghost function ControlFuel(g: Graph, w: seq<nat>, ctl: Control): nat
    requires ControlInRange(g, ctl)
  {
    match ctl
    case Visiting(cur, i) => 1 + SumNext(w, g[cur].next, i)
    case Reading(cur, i, j, _) =>
      var m := g[cur].next[i];
      |g[m].prev| - j + 8 + SumNext(w, g[m].next, 0) + SumNext(w, g[cur].next, i + 1)
    case PublishingSkip(cur, i) => 5 + SumNext(w, g[g[cur].next[i]].next, 0) + SumNext(w, g[cur].next, i + 1)
    case ReportingError => 2
    case SignallingEnd => 2
    case _ => 0
  }

  ghost function WorkersFuel(g: Graph, w: seq<nat>, wk: seq<Worker>): (f: seq<nat>)
    requires |wk| == |g| && forall n :: 0 <= n < |g| ==> WorkerInRange(g, n, wk[n])
    ensures |f| == |g| && forall n :: 0 <= n < |g| ==> f[n] == WorkerFuel(g, w, n, wk[n])
  {
    seq(|g|, n requires 0 <= n < |g| && WorkerInRange(g, n, wk[n]) => WorkerFuel(g, w, n, wk[n]))
  }

  ghost function DoneFuel(g: Graph, w: seq<nat>, done: seq<nat>): (f: seq<nat>)
    requires forall k :: 0 <= k < |done| ==> done[k] < |g|
    ensures |f| == |done| && forall k :: 0 <= k < |done| ==> f[k] == MessageFuel(g, w, done[k])
  {
    seq(|done|, k requires 0 <= k < |done| && done[k] < |g| => MessageFuel(g, w, done[k]))
  }

  ghost function FuelBy(g: Graph, w: seq<nat>, s: State): nat
    requires Typed(g, s)
  {
    Sum(WorkersFuel(g, w, s.wk)) + Sum(DoneFuel(g, w, s.done)) + ControlFuel(g, w, s.ctl)
    + (if s.finished then 1 else 0) + s.errs
  }

  /** What is left for the goroutines to do: an upper bound on their steps. */
  ghost function Fuel(g: Graph, s: State): nat
    requires WellFormed(g) && Typed(g, s)
  {
    FuelBy(g, Totals(g, Steps(g)), s)
  }

  lemma WorkerFuelChange(g: Graph, w: seq<nat>, wk: seq<Worker>, n: nat, k: Worker)
    requires |wk| == |g| && forall m :: 0 <= m < |g| ==> WorkerInRange(g, m, wk[m])
    requires n < |g| && WorkerInRange(g, n, k)
    ensures Sum(WorkersFuel(g, w, wk[n := k])) + WorkerFuel(g, w, n, wk[n]) == Sum(WorkersFuel(g, w, wk)) + WorkerFuel(g, w, n, k)
  {
    assert WorkersFuel(g, w, wk[n := k]) == WorkersFuel(g, w, wk)[n := WorkerFuel(g, w, n, k)];
    SumUpdate(WorkersFuel(g, w, wk), n, WorkerFuel(g, w, n, k));
  }

  lemma DoneFuelChange(g: Graph, w: seq<nat>, done: seq<nat>, n: nat)
    requires n < |g| && forall k :: 0 <= k < |done| ==> done[k] < |g|
    ensures Sum(DoneFuel(g, w, done + [n])) == Sum(DoneFuel(g, w, done)) + MessageFuel(g, w, n)
  {
    assert DoneFuel(g, w, done + [n]) == DoneFuel(g, w, done) + [MessageFuel(g, w, n)];
    SumAppend(DoneFuel(g, w, done), MessageFuel(g, w, n));
  }

  lemma SettleFuel(cfg: Config, w: seq<nat>, s: State, n: nat)
    requires Typed(cfg.g, s) && Weighs(cfg.g, Steps(cfg.g), w) && n < |cfg.g| && s.wk[n].Settling?
    ensures FuelBy(cfg.g, w, Worked(cfg, s, n, false)) < FuelBy(cfg.g, w, s)
  {
    var i := s.wk[n].i;
    WorkerFuelChange(cfg.g, w, s.wk, n, Worked(cfg, s, n, false).wk[n]);
    if i < |cfg.g[n].next| {
      NextWeight(cfg.g, Steps(cfg.g), w, n, i);
    }
  }

  lemma PublishFuel(g: Graph, w: seq<nat>, s: State, n: nat)
    requires Typed(g, s) && n < |g|
    ensures s.wk[n] == Publishing ==> FuelBy(g, w, PublishNode(g, s, n)) < FuelBy(g, w, s)
    ensures s.wk[n].PublishingBranch? ==> FuelBy(g, w, PublishBranch(g, s, n)) < FuelBy(g, w, s)
  {
    if s.wk[n] == Publishing {
      WorkerFuelChange(g, w, s.wk, n, Exited);
      DoneFuelChange(g, w, s.done, n);
    }
    if s.wk[n].PublishingBranch? {
      WorkerFuelChange(g, w, s.wk, n, Settling(s.wk[n].i + 1));
      DoneFuelChange(g, w, s.done, g[n].next[s.wk[n].i]);
    }
  }

  lemma WorkedFuel(cfg: Config, w: seq<nat>, s: State, n: nat, fails: bool)
    requires Typed(cfg.g, s) && Weighs(cfg.g, Steps(cfg.g), w) && WorkEnabled(cfg, s, n, fails)
    ensures FuelBy(cfg.g, w, Worked(cfg, s, n, fails)) < FuelBy(cfg.g, w, s)
  {
    if s.wk[n].Settling? {
      SettleFuel(cfg, w, s, n);
    } else if s.wk[n] == Publishing || s.wk[n].PublishingBranch? {
      PublishFuel(cfg.g, w, s, n);
    } else {
      WorkerFuelChange(cfg.g, w, s.wk, n, Worked(cfg, s, n, fails).wk[n]);
    }
  }

  lemma PopFuel(g: Graph, w: seq<nat>, s: State)
    requires Typed(g, s) && s.ctl == Idle && s.done != []
    ensures FuelBy(g, w, Pop(g, s)) < FuelBy(g, w, s)
  {
    assert DoneFuel(g, w, s.done)[1..] == DoneFuel(g, w, s.done[1..]);
  }

  lemma DecideFuel(g: Graph, w: seq<nat>, s: State)
    requires Typed(g, s) && AllRead(g, s)
    ensures FuelBy(g, w, StartNode(g, s)) < FuelBy(g, w, s)
    ensures FuelBy(g, w, SkipNode(g, s)) < FuelBy(g, w, s)
  {
    var n := Target(g, s.ctl);
    if s.st[n] == Pending && g[n].kind != Virtual {
      WorkerFuelChange(g, w, s.wk, n, Executing);
    }
  }

  lemma VisitFuel(g: Graph, w: seq<nat>, s: State)
    requires Typed(g, s) && Weighs(g, Steps(g), w) && s.ctl.Visiting?
    ensures FuelBy(g, w, NextSuccessor(g, s)) < FuelBy(g, w, s)
  {
    if s.ctl.i < |g[s.ctl.cur].next| {
      NextWeight(g, Steps(g), w, s.ctl.cur, s.ctl.i);
    }
  }

  lemma PublishSkippedFuel(g: Graph, w: seq<nat>, s: State)
    requires Typed(g, s) && s.ctl.PublishingSkip?
    ensures FuelBy(g, w, PublishSkipped(g, s)) < FuelBy(g, w, s)
  {
    DoneFuelChange(g, w, s.done, Target(g, s.ctl));
  }

  lemma ReadFuel(g: Graph, w: seq<nat>, s: State)
    requires Typed(g, s) && s.ctl.Reading? && s.ctl.j < |g[Target(g, s.ctl)].prev|
    ensures FuelBy(g, w, ReadPredecessor(g, s)) < FuelBy(g, w, s)
  {
  }

  lemma ScheduledFuel(g: Graph, w: seq<nat>, s: State)
    requires Typed(g, s) && Weighs(g, Steps(g), w) && ScheduleEnabled(s)
    ensures FuelBy(g, w, Scheduled(g, s)) < FuelBy(g, w, s)
  {
    match s.ctl {
      case Idle => PopFuel(g, w, s);
      case Visiting(_, _) => VisitFuel(g, w, s);
      case Reading(_, _, _, _) => if AllRead(g, s) { DecideFuel(g, w, s); } else { ReadFuel(g, w, s); }
      case PublishingSkip(_, _) => PublishSkippedFuel(g, w, s);
      case _ =>
    }
  }

  /** Every step of every goroutine uses fuel. */
  lemma StepFuel(cfg: Config, s: State, a: Action)
    requires WellFormed(cfg.g) && Typed(cfg.g, s) && Enabled(cfg, s, a)
    ensures Fuel(cfg.g, Apply(cfg, s, a)) < Fuel(cfg.g, s)
  {
    var w := Totals(cfg.g, Steps(cfg.g));
    TotalsWeigh(cfg.g, Steps(cfg.g));
    match a {
      case Work(n, fails) => WorkedFuel(cfg, w, s, n, fails);
      case Schedule => ScheduledFuel(cfg.g, w, s);
      case Return(_) =>
    }
  }

  lemma {:induction false} RunFuel(cfg: Config, s: State, acts: seq<Action>)
    requires WellFormed(cfg.g) && Typed(cfg.g, s) && Runs(cfg, s, acts)
    ensures |acts| + Fuel(cfg.g, After(cfg, s, acts)) <= Fuel(cfg.g, s)
    decreases |acts|
  {
    if acts != [] {
      StepFuel(cfg, s, acts[0]);
      RunFuel(cfg, Apply(cfg, s, acts[0]), acts[1..]);
    }
  }
}
