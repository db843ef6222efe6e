/** No wake-up is lost: a pending node whose predecessors have all settled is still
    going to be looked at, because the settling of one of them is on its way. */
module Wakeups {
  import opened Graphs
  import opened Protocol
  import opened Outcomes
  import opened Safety

  // ---------- the invariant ----------

  ghost predicate From(next: seq<nat>, i: nat, n: nat) {
    exists k :: i <= k < |next| && next[k] == n
  }

  ghost predicate BranchUnpublished(g: Graph, wk: seq<Worker>, p: nat)
    requires |wk| == |g| && p < |g|
  {
    exists c :: 0 <= c < |g| && wk[c].PublishingBranch? && wk[c].i < |g[c].next| && g[c].next[wk[c].i] == p
  }

  ghost predicate WorkerCarries(g: Graph, wk: seq<Worker>, p: nat, n: nat)
    requires |wk| == |g| && p < |g|
  {
    || wk[p] == Publishing
    || (p == START && wk[p] == Executing)
    || (wk[p].Settling? && From(g[p].next, wk[p].i, n))
    || (wk[p].PublishingBranch? && From(g[p].next, wk[p].i + 1, n))
    || BranchUnpublished(g, wk, p)
  }

  ghost predicate ControlCarries(g: Graph, ctl: Control, p: nat, n: nat)
    requires ControlInRange(g, ctl) && p < |g|
  {
    match ctl
    case Visiting(cur, i) => cur == p && From(g[p].next, i, n)
    case Reading(cur, i, _, _) => cur == p && From(g[p].next, i, n)
    case PublishingSkip(cur, i) => Target(g, ctl) == p || (cur == p && From(g[p].next, i + 1, n))
    case _ => false
  }

  /** The settling of `p` is unpublished, queued, or being processed and not yet past `n`. */
  ghost predicate Carries(g: Graph, s: State, p: nat, n: nat)
    requires Typed(g, s) && p < |g|
  {
    p in s.done || WorkerCarries(g, s.wk, p, n) || ControlCarries(g, s.ctl, p, n)
  }

  ghost predicate Ready(g: Graph, st: seq<Status>, n: nat)
    requires |st| == |g| && n < |g|
  {
    n != START && st[n] == Pending && Fed(g, n) && PrevSettled(g, st, n)
  }

  ghost predicate Carried(g: Graph, s: State, n: nat)
    requires Typed(g, s) && n < |g|
  {
    exists p :: 0 <= p < |g| && Edge(g, p, n) && Carries(g, s, p, n)
  }

  ghost predicate Halting(ctl: Control) {
    ctl == SignallingEnd || ctl == ReportingError || ctl == Stopped
  }

  ghost predicate Awake(g: Graph, s: State)
    requires Typed(g, s)
  {
    Halting(s.ctl) || forall n :: 0 <= n < |g| && Ready(g, s.st, n) ==> Carried(g, s, n)
  }

  lemma FreshNotReady(g: Graph, n: nat)
    requires InRange(g) && n < |g| && g[n].prev != []
    ensures !Ready(g, Fresh(|g|), n)
  {
    assert !Fresh(|g|)[g[n].prev[0]].Settled();
  }

  lemma InitAwake(cfg: Config)
    requires WellFormed(cfg.g)
    ensures Typed(cfg.g, Init(cfg)) && Awake(cfg.g, Init(cfg))
  {
    var s := Init(cfg);
    forall n | 0 <= n < |cfg.g| && Ready(cfg.g, s.st, n)
      ensures Carried(cfg.g, s, n)
    {
      if cfg.g[n].prev != [] {
        FreshNotReady(cfg.g, n);
      }
      assert Edge(cfg.g, START, n) && Carries(cfg.g, s, START, n);
    }
  }

  // ---------- wake-ups under the steps of a worker ----------

  /** A store to a node that is no predecessor of `n` leaves `n` as ready as it was. */
  lemma ReadyBefore(cfg: Config, st: seq<Status>, m: nat, x: Status, n: nat)
    requires WellFormed(cfg.g) && |st| == |cfg.g| && m < |cfg.g| && n < |cfg.g|
    requires Ready(cfg.g, st[m := x], n) && x != Pending
    requires !Edge(cfg.g, m, n) || !x.Settled() || st[m].Settled()
    ensures Ready(cfg.g, st, n) && n != m
  {
    forall k | 0 <= k < |cfg.g[n].prev|
      ensures st[cfg.g[n].prev[k]].Settled()
    {
      assert Edge(cfg.g, cfg.g[n].prev[k], n);
      assert st[m := x][cfg.g[n].prev[k]].Settled();
    }
  }

  lemma FromNext(next: seq<nat>, i: nat, n: nat)
    requires From(next, i, n) && i < |next| && next[i] != n
    ensures From(next, i + 1, n)
  {
  }

  lemma EdgeFrom(g: Graph, p: nat, n: nat)
    requires Edge(g, p, n)
    ensures From(g[p].next, 0, n)
  {
  }

  lemma BranchUnpublishedFrame(g: Graph, wk: seq<Worker>, m: nat, w: Worker, p: nat)
    requires |wk| == |g| && m < |g| && p < |g| && BranchUnpublished(g, wk, p)
    requires wk[m].PublishingBranch? && wk[m].i < |g[m].next| ==> g[m].next[wk[m].i] != p
    ensures BranchUnpublished(g, wk[m := w], p)
  {
    var c :| 0 <= c < |g| && wk[c].PublishingBranch? && wk[c].i < |g[c].next| && g[c].next[wk[c].i] == p;
    assert c != m && wk[m := w][c] == wk[c];
  }

  /** A worker's step leaves what the other workers carry. */
  lemma WorkerCarriesFrame(g: Graph, wk: seq<Worker>, m: nat, w: Worker, p: nat, n: nat)
    requires |wk| == |g| && m < |g| && p < |g| && p != m && WorkerCarries(g, wk, p, n)
    requires wk[m].PublishingBranch? && wk[m].i < |g[m].next| ==> g[m].next[wk[m].i] != p
    ensures WorkerCarries(g, wk[m := w], p, n)
  {
    if BranchUnpublished(g, wk, p) {
      BranchUnpublishedFrame(g, wk, m, w, p);
    }
  }

  lemma FinishNodeCarried(cfg: Config, s: State, m: nat, n: nat)
    requires WellFormed(cfg.g) && Typed(cfg.g, s) && Awake(cfg.g, s) && !Halting(s.ctl)
    requires m < |cfg.g| && s.wk[m] == Executing && n < |cfg.g|
    requires Ready(cfg.g, FinishNode(cfg.g, s, m).st, n)
    ensures Carried(cfg.g, FinishNode(cfg.g, s, m), n)
  {
    var g, t := cfg.g, FinishNode(cfg.g, s, m);
    if Edge(g, m, n) {
      EdgeFrom(g, m, n);
      assert Carries(g, t, m, n);
    } else {
      ReadyBefore(cfg, s.st, m, Finished, n);
      var p :| 0 <= p < |g| && Edge(g, p, n) && Carries(g, s, p, n);
      if WorkerCarries(g, s.wk, p, n) {
        WorkerCarriesFrame(g, s.wk, m, t.wk[m], p, n);
      }
      assert Carries(g, t, p, n);
    }
  }

  lemma FailNodeCarried(cfg: Config, s: State, m: nat, n: nat)
    requires WellFormed(cfg.g) && Typed(cfg.g, s) && Awake(cfg.g, s) && !Halting(s.ctl)
    requires m < |cfg.g| && s.wk[m] == Executing && m != START && n < |cfg.g|
    requires Ready(cfg.g, FailNode(cfg.g, s, m).st, n)
    ensures Carried(cfg.g, FailNode(cfg.g, s, m), n)
  {
    var g, t := cfg.g, FailNode(cfg.g, s, m);
    ReadyBefore(cfg, s.st, m, Failed, n);
    var p :| 0 <= p < |g| && Edge(g, p, n) && Carries(g, s, p, n);
    assert p != m;  // a failed node is no settled predecessor
    if WorkerCarries(g, s.wk, p, n) {
      WorkerCarriesFrame(g, s.wk, m, t.wk[m], p, n);
    }
    assert Carries(g, t, p, n);
  }

  lemma PublishNodeCarried(cfg: Config, s: State, m: nat, n: nat)
    requires WellFormed(cfg.g) && Typed(cfg.g, s) && Awake(cfg.g, s) && !Halting(s.ctl)
    requires m < |cfg.g| && s.wk[m] == Publishing && n < |cfg.g| && Ready(cfg.g, s.st, n)
    ensures Carried(cfg.g, PublishNode(cfg.g, s, m), n)
  {
    var g, t := cfg.g, PublishNode(cfg.g, s, m);
    var p :| 0 <= p < |g| && Edge(g, p, n) && Carries(g, s, p, n);
    if p == m {
      assert t.done[|s.done|] == m;
    } else if WorkerCarries(g, s.wk, p, n) {
      WorkerCarriesFrame(g, s.wk, m, t.wk[m], p, n);
    }
    assert Carries(g, t, p, n);
  }

  lemma SettleBranchCarried(cfg: Config, s: State, m: nat, n: nat)
    requires WellFormed(cfg.g) && Typed(cfg.g, s) && Awake(cfg.g, s) && !Halting(s.ctl)
    requires m < |cfg.g| && s.wk[m].Settling? && s.wk[m].i < |cfg.g[m].next| && n < |cfg.g|
    requires Ready(cfg.g, SettleBranch(cfg, s, m).st, n)
    ensures Carried(cfg.g, SettleBranch(cfg, s, m), n)
  {
    var g, t := cfg.g, SettleBranch(cfg, s, m);
    var i := s.wk[m].i;
    var v := g[m].next[i];
    if Edge(g, v, n) {
      assert t.wk[m] == PublishingBranch(i);
      assert BranchUnpublished(g, t.wk, v);
      assert Carries(g, t, v, n);
    } else {
      ReadyBefore(cfg, s.st, v, BranchStatus(cfg, m, v), n);
      var p :| 0 <= p < |g| && Edge(g, p, n) && Carries(g, s, p, n);
      if p == m {
        if From(g[m].next, i, n) {
          FromNext(g[m].next, i, n);
        }
        if BranchUnpublished(g, s.wk, p) {
          BranchUnpublishedFrame(g, s.wk, m, t.wk[m], p);
        }
      } else if WorkerCarries(g, s.wk, p, n) {
        WorkerCarriesFrame(g, s.wk, m, t.wk[m], p, n);
      }
      assert Carries(g, t, p, n);
    }
  }

  lemma PublishBranchCarried(cfg: Config, s: State, m: nat, n: nat)
    requires WellFormed(cfg.g) && Typed(cfg.g, s) && Awake(cfg.g, s) && !Halting(s.ctl)
    requires m < |cfg.g| && s.wk[m].PublishingBranch? && n < |cfg.g| && Ready(cfg.g, s.st, n)
    ensures Carried(cfg.g, PublishBranch(cfg.g, s, m), n)
  {
    var g, t := cfg.g, PublishBranch(cfg.g, s, m);
    var v := g[m].next[s.wk[m].i];
    assert t.done[|s.done|] == v;
    var p :| 0 <= p < |g| && Edge(g, p, n) && Carries(g, s, p, n);
    if p != v {
      if BranchUnpublished(g, s.wk, p) {
        BranchUnpublishedFrame(g, s.wk, m, t.wk[m], p);
      }
      if p != m && WorkerCarries(g, s.wk, p, n) {
        WorkerCarriesFrame(g, s.wk, m, t.wk[m], p, n);
      }
    }
    assert Carries(g, t, p, n);
  }

  /** A worker that has nothing left to publish carries nothing. */
  lemma LeaveCarried(cfg: Config, s: State, m: nat, n: nat, t: State)
    requires WellFormed(cfg.g) && Typed(cfg.g, s) && Awake(cfg.g, s) && !Halting(s.ctl)
    requires m < |cfg.g| && n < |cfg.g| && Ready(cfg.g, s.st, n)
    requires s.wk[m] == Reporting || (s.wk[m].Settling? && s.wk[m].i == |cfg.g[m].next|)
    requires Typed(cfg.g, t) && t == s.(wk := s.wk[m := Exited], errs := t.errs)
    ensures Carried(cfg.g, t, n)
  {
    var g := cfg.g;
    var p :| 0 <= p < |g| && Edge(g, p, n) && Carries(g, s, p, n);
    if WorkerCarries(g, s.wk, p, n) {
      if p == m {
        BranchUnpublishedFrame(g, s.wk, m, Exited, p);
      } else {
        WorkerCarriesFrame(g, s.wk, m, Exited, p, n);
      }
    }
    assert Carries(g, t, p, n);
  }

  lemma WorkedAwake(cfg: Config, s: State, m: nat, fails: bool)
    requires WellFormed(cfg.g) && Typed(cfg.g, s) && Awake(cfg.g, s) && WorkEnabled(cfg, s, m, fails)
    ensures Awake(cfg.g, Worked(cfg, s, m, fails))
  {
    var t := Worked(cfg, s, m, fails);
    if !Halting(s.ctl) {
      forall n | 0 <= n < |cfg.g| && Ready(cfg.g, t.st, n)
        ensures Carried(cfg.g, t, n)
      {
        match s.wk[m] {
          case Executing =>
            if fails { FailNodeCarried(cfg, s, m, n); } else { FinishNodeCarried(cfg, s, m, n); }
          case Publishing => PublishNodeCarried(cfg, s, m, n);
          case Settling(i) =>
            if i == |cfg.g[m].next| { LeaveCarried(cfg, s, m, n, t); } else { SettleBranchCarried(cfg, s, m, n); }
          case PublishingBranch(_) => PublishBranchCarried(cfg, s, m, n);
          case Reporting => LeaveCarried(cfg, s, m, n, t);
        }
      }
    }
  }

  // ---------- wake-ups under the steps of the control loop ----------

  lemma PopCarried(cfg: Config, s: State, n: nat)
    requires WellFormed(cfg.g) && Typed(cfg.g, s) && Awake(cfg.g, s)
    requires s.ctl == Idle && s.done != [] && s.done[0] != END
    requires n < |cfg.g| && Ready(cfg.g, s.st, n)
    ensures Carried(cfg.g, Pop(cfg.g, s), n)
  {
    var g, t := cfg.g, Pop(cfg.g, s);
    var p :| 0 <= p < |g| && Edge(g, p, n) && Carries(g, s, p, n);
    EdgeFrom(g, p, n);
    if p in s.done && p != s.done[0] {
      var k :| 0 <= k < |s.done| && s.done[k] == p;
      assert t.done[k - 1] == p;
    }
    assert Carries(g, t, p, n);
  }

  lemma NextSuccessorCarried(cfg: Config, s: State, n: nat)
    requires WellFormed(cfg.g) && Typed(cfg.g, s) && Awake(cfg.g, s)
    requires s.ctl.Visiting? && n < |cfg.g| && Ready(cfg.g, s.st, n)
    ensures Carried(cfg.g, NextSuccessor(cfg.g, s), n)
  {
    var g, t := cfg.g, NextSuccessor(cfg.g, s);
    var p :| 0 <= p < |g| && Edge(g, p, n) && Carries(g, s, p, n);
    assert Carries(g, t, p, n);
  }

  ghost predicate WorkersCarryOn(g: Graph, wk: seq<Worker>, wk': seq<Worker>)
    requires |wk| == |wk'| == |g|
  {
    forall p: nat, n: nat :: p < |g| && WorkerCarries(g, wk, p, n) ==> WorkerCarries(g, wk', p, n)
  }

  /** Passing the successor at hand loses no other. */
  lemma PassCarried(cfg: Config, s: State, t: State, n: nat)
    requires WellFormed(cfg.g) && Typed(cfg.g, s) && Awake(cfg.g, s)
    requires s.ctl.Reading? && n < |cfg.g| && Ready(cfg.g, s.st, n) && n != Target(cfg.g, s.ctl)
    requires Typed(cfg.g, t) && t.done == s.done && WorkersCarryOn(cfg.g, s.wk, t.wk)
    requires t.ctl == Visiting(s.ctl.cur, s.ctl.i + 1) || t.ctl == PublishingSkip(s.ctl.cur, s.ctl.i)
    ensures Carried(cfg.g, t, n)
  {
    var g := cfg.g;
    var p :| 0 <= p < |g| && Edge(g, p, n) && Carries(g, s, p, n);
    if ControlCarries(g, s.ctl, p, n) {
      FromNext(g[p].next, s.ctl.i, n);
    }
    assert Carries(g, t, p, n);
  }

  lemma KeepReadingCarried(cfg: Config, s: State, t: State, n: nat)
    requires WellFormed(cfg.g) && Typed(cfg.g, s) && Awake(cfg.g, s)
    requires s.ctl.Reading? && n < |cfg.g| && Ready(cfg.g, s.st, n)
    requires Typed(cfg.g, t) && t.done == s.done && t.wk == s.wk
    requires t.ctl.Reading? && t.ctl.cur == s.ctl.cur && t.ctl.i == s.ctl.i
    ensures Carried(cfg.g, t, n)
  {
    var g := cfg.g;
    var p :| 0 <= p < |g| && Edge(g, p, n) && Carries(g, s, p, n);
    assert Carries(g, t, p, n);
  }

  lemma ReadPredecessorAwake(cfg: Config, s: State)
    requires WellFormed(cfg.g) && Typed(cfg.g, s) && Awake(cfg.g, s)
    requires s.ctl.Reading? && s.ctl.j < |cfg.g[Target(cfg.g, s.ctl)].prev|
    ensures Awake(cfg.g, ReadPredecessor(cfg.g, s))
  {
    var g, t := cfg.g, ReadPredecessor(cfg.g, s);
    var p := g[Target(g, s.ctl)].prev[s.ctl.j];
    if s.st[p] != Failed {
      forall n | 0 <= n < |g| && Ready(g, t.st, n)
        ensures Carried(g, t, n)
      {
        if s.st[p].Settled() {
          KeepReadingCarried(cfg, s, t, n);
        } else {
          PassCarried(cfg, s, t, n);
        }
      }
    }
  }

  lemma SkipNodeAwake(cfg: Config, s: State)
    requires WellFormed(cfg.g) && Typed(cfg.g, s) && Awake(cfg.g, s) && AllRead(cfg.g, s)
    ensures Awake(cfg.g, SkipNode(cfg.g, s))
  {
    var g, t := cfg.g, SkipNode(cfg.g, s);
    var m := Target(g, s.ctl);
    forall n | 0 <= n < |g| && Ready(g, t.st, n)
      ensures Carried(g, t, n)
    {
      if Edge(g, m, n) {
        assert Carries(g, t, m, n);
      } else {
        ReadyBefore(cfg, s.st, m, Skipped, n);
        PassCarried(cfg, s, t, n);
      }
    }
  }

  lemma LaunchCarriesOn(g: Graph, wk: seq<Worker>, m: nat)
    requires |wk| == |g| && m < |g| && wk[m] == Absent
    ensures WorkersCarryOn(g, wk, wk[m := Executing])
  {
    forall p: nat, n: nat | p < |g| && WorkerCarries(g, wk, p, n)
      ensures WorkerCarries(g, wk[m := Executing], p, n)
    {
      if p == m {
        BranchUnpublishedFrame(g, wk, m, Executing, m);
      } else {
        WorkerCarriesFrame(g, wk, m, Executing, p, n);
      }
    }
  }

  lemma StartNodeAwake(cfg: Config, s: State)
    requires Safe(cfg, s) && Awake(cfg.g, s) && AllRead(cfg.g, s)
    ensures Awake(cfg.g, StartNode(cfg.g, s))
  {
    var g, t := cfg.g, StartNode(cfg.g, s);
    var m := Target(g, s.ctl);
    assert WorkerOk(cfg, s.st, s.wk[m], s.starts[m], m) && Edge(g, s.ctl.cur, m);
    NotIntoStart(g, s.ctl.cur);
    if s.st[m] == Pending && g[m].kind != Virtual {
      LaunchCarriesOn(g, s.wk, m);
    }
    forall n | 0 <= n < |g| && Ready(g, t.st, n)
      ensures Carried(g, t, n)
    {
      if s.st[m] == Pending {
        ReadyBefore(cfg, s.st, m, Running, n);
      }
      PassCarried(cfg, s, t, n);
    }
  }

  lemma PublishSkippedCarried(cfg: Config, s: State, n: nat)
    requires WellFormed(cfg.g) && Typed(cfg.g, s) && Awake(cfg.g, s)
    requires s.ctl.PublishingSkip? && n < |cfg.g| && Ready(cfg.g, s.st, n)
    ensures Carried(cfg.g, PublishSkipped(cfg.g, s), n)
  {
    var g, t := cfg.g, PublishSkipped(cfg.g, s);
    assert t.done[|s.done|] == Target(g, s.ctl);
    var p :| 0 <= p < |g| && Edge(g, p, n) && Carries(g, s, p, n);
    assert Carries(g, t, p, n);
  }

  lemma ScheduledAwake(cfg: Config, s: State)
    requires Safe(cfg, s) && Awake(cfg.g, s) && ScheduleEnabled(s)
    ensures Awake(cfg.g, Scheduled(cfg.g, s))
  {
    var t := Scheduled(cfg.g, s);
    match s.ctl {
      case Idle =>
        if s.done[0] != END {
          forall n | 0 <= n < |cfg.g| && Ready(cfg.g, t.st, n)
            ensures Carried(cfg.g, t, n)
          {
            PopCarried(cfg, s, n);
          }
        }
      case Visiting(_, _) =>
        forall n | 0 <= n < |cfg.g| && Ready(cfg.g, t.st, n)
          ensures Carried(cfg.g, t, n)
        {
          NextSuccessorCarried(cfg, s, n);
        }
      case Reading(_, _, j, _) =>
        if j < |cfg.g[Target(cfg.g, s.ctl)].prev| { ReadPredecessorAwake(cfg, s); }
        else if AllSkipped(cfg.g, s) { SkipNodeAwake(cfg, s); }
        else { StartNodeAwake(cfg, s); }
      case PublishingSkip(_, _) =>
        forall n | 0 <= n < |cfg.g| && Ready(cfg.g, t.st, n)
          ensures Carried(cfg.g, t, n)
        {
          PublishSkippedCarried(cfg, s, n);
        }
      case ReportingError =>
      case SignallingEnd =>
    }
  }

  lemma StepAwake(cfg: Config, s: State, a: Action)
    requires Safe(cfg, s) && Awake(cfg.g, s) && Enabled(cfg, s, a)
    ensures Awake(cfg.g, Apply(cfg, s, a))
  {
    match a {
      case Work(n, fails) => WorkedAwake(cfg, s, n, fails);
      case Schedule => ScheduledAwake(cfg, s);
      case Return(_) =>
        var g, t := cfg.g, Apply(cfg, s, a);
        if !Halting(t.ctl) {
          forall n | 0 <= n < |g| && Ready(g, t.st, n)
            ensures Carried(g, t, n)
          {
            var p :| 0 <= p < |g| && Edge(g, p, n) && Carries(g, s, p, n);
            assert Carries(g, t, p, n);
          }
        }
    }
  }
}
