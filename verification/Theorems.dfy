/** What holds of every run of the scheduler, whatever the interleaving. */
module Theorems {
  import opened Graphs
  import opened Protocol
  import opened Outcomes
  import opened Safety
  import opened Wakeups
  import opened Reports
  import opened Bounds
  import opened Messages

  /** `s` is reached from the launch of a fresh run by the schedule `acts`. */
  ghost predicate Reached(cfg: Config, acts: seq<Action>, s: State) {
    && WellFormed(cfg.g)
    && Typed(cfg.g, Init(cfg))
    && Runs(cfg, Init(cfg), acts)
    && s == After(cfg, Init(cfg), acts)
  }

  lemma ReachedLive(cfg: Config, acts: seq<Action>, s: State)
    requires Reached(cfg, acts, s)
    ensures Live(cfg, s)
  {
    InitLive(cfg);
    RunLive(cfg, Init(cfg), acts);
  }

  lemma ReachedBudget(cfg: Config, acts: seq<Action>, s: State)
    requires Reached(cfg, acts, s)
    ensures Safe(cfg, s) && Priced(cfg, PricesOf(cfg)) && Budgeted(cfg.g, PricesOf(cfg), s)
  {
    ReachedLive(cfg, acts, s);
    InitSafe(cfg);
    PricesAreRight(cfg);
    InitBudget(cfg, PricesOf(cfg));
    RunBudget(cfg, PricesOf(cfg), Init(cfg), acts);
  }

  lemma ReachedMore(cfg: Config, acts: seq<Action>, s: State, more: seq<Action>)
    requires Reached(cfg, acts, s) && Runs(cfg, s, more)
    ensures Reached(cfg, acts + more, After(cfg, s, more))
  {
    RunsConcat(cfg, Init(cfg), acts, more);
  }

  // ---------- stability, order and at-most-once ----------

  /** A node that has settled or failed keeps its state for the rest of the run. */
  lemma EndedForever(cfg: Config, acts: seq<Action>, s: State, more: seq<Action>)
    requires Reached(cfg, acts, s) && Runs(cfg, s, more)
    ensures forall n :: 0 <= n < |cfg.g| && s.st[n].Ended() ==> After(cfg, s, more).st[n] == s.st[n]
  {
    ReachedLive(cfg, acts, s);
    RunSafe(cfg, s, more);
  }

  /** No function is started twice, a virtual node's never; and the step that starts
      one finds every predecessor settled, the node itself pending. */
  lemma StartedOnceInOrder(cfg: Config, acts: seq<Action>, s: State, a: Action, n: nat)
    requires Reached(cfg, acts, s) && Enabled(cfg, s, a) && n < |cfg.g|
    ensures s.starts[n] <= 1
    ensures cfg.g[n].kind == Virtual ==> s.starts[n] == 0 && s.st[n] != Running
    ensures Apply(cfg, s, a).starts[n] != s.starts[n] ==>
              && s.st[n] == Pending && s.starts[n] == 0 && Apply(cfg, s, a).starts[n] == 1
              && forall k :: 0 <= k < |cfg.g[n].prev| ==> s.st[cfg.g[n].prev[k]].Settled()
  {
    ReachedLive(cfg, acts, s);
    assert WorkerOk(cfg, s.st, s.wk[n], s.starts[n], n) && NodeOk(cfg, s.st, n);
    StepLive(cfg, s, a);
    var t := Apply(cfg, s, a);
    assert WorkerOk(cfg, t.st, t.wk[n], t.starts[n], n);
    if t.starts[n] != s.starts[n] {
      OnlyStartStarts(cfg, s, a, n);
      ScanComplete(cfg, s);
    }
  }

  lemma WorkStartsNothing(cfg: Config, s: State, m: nat, fails: bool)
    requires Typed(cfg.g, s) && WorkEnabled(cfg, s, m, fails)
    ensures Worked(cfg, s, m, fails).starts == s.starts
  {
  }

  lemma OnlyStartStarts(cfg: Config, s: State, a: Action, n: nat)
    requires Safe(cfg, s) && Enabled(cfg, s, a) && n < |cfg.g|
    requires Apply(cfg, s, a).starts[n] != s.starts[n]
    ensures AllRead(cfg.g, s) && Target(cfg.g, s.ctl) == n && s.st[n] == Pending
  {
    if a.Work? {
      WorkStartsNothing(cfg, s, a.n, a.fails);
    }
  }

  // ---------- confluence ----------

  /** Whatever the schedule and whichever functions fail, a node that settles,
      settles as the evaluator says. */
  lemma Confluence(cfg: Config, acts: seq<Action>, s: State, n: nat)
    requires Reached(cfg, acts, s) && n < |cfg.g| && s.st[n].Settled()
    ensures s.st[n] == Eval(cfg, n)
  {
    ReachedLive(cfg, acts, s);
    assert NodeOk(cfg, s.st, n);
  }

  // ---------- termination ----------

  /** No schedule is longer than the fuel of the launch. */
  lemma RunsAreBounded(cfg: Config, acts: seq<Action>, s: State)
    requires Reached(cfg, acts, s)
    ensures |acts| <= Fuel(cfg.g, Init(cfg))
  {
    RunFuel(cfg, Init(cfg), acts);
  }

  /** Every run can be continued to its end. */
  lemma {:induction false} RunsEnd(cfg: Config, s: State) returns (more: seq<Action>)
    requires WellFormed(cfg.g) && Typed(cfg.g, s)
    ensures Runs(cfg, s, more) && Stuck(cfg, After(cfg, s, more))
    decreases Fuel(cfg.g, s)
  {
    if Stuck(cfg, s) {
      more := [];
    } else {
      var a :| Enabled(cfg, s, a);
      StepFuel(cfg, s, a);
      var rest := RunsEnd(cfg, Apply(cfg, s, a));
      more := RunsCons(cfg, s, a, rest);
    }
  }

  // ---------- messages ----------

  /** The messages of a whole run are no more than the count, which is no more than the
      paths that leave the start; if those counted fit the channel, no send ever waits. */
  lemma MessagesBounded(cfg: Config, acts: seq<Action>, s: State)
    requires Reached(cfg, acts, s)
    ensures |s.done| <= s.pushed <= MessageCount(cfg) <= Paths(cfg.g, START)
    ensures MessageCount(cfg) <= 100 && WantsToSend(s) ==> |s.done| < 100
  {
    ReachedBudget(cfg, acts, s);
    CountWithinPaths(cfg);
    if WantsToSend(s) {
      if s.ctl.PublishingSkip? {
        SkippedTarget(cfg, s);
        assert PricedAt(cfg, PricesOf(cfg), Target(cfg.g, s.ctl));
      }
      RoomToSend(cfg.g, PricesOf(cfg), s);
    }
  }

  // ---------- failure containment ----------

  /** Behind a node that has not settled, everything is still pending. */
  lemma {:induction false} Contained(cfg: Config, s: State, a: nat, d: nat)
    requires Safe(cfg, s) && a < |cfg.g| && a != START && !s.st[a].Settled() && Reaches(cfg.g, a, d)
    ensures d < |cfg.g| && s.st[d] == Pending
    decreases |cfg.g| - Rank(cfg.g, a)
  {
    var m := ReachesFirstEdge(cfg.g, a, d);
    assert NodeOk(cfg, s.st, m);
    NotIntoStart(cfg.g, a);
    if m != d {
      EdgeRank(cfg.g, a, m);
      Contained(cfg, s, m, d);
    }
  }

  /** A failed node's descendants never leave Pending. */
  lemma FailureContained(cfg: Config, acts: seq<Action>, s: State, f: nat, d: nat)
    requires Reached(cfg, acts, s) && f < |cfg.g| && s.st[f] == Failed && Reaches(cfg.g, f, d)
    ensures d < |cfg.g| && s.st[d] == Pending
  {
    ReachedLive(cfg, acts, s);
    assert NodeOk(cfg, s.st, f);
    Contained(cfg, s, f, d);
  }

  ghost predicate Needed(g: Graph, n: nat) {
    n == END || Reaches(g, n, END)
  }

  /** Once the end has settled, so have all its ancestors, each as the evaluator says. */
  lemma EndSettlesNeeded(cfg: Config, s: State)
    requires Safe(cfg, s) && s.st[END].Settled()
    ensures forall n :: 0 <= n < |cfg.g| && Needed(cfg.g, n) ==> s.st[n] == Eval(cfg, n)
  {
    forall n | 0 <= n < |cfg.g| && Needed(cfg.g, n)
      ensures s.st[n] == Eval(cfg, n)
    {
      assert NodeOk(cfg, s.st, n) && NodeOk(cfg, s.st, END);
      if !s.st[n].Settled() && n != START && n != END {
        Contained(cfg, s, n, END);
      }
    }
  }

  /** Told of success, the caller finds the end node and all its ancestors settled,
      each as the evaluator says. Told of an error, it finds a failed node. */
  lemma ReturnsAreRight(cfg: Config, acts: seq<Action>, s: State)
    requires Reached(cfg, acts, s)
    ensures s.outcome == Success ==> forall n :: 0 <= n < |cfg.g| && Needed(cfg.g, n) ==> s.st[n] == Eval(cfg, n)
    ensures s.outcome == Error ==> AnyFailed(s.st) && cfg.canFail != {}
  {
    ReachedLive(cfg, acts, s);
    if s.outcome == Success {
      EndSettlesNeeded(cfg, s);
    }
    if s.outcome == Error {
      FailedCanFail(cfg, s);
    }
  }

  lemma FailedCanFail(cfg: Config, s: State)
    requires Safe(cfg, s) && AnyFailed(s.st)
    ensures cfg.canFail != {}
  {
    var n :| 0 <= n < |s.st| && s.st[n] == Failed;
    assert NodeOk(cfg, s.st, n);
  }

  // ---------- no lost wake-up ----------

  /** Every node the end waits for has an edge leading to it. */
  ghost predicate Wired(g: Graph) {
    forall n :: 0 <= n < |g| && n != START && Needed(g, n) ==> Fed(g, n)
  }

  /** Every worker has ended, or runs a function that the end does not wait for. */
  ghost predicate NoneAtWork(g: Graph, s: State)
    requires |s.wk| == |g|
  {
    forall n :: 0 <= n < |g| ==>
      s.wk[n] == Absent || s.wk[n] == Exited || (s.wk[n] == Executing && n != START && !Needed(g, n))
  }

  lemma QuietCarriesNothing(g: Graph, s: State, n: nat)
    requires Typed(g, s) && NoneAtWork(g, s) && s.done == [] && s.ctl == Idle && n < |g|
    ensures !Carried(g, s, n)
  {
  }

  /** Nothing being on its way and nothing failed, a needed node has settled. */
  lemma {:induction false} QuietSettled(cfg: Config, s: State, n: nat)
    requires Safe(cfg, s) && Awake(cfg.g, s) && Wired(cfg.g) && !AnyFailed(s.st)
    requires NoneAtWork(cfg.g, s) && s.wk[START] == Exited && s.done == [] && s.ctl == Idle
    requires n < |cfg.g| && Needed(cfg.g, n)
    ensures s.st[n].Settled()
    decreases Rank(cfg.g, n)
  {
    var g := cfg.g;
    assert WorkerOk(cfg, s.st, s.wk[n], s.starts[n], n) && NodeOk(cfg, s.st, n);
    if n != START && s.st[n] == Pending {
      forall k | 0 <= k < |g[n].prev|
        ensures s.st[g[n].prev[k]].Settled()
      {
        PredecessorRank(g, n, k);
        EdgeReaches(g, g[n].prev[k], n);
        if n != END {
          ReachesTransitive(g, g[n].prev[k], n, END);
        }
        QuietSettled(cfg, s, g[n].prev[k]);
      }
      assert Ready(g, s.st, n);
      QuietCarriesNothing(g, s, n);
      assert false;
    }
  }

  lemma NeverIdle(cfg: Config, s: State)
    requires Live(cfg, s) && Wired(cfg.g) && NoneAtWork(cfg.g, s) && s.done == [] && s.ctl == Idle
    ensures AnyFailed(s.st)
  {
    if !AnyFailed(s.st) {
      QuietSettled(cfg, s, END);
      assert false;
    }
  }

  /** No deadlock: on a wired graph, with nothing queued and nobody at work, a control loop
      that waits or has stopped has processed the end, everything needed being settled as
      the evaluator says, or else some node has failed. */
  lemma NoDeadlock(cfg: Config, acts: seq<Action>, s: State)
    requires Reached(cfg, acts, s) && Wired(cfg.g)
    requires NoneAtWork(cfg.g, s) && s.done == [] && (s.ctl == Idle || s.ctl == Stopped)
    ensures AnyFailed(s.st) ||
            (s.ctl == Stopped && forall n :: 0 <= n < |cfg.g| && Needed(cfg.g, n) ==> s.st[n] == Eval(cfg, n))
  {
    ReachedLive(cfg, acts, s);
    if s.ctl == Idle {
      NeverIdle(cfg, s);
    } else if !AnyFailed(s.st) {
      EndSettlesNeeded(cfg, s);
    }
  }

  // ---------- when a run hangs ----------

  /** The control loop waits for room in the channel that it alone empties. */
  ghost predicate Jammed(s: State) {
    s.ctl.PublishingSkip? && |s.done| >= DONE_CAPACITY
  }

  lemma StuckStopsNeeded(cfg: Config, s: State)
    requires Live(cfg, s) && Stuck(cfg, s) && s.outcome == Waiting && s.done == []
    ensures NoneAtWork(cfg.g, s) && !AnyFailed(s.st)
  {
    assert !Enabled(cfg, s, Return(Error));
    forall n | 0 <= n < |cfg.g|
      ensures (s.wk[n] == Absent || s.wk[n] == Exited) && s.st[n] != Failed
    {
      assert WorkerOk(cfg, s.st, s.wk[n], s.starts[n], n) && NodeOk(cfg, s.st, n);
      assert !Enabled(cfg, s, Work(n, false));
    }
  }

  /** A caller left waiting for ever on a wired graph has one cause, and no function failed. */
  lemma HangMeansFull(cfg: Config, acts: seq<Action>, s: State)
    requires Reached(cfg, acts, s) && Wired(cfg.g) && Stuck(cfg, s) && s.outcome == Waiting
    ensures Jammed(s) && s.ctl.PublishingSkip? && |s.done| >= 100
  {
    ReachedLive(cfg, acts, s);
    assert !Enabled(cfg, s, Schedule) && !Enabled(cfg, s, Return(Success)) && !Enabled(cfg, s, Return(Error));
    if s.ctl == Idle {
      StuckStopsNeeded(cfg, s);
      NeverIdle(cfg, s);
      assert false;
    }
  }

  /** A failure is told: who still waits when nothing can move, waits without one. */
  lemma HangMeansNoFailure(cfg: Config, s: State)
    requires Live(cfg, s) && Stuck(cfg, s) && s.outcome == Waiting
    ensures !AnyFailed(s.st)
  {
    assert !Enabled(cfg, s, Return(Error));
    forall n | 0 <= n < |cfg.g|
      ensures s.st[n] != Failed
    {
      assert WorkerOk(cfg, s.st, s.wk[n], s.starts[n], n) && NodeOk(cfg, s.st, n);
      assert !Enabled(cfg, s, Work(n, false));
    }
  }

  /** Nothing ends a jam. */
  lemma {:induction false} JamStays(cfg: Config, s: State, more: seq<Action>)
    requires Typed(cfg.g, s) && Jammed(s) && !s.finished && s.outcome != Success && Runs(cfg, s, more)
    ensures Jammed(After(cfg, s, more)) && After(cfg, s, more).outcome != Success
    decreases |more|
  {
    if more != [] {
      JamStays(cfg, Apply(cfg, s, more[0]), more[1..]);
    }
  }

  // ---------- runs without failures ----------

  /** The same graph and tags, no function failing. */
  function Calm(cfg: Config): Config {
    cfg.(canFail := {})
  }

  lemma {:induction false} CalmRuns(cfg: Config, s: State, acts: seq<Action>)
    requires Typed(cfg.g, s) && Runs(Calm(cfg), s, acts)
    ensures Runs(cfg, s, acts) && After(cfg, s, acts) == After(Calm(cfg), s, acts)
    decreases |acts|
  {
    if acts != [] {
      CalmStep(cfg, s, acts[0]);
      CalmRuns(cfg, Apply(cfg, s, acts[0]), acts[1..]);
    }
  }

  lemma CalmStep(cfg: Config, s: State, a: Action)
    requires Typed(cfg.g, s)
    ensures Enabled(Calm(cfg), s, a) ==> Enabled(cfg, s, a)
    ensures Enabled(cfg, s, a) ==>
              if a.Work? && a.fails then Apply(cfg, s, a).st == s.st[a.n := Failed]
              else Enabled(Calm(cfg), s, a) && Apply(Calm(cfg), s, a) == Apply(cfg, s, a)
  {
  }

  /** A run that ends with no failed node is one in which no function failed. */
  lemma {:induction false} RunsCalm(cfg: Config, s: State, acts: seq<Action>)
    requires Safe(cfg, s) && Runs(cfg, s, acts) && !AnyFailed(After(cfg, s, acts).st)
    ensures Runs(Calm(cfg), s, acts) && After(Calm(cfg), s, acts) == After(cfg, s, acts)
    decreases |acts|
  {
    if acts != [] {
      var a, t := acts[0], Apply(cfg, s, acts[0]);
      CalmStep(cfg, s, a);
      StepSafe(cfg, s, a);
      if a.Work? && a.fails {
        assert t.st[a.n] == Failed;
        RunSafe(cfg, t, acts[1..]);
        FailedStays(t.st, After(cfg, t, acts[1..]).st);
        assert false;
      }
      RunsCalm(cfg, t, acts[1..]);
    }
  }

  lemma StuckCalmly(cfg: Config, s: State)
    requires Typed(cfg.g, s) && Stuck(Calm(cfg), s)
    ensures Stuck(cfg, s)
  {
    forall a
      ensures !Enabled(cfg, s, a)
    {
      CalmStep(cfg, s, a);
      if Enabled(cfg, s, a) && a.Work? && a.fails {
        assert Enabled(Calm(cfg), s, Work(a.n, false));
      }
    }
  }

  // ---------- exactly when every run returns ----------

  ghost predicate NeverJams(cfg: Config) {
    forall acts, s :: Reached(cfg, acts, s) ==> !Jammed(s)
  }

  ghost predicate AllRunsReturn(cfg: Config)
    requires WellFormed(cfg.g)
  {
    forall acts, s :: Reached(cfg, acts, s) && Stuck(cfg, s) ==> s.outcome != Waiting
  }

  ghost predicate AllRunsSucceed(cfg: Config)
    requires WellFormed(cfg.g)
  {
    forall acts, s :: Reached(cfg, acts, s) && Stuck(cfg, s) ==> s.outcome == Success
  }

  /** A node no edge leads to, and everything behind it, waits for ever. */
  lemma UnfedNeverSucceeds(cfg: Config, acts: seq<Action>, s: State)
    requires Reached(cfg, acts, s) && !Wired(cfg.g)
    ensures s.outcome != Success
  {
    ReachedLive(cfg, acts, s);
    var n :| 0 <= n < |cfg.g| && n != START && Needed(cfg.g, n) && !Fed(cfg.g, n);
    assert NodeOk(cfg, s.st, n);
    if n != END {
      Contained(cfg, s, n, END);
    }
  }

  lemma JamNeverSucceeds(cfg: Config, acts: seq<Action>, s: State) returns (all: seq<Action>, t: State)
    requires Reached(cfg, acts, s) && Jammed(s)
    ensures Reached(cfg, all, t) && Stuck(cfg, t) && t.outcome != Success
  {
    ReachedLive(cfg, acts, s);
    var more := RunsEnd(cfg, s);
    all, t := acts + more, After(cfg, s, more);
    ReachedMore(cfg, acts, s, more);
    JamStays(cfg, s, more);
  }

  /** Without failures all complete runs succeed exactly when every node the end waits for
      has an edge leading to it and no run jams. */
  lemma SucceedsIff(cfg: Config)
    requires WellFormed(cfg.g) && cfg.canFail == {}
    ensures AllRunsSucceed(cfg) <==> Wired(cfg.g) && NeverJams(cfg)
  {
    if Wired(cfg.g) && NeverJams(cfg) {
      forall acts, s | Reached(cfg, acts, s) && Stuck(cfg, s)
        ensures s.outcome == Success
      {
        ReturnsAreRight(cfg, acts, s);
        if s.outcome == Waiting {
          HangMeansFull(cfg, acts, s);
        }
      }
    }
    if !Wired(cfg.g) {
      var acts := RunsEnd(cfg, Init(cfg));
      var s := After(cfg, Init(cfg), acts);
      assert Reached(cfg, acts, s);
      UnfedNeverSucceeds(cfg, acts, s);
    } else if !NeverJams(cfg) {
      var acts, s :| Reached(cfg, acts, s) && Jammed(s);
      var all, t := JamNeverSucceeds(cfg, acts, s);
    }
  }

  /** Whatever functions may fail, every complete run returns, with success or an error,
      exactly when every node the end waits for has an edge leading to it and no run without
      failures jams; that is, when all the runs without failures succeed. */
  lemma ReturnsIff(cfg: Config)
    requires WellFormed(cfg.g)
    ensures AllRunsReturn(cfg) <==> Wired(cfg.g) && NeverJams(Calm(cfg))
    ensures AllRunsReturn(cfg) <==> AllRunsSucceed(Calm(cfg))
  {
    var calm := Calm(cfg);
    SucceedsIff(calm);
    if AllRunsSucceed(calm) {
      forall acts, s | Reached(cfg, acts, s) && Stuck(cfg, s)
        ensures s.outcome != Waiting
      {
        if s.outcome == Waiting {
          ReachedLive(cfg, acts, s);
          HangMeansNoFailure(cfg, s);
          InitSafe(cfg);
          RunsCalm(cfg, Init(cfg), acts);
          assert Reached(calm, acts, s);
          HangMeansFull(cfg, acts, s);
        }
      }
    } else {
      var acts, s :| Reached(calm, acts, s) && Stuck(calm, s) && s.outcome != Success;
      CalmRuns(cfg, Init(cfg), acts);
      assert Reached(cfg, acts, s);
      StuckCalmly(cfg, s);
      ReturnsAreRight(calm, acts, s);
    }
  }

  // ---------- graphs that never jam ----------

  /** Only branches are ever skipped. */
  ghost predicate NothingToSkip(cfg: Config)
    requires WellFormed(cfg.g)
  {
    forall n :: 0 <= n < |cfg.g| && cfg.g[n].kind != Virtual ==> Eval(cfg, n) == Finished
  }

  /** Nothing but branches to skip, or no more messages than the channel has places. */
  ghost predicate Roomy(cfg: Config)
    requires WellFormed(cfg.g)
  {
    NothingToSkip(cfg) || MessageCount(cfg) <= DONE_CAPACITY
  }

  lemma NothingToSkipNeverSends(cfg: Config, s: State)
    requires Safe(cfg, s) && NothingToSkip(cfg)
    ensures !s.ctl.PublishingSkip?
  {
    if s.ctl.PublishingSkip? {
      var n := Target(cfg.g, s.ctl);
      assert NodeOk(cfg, s.st, n) && NodeOk(cfg, s.st, s.ctl.cur);
      assert Edge(cfg.g, s.ctl.cur, n);
      BranchParent(cfg.g, s.ctl.cur, n);
    }
  }

  lemma RoomyNeverJams(cfg: Config)
    requires WellFormed(cfg.g) && (NothingToSkip(cfg) || MessageCount(cfg) <= 100)
    ensures NeverJams(cfg)
  {
    forall acts, s | Reached(cfg, acts, s)
      ensures !Jammed(s)
    {
      ReachedLive(cfg, acts, s);
      if NothingToSkip(cfg) {
        NothingToSkipNeverSends(cfg, s);
      } else {
        MessagesBounded(cfg, acts, s);
      }
    }
  }

  lemma {:induction false} PlainFinishes(cfg: Config, n: nat)
    requires WellFormed(cfg.g) && n < |cfg.g| && forall m :: 0 <= m < |cfg.g| ==> cfg.g[m].kind != Conditional
    ensures Eval(cfg, n) == Finished
    decreases Rank(cfg.g, n)
  {
    if cfg.g[n].prev != [] {
      PredecessorRank(cfg.g, n, 0);
      PlainFinishes(cfg, cfg.g[n].prev[0]);
    }
  }

  /** A graph without conditionals never jams, however many paths it has. */
  lemma PlainIsRoomy(cfg: Config)
    requires WellFormed(cfg.g) && forall m :: 0 <= m < |cfg.g| ==> cfg.g[m].kind != Conditional
    ensures Roomy(cfg)
  {
    forall n | 0 <= n < |cfg.g|
      ensures Eval(cfg, n) == Finished
    {
      PlainFinishes(cfg, n);
    }
  }

  /** On a wired graph that has nothing to skip, or whose messages fit the channel, a run
      that can go no further has returned: with success, unless a function failed. */
  lemma RunAlwaysReturns(cfg: Config, acts: seq<Action>, s: State)
    requires Reached(cfg, acts, s) && Wired(cfg.g) && Roomy(cfg) && Stuck(cfg, s)
    ensures s.outcome != Waiting
    ensures cfg.canFail == {} ==> s.outcome == Success
  {
    RoomyNeverJams(cfg);
    ReturnsAreRight(cfg, acts, s);
    if s.outcome == Waiting {
      HangMeansFull(cfg, acts, s);
    }
  }

  /** So without failures, and with room, all complete runs succeed exactly on wired graphs. */
  lemma SucceedsIffWired(cfg: Config)
    requires WellFormed(cfg.g) && cfg.canFail == {} && Roomy(cfg)
    ensures AllRunsSucceed(cfg) <==> Wired(cfg.g)
  {
    RoomyNeverJams(cfg);
    SucceedsIff(cfg);
  }
}
