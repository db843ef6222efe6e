/** Running a scheduler again: what the nodes do that the reset missed.

    A run that finds some conditionals in old states takes the same steps as a fresh run in
    which the functions of these conditionals, once started, never return. */
module Reruns {
  import opened Graphs
  import opened Protocol
  import opened Outcomes
  import opened Safety
  import opened Reports
  import opened Theorems

  // ---------- the reset ----------

  /** What the reset makes of the states `st`: pending again are the start
      node and the registered nodes, and no others. */
  function ResetStates(st: seq<Status>, registered: set<nat>): (r: seq<Status>)
    ensures |r| == |st|
  {
    seq(|st|, n requires 0 <= n < |st| => if n == START || n in registered then Pending else st[n])
  }

  /** The reset prepares a fresh run exactly when the nodes it misses are pending already. */
  lemma ResetFreshIff(st: seq<Status>, registered: set<nat>)
    ensures ResetStates(st, registered) == Fresh(|st|) <==>
              forall n :: 0 <= n < |st| && n != START && n !in registered ==> st[n] == Pending
  {
    var r := ResetStates(st, registered);
    if r == Fresh(|st|) {
      forall n | 0 <= n < |st| && n != START && n !in registered
        ensures st[n] == Pending
      {
        assert r[n] == Fresh(|st|)[n];
      }
    }
  }

  /** Every node but the start, which the reset reaches by itself, is registered. */
  ghost predicate RegistersAll(g: Graph, registered: set<nat>) {
    forall n :: 0 <= n < |g| && n != START ==> n in registered
  }

  /** So is every node but the start and conditionals. */
  ghost predicate Registers(g: Graph, registered: set<nat>) {
    forall n :: 0 <= n < |g| && n != START && g[n].kind != Conditional ==> n in registered
  }

  /** At the launch of a run only conditionals are not pending. */
  ghost predicate StaleOnly(g: Graph, st: seq<Status>) {
    |st| == |g| && forall n :: 0 <= n < |g| && st[n] != Pending ==> g[n].kind == Conditional
  }

  /** A node that is not pending at the launch, be it of whatever kind and
      left in whatever state, is never started in that run. */
  lemma {:induction false} OldNeverStarted(cfg: Config, s: State, acts: seq<Action>, n: nat)
    requires Typed(cfg.g, s) && Runs(cfg, s, acts) && n < |cfg.g| && s.wk[n] == Absent && s.st[n] != Pending
    ensures After(cfg, s, acts).starts[n] == s.starts[n]
    ensures After(cfg, s, acts).wk[n] == Absent && After(cfg, s, acts).st[n] != Pending
    decreases |acts|
  {
    if acts != [] {
      OldNotStarted(cfg, s, acts[0], n);
      OldNeverStarted(cfg, Apply(cfg, s, acts[0]), acts[1..], n);
    }
  }

  lemma OldNotStarted(cfg: Config, s: State, a: Action, n: nat)
    requires Typed(cfg.g, s) && Enabled(cfg, s, a) && n < |cfg.g| && s.wk[n] == Absent && s.st[n] != Pending
    ensures Apply(cfg, s, a).starts[n] == s.starts[n] && Apply(cfg, s, a).wk[n] == Absent && Apply(cfg, s, a).st[n] != Pending
  {
  }

  /** So a node that the reset misses, and that an earlier run has started, is not run again. */
  lemma MissedNeverStarted(cfg: Config, left: seq<Status>, registered: set<nat>, acts: seq<Action>, n: nat)
    requires InRange(cfg.g) && |left| == |cfg.g| && n < |cfg.g| && n != START && n !in registered && left[n] != Pending
    requires Runs(cfg, Launch(cfg.g, ResetStates(left, registered)), acts)
    ensures After(cfg, Launch(cfg.g, ResetStates(left, registered)), acts).starts[n] == 0
  {
    OldNeverStarted(cfg, Launch(cfg.g, ResetStates(left, registered)), acts, n);
  }

  // ---------- a run and its shadow ----------

  /** One node, left in state `was`: its state and worker in the run and in the fresh run. */
  predicate Shadows(was: Status, x: Status, w: Worker, y: Status, v: Worker) {
    if was == Pending then x == y && w == v
    else
      && w == Absent && x != Pending
      && match y
         case Pending => v == Absent
         case Running => v == Executing
         case Skipped => x == Skipped
         case _ => false
  }

  ghost predicate NodesShadow(st0: seq<Status>, st: seq<Status>, wk: seq<Worker>, fst: seq<Status>, fwk: seq<Worker>) {
    && |st0| == |st| == |wk| == |fst| == |fwk|
    && forall n :: 0 <= n < |st0| ==> Shadows(st0[n], st[n], wk[n], fst[n], fwk[n])
  }

  /** `s` is a state of the run launched on `st0`, `f` of the fresh run by the same schedule. */
  ghost predicate Shadowed(cfg: Config, st0: seq<Status>, s: State, f: State) {
    && Safe(cfg, f) && Typed(cfg.g, s)
    && StaleOnly(cfg.g, st0) && NodesShadow(st0, s.st, s.wk, f.st, f.wk)
    && s == f.(st := s.st, wk := s.wk, starts := s.starts)
  }

  /** A predecessor being read is in the same state in both runs: a conditional
      is read only for a branch of its own, when it has been skipped. */
  lemma ReadsAgree(cfg: Config, st0: seq<Status>, s: State, f: State)
    requires Shadowed(cfg, st0, s, f) && s.ctl.Reading? && s.ctl.j < |cfg.g[Target(cfg.g, s.ctl)].prev|
    ensures var p := cfg.g[Target(cfg.g, s.ctl)].prev[s.ctl.j]; s.st[p] == f.st[p]
  {
    var n := Target(cfg.g, s.ctl);
    var p := cfg.g[n].prev[s.ctl.j];
    assert Shadows(st0[p], s.st[p], s.wk[p], f.st[p], f.wk[p]);
    if st0[p] != Pending {
      assert Edge(cfg.g, p, n) && Edge(cfg.g, s.ctl.cur, n);
      ConditionalParent(cfg, p, n);
      BranchParent(cfg.g, s.ctl.cur, n);
      assert Message(cfg, f.st, p);
    }
  }

  lemma WorkerAgrees(cfg: Config, st0: seq<Status>, s: State, f: State, n: nat)
    requires Shadowed(cfg, st0, s, f) && n < |cfg.g| && s.wk[n] != Absent
    ensures st0[n] == Pending && s.wk[n] == f.wk[n] && s.st[n] == f.st[n]
    ensures s.wk[n].Settling? && s.wk[n].i < |cfg.g[n].next| ==> st0[cfg.g[n].next[s.wk[n].i]] == Pending
  {
    assert Shadows(st0[n], s.st[n], s.wk[n], f.st[n], f.wk[n]) && WorkerOk(cfg, f.st, f.wk[n], f.starts[n], n);
    if s.wk[n].Settling? && s.wk[n].i < |cfg.g[n].next| {
      assert Edge(cfg.g, n, cfg.g[n].next[s.wk[n].i]);
      ConditionalParent(cfg, n, cfg.g[n].next[s.wk[n].i]);
    }
  }

  lemma WorkShadows(cfg: Config, st0: seq<Status>, s: State, f: State, n: nat, fails: bool)
    requires Shadowed(cfg, st0, s, f) && WorkEnabled(cfg, s, n, fails)
    ensures WorkEnabled(cfg, f, n, fails) && Shadowed(cfg, st0, Worked(cfg, s, n, fails), Worked(cfg, f, n, fails))
  {
    WorkerAgrees(cfg, st0, s, f, n);
    WorkedSafe(cfg, f, n, fails);
    WorkedNodes(cfg, st0, s, f, n, fails);
  }

  lemma WorkedNodes(cfg: Config, st0: seq<Status>, s: State, f: State, n: nat, fails: bool)
    requires Typed(cfg.g, s) && Typed(cfg.g, f) && NodesShadow(st0, s.st, s.wk, f.st, f.wk)
    requires WorkEnabled(cfg, s, n, fails) && WorkEnabled(cfg, f, n, fails)
    requires st0[n] == Pending && s.wk[n] == f.wk[n] && s == f.(st := s.st, wk := s.wk, starts := s.starts)
    requires s.wk[n].Settling? && s.wk[n].i < |cfg.g[n].next| ==> st0[cfg.g[n].next[s.wk[n].i]] == Pending
    ensures var t, h := Worked(cfg, s, n, fails), Worked(cfg, f, n, fails);
            NodesShadow(st0, t.st, t.wk, h.st, h.wk) && t == h.(st := t.st, wk := t.wk, starts := t.starts)
  {
  }

  lemma ReadShadows(cfg: Config, st0: seq<Status>, s: State, f: State)
    requires Shadowed(cfg, st0, s, f) && s.ctl.Reading? && s.ctl.j < |cfg.g[Target(cfg.g, s.ctl)].prev|
    ensures Shadowed(cfg, st0, ReadPredecessor(cfg.g, s), ReadPredecessor(cfg.g, f))
  {
    ReadPredecessorSafe(cfg, f);
    ReadsAgree(cfg, st0, s, f);
  }

  lemma SkipShadows(cfg: Config, st0: seq<Status>, s: State, f: State)
    requires Shadowed(cfg, st0, s, f) && AllRead(cfg.g, s) && AllSkipped(cfg.g, s)
    ensures Shadowed(cfg, st0, SkipNode(cfg.g, s), SkipNode(cfg.g, f))
  {
    var n := Target(cfg.g, s.ctl);
    SkipNodeSafe(cfg, f);
    assert Shadows(st0[n], s.st[n], s.wk[n], f.st[n], f.wk[n]);
  }

  /** The swap succeeds in both runs, in neither, or in the fresh run alone on an old conditional. */
  lemma SwapShadows(g: Graph, st0: seq<Status>, s: State, f: State)
    requires Typed(g, s) && Typed(g, f) && AllRead(g, s) && s == f.(st := s.st, wk := s.wk, starts := s.starts)
    requires NodesShadow(st0, s.st, s.wk, f.st, f.wk) && StaleOnly(g, st0)
    ensures var t, h := StartNode(g, s), StartNode(g, f);
            NodesShadow(st0, t.st, t.wk, h.st, h.wk) && t == h.(st := t.st, wk := t.wk, starts := t.starts)
  {
    var n := Target(g, s.ctl);
    assert Shadows(st0[n], s.st[n], s.wk[n], f.st[n], f.wk[n]);
  }

  lemma StartShadows(cfg: Config, st0: seq<Status>, s: State, f: State)
    requires Shadowed(cfg, st0, s, f) && AllRead(cfg.g, s) && !AllSkipped(cfg.g, s)
    ensures Shadowed(cfg, st0, StartNode(cfg.g, s), StartNode(cfg.g, f))
  {
    StartNodeSafe(cfg, f);
    SwapShadows(cfg.g, st0, s, f);
  }

  lemma ScheduleShadows(cfg: Config, st0: seq<Status>, s: State, f: State)
    requires Shadowed(cfg, st0, s, f) && ScheduleEnabled(s)
    ensures Shadowed(cfg, st0, Scheduled(cfg.g, s), Scheduled(cfg.g, f))
  {
    if s.ctl.Reading? {
      if !AllRead(cfg.g, s) { ReadShadows(cfg, st0, s, f); }
      else if AllSkipped(cfg.g, s) { SkipShadows(cfg, st0, s, f); }
      else { StartShadows(cfg, st0, s, f); }
    } else {
      MoveShadows(cfg, st0, s, f);
    }
  }

  lemma MoveShadows(cfg: Config, st0: seq<Status>, s: State, f: State)
    requires Shadowed(cfg, st0, s, f) && ScheduleEnabled(s) && !s.ctl.Reading?
    ensures Shadowed(cfg, st0, Scheduled(cfg.g, s), Scheduled(cfg.g, f))
  {
    ScheduledSafe(cfg, f);
  }

  lemma StepShadows(cfg: Config, st0: seq<Status>, s: State, f: State, a: Action)
    requires Shadowed(cfg, st0, s, f) && Enabled(cfg, s, a)
    ensures Enabled(cfg, f, a) && Shadowed(cfg, st0, Apply(cfg, s, a), Apply(cfg, f, a))
  {
    match a {
      case Work(n, fails) => WorkShadows(cfg, st0, s, f, n, fails);
      case Schedule => ScheduleShadows(cfg, st0, s, f);
      case Return(_) => StepSafe(cfg, f, a);
    }
  }

  lemma LaunchShadows(cfg: Config, st0: seq<Status>)
    requires WellFormed(cfg.g) && StaleOnly(cfg.g, st0)
    ensures Shadowed(cfg, st0, Launch(cfg.g, st0), Init(cfg))
  {
    InitSafe(cfg);
  }

  lemma {:induction false} RunShadows(cfg: Config, st0: seq<Status>, s: State, f: State, acts: seq<Action>)
    requires Shadowed(cfg, st0, s, f) && Runs(cfg, s, acts)
    ensures Runs(cfg, f, acts) && Shadowed(cfg, st0, After(cfg, s, acts), After(cfg, f, acts))
    decreases |acts|
  {
    if acts != [] {
      StepShadows(cfg, st0, s, f, acts[0]);
      RunShadows(cfg, st0, Apply(cfg, s, acts[0]), Apply(cfg, f, acts[0]), acts[1..]);
    }
  }

  /** A run of a scheduler some of whose conditionals are in old states. */
  ghost predicate Rerun(cfg: Config, st0: seq<Status>, acts: seq<Action>, s: State) {
    && WellFormed(cfg.g) && StaleOnly(cfg.g, st0)
    && Runs(cfg, Launch(cfg.g, st0), acts) && s == After(cfg, Launch(cfg.g, st0), acts)
  }

  /** The same schedule takes a fresh run to a state that differs at most in the old conditionals. */
  lemma RerunShadows(cfg: Config, st0: seq<Status>, acts: seq<Action>, s: State) returns (f: State)
    requires Rerun(cfg, st0, acts, s)
    ensures Reached(cfg, acts, f) && Shadowed(cfg, st0, s, f)
  {
    LaunchShadows(cfg, st0);
    RunShadows(cfg, st0, Launch(cfg.g, st0), Init(cfg), acts);
    f := After(cfg, Init(cfg), acts);
  }

  // ---------- what a rerun does ----------

  /** Whatever was left behind in the conditionals, every node that was pending
      at the launch settles as the evaluator says: the same in every run. */
  lemma RerunOutcomes(cfg: Config, st0: seq<Status>, acts: seq<Action>, s: State, n: nat)
    requires Rerun(cfg, st0, acts, s) && n < |cfg.g| && st0[n] == Pending && s.st[n].Settled()
    ensures s.st[n] == Eval(cfg, n)
  {
    var f := RerunShadows(cfg, st0, acts, s);
    assert Shadows(st0[n], s.st[n], s.wk[n], f.st[n], f.wk[n]);
    Confluence(cfg, acts, f, n);
  }

  /** A conditional that can still be used: it is pending, or it only has to be skipped. */
  ghost predicate Usable(cfg: Config, st0: seq<Status>, n: nat)
    requires WellFormed(cfg.g) && |st0| == |cfg.g| && n < |cfg.g|
  {
    st0[n] == Pending || Eval(cfg, n) == Skipped
  }

  ghost predicate AllUsable(cfg: Config, st0: seq<Status>)
    requires WellFormed(cfg.g) && |st0| == |cfg.g|
  {
    forall n :: 0 <= n < |cfg.g| && Needed(cfg.g, n) ==> Usable(cfg, st0, n)
  }

  /** Success, now as ever, means that all needed nodes have the evaluator's outcome; and
      it needs all of them usable: the swap of an old conditional from pending fails, its
      branches are never settled, and the caller is never told of success. */
  lemma RerunSuccess(cfg: Config, st0: seq<Status>, acts: seq<Action>, s: State)
    requires Rerun(cfg, st0, acts, s) && s.outcome == Success
    ensures AllUsable(cfg, st0)
    ensures forall n :: 0 <= n < |cfg.g| && Needed(cfg.g, n) ==> s.st[n] == Eval(cfg, n)
  {
    var f := RerunShadows(cfg, st0, acts, s);
    ReturnsAreRight(cfg, acts, f);
    forall n | 0 <= n < |cfg.g| && Needed(cfg.g, n)
      ensures Usable(cfg, st0, n) && s.st[n] == Eval(cfg, n)
    {
      assert Shadows(st0[n], s.st[n], s.wk[n], f.st[n], f.wk[n]);
    }
  }

  /** When nothing can move and nothing is queued, the shadow's workers
      have ended, but for the functions of old conditionals nobody needs. */
  lemma ShadowAtRest(cfg: Config, st0: seq<Status>, s: State, f: State)
    requires Shadowed(cfg, st0, s, f) && Live(cfg, f) && AllUsable(cfg, st0)
    requires Stuck(cfg, s) && s.outcome == Waiting && s.done == []
    ensures NoneAtWork(cfg.g, f)
  {
    forall n | 0 <= n < |cfg.g|
      ensures f.wk[n] == Absent || f.wk[n] == Exited || (f.wk[n] == Executing && n != START && !Needed(cfg.g, n))
    {
      assert Shadows(st0[n], s.st[n], s.wk[n], f.st[n], f.wk[n]) && NodeOk(cfg, f.st, n);
      assert WorkerOk(cfg, f.st, f.wk[n], f.starts[n], n);
      assert !Enabled(cfg, s, Work(n, false)) && !Enabled(cfg, s, Return(Error));
      assert Usable(cfg, st0, n) || !Needed(cfg.g, n);
    }
  }

  /** Without failures, a complete rerun whose needed nodes are
      all usable has succeeded, unless it jammed. */
  lemma RerunCompletes(cfg: Config, st0: seq<Status>, acts: seq<Action>, s: State)
    requires Rerun(cfg, st0, acts, s) && Stuck(cfg, s) && AllUsable(cfg, st0)
    requires cfg.canFail == {} && Wired(cfg.g) && NeverJams(cfg)
    ensures s.outcome == Success
  {
    var f := RerunShadows(cfg, st0, acts, s);
    ReturnsAreRight(cfg, acts, f);
    ReachedLive(cfg, acts, f);
    if s.outcome == Waiting {
      assert !Enabled(cfg, s, Schedule) && !Enabled(cfg, s, Return(Success)) && !Enabled(cfg, s, Return(Error));
      assert s.ctl == Idle;
      ShadowAtRest(cfg, st0, s, f);
      NeverIdle(cfg, f);
      FailedCanFail(cfg, f);
    }
  }

  ghost predicate AllRerunsSucceed(cfg: Config, st0: seq<Status>) {
    forall acts, s :: Rerun(cfg, st0, acts, s) && Stuck(cfg, s) ==> s.outcome == Success
  }

  /** Without failures and jams, on a wired graph: all complete runs launched on `st0` succeed
      exactly when every conditional the end waits for is pending or has only to be skipped. */
  lemma RerunsSucceedIff(cfg: Config, st0: seq<Status>)
    requires WellFormed(cfg.g) && StaleOnly(cfg.g, st0)
    requires cfg.canFail == {} && Wired(cfg.g) && NeverJams(cfg)
    ensures AllRerunsSucceed(cfg, st0) <==> AllUsable(cfg, st0)
  {
    if AllUsable(cfg, st0) {
      forall acts, s | Rerun(cfg, st0, acts, s) && Stuck(cfg, s)
        ensures s.outcome == Success
      {
        RerunCompletes(cfg, st0, acts, s);
      }
    } else {
      var acts := RunsEnd(cfg, Launch(cfg.g, st0));
      var s := After(cfg, Launch(cfg.g, st0), acts);
      assert Rerun(cfg, st0, acts, s);
      if s.outcome == Success {
        RerunSuccess(cfg, st0, acts, s);
      }
    }
  }

  /** Two runs of a scheduler with all nodes registered, whatever earlier runs left before
      each of them, settle no node differently; completed without failures on a wired graph
      with room they both succeed. */
  lemma RegisteredRunsAgree(cfg: Config, registered: set<nat>, left1: seq<Status>, acts1: seq<Action>, s1: State,
                            left2: seq<Status>, acts2: seq<Action>, s2: State)
    requires WellFormed(cfg.g) && |left1| == |left2| == |cfg.g|
    requires RegistersAll(cfg.g, registered)
    requires Rerun(cfg, ResetStates(left1, registered), acts1, s1) && Rerun(cfg, ResetStates(left2, registered), acts2, s2)
    ensures forall n :: 0 <= n < |cfg.g| && s1.st[n].Settled() && s2.st[n].Settled() ==> s1.st[n] == s2.st[n]
    ensures Wired(cfg.g) && Roomy(cfg) && cfg.canFail == {} && Stuck(cfg, s1) && Stuck(cfg, s2) ==>
              && s1.outcome == s2.outcome == Success
              && forall n :: 0 <= n < |cfg.g| && Needed(cfg.g, n) ==> s1.st[n] == s2.st[n]
  {
    ResetFreshIff(left1, registered);
    ResetFreshIff(left2, registered);
    assert Reached(cfg, acts1, s1) && Reached(cfg, acts2, s2);
    forall n | 0 <= n < |cfg.g| && s1.st[n].Settled() && s2.st[n].Settled()
      ensures s1.st[n] == s2.st[n]
    {
      Confluence(cfg, acts1, s1, n);
      Confluence(cfg, acts2, s2, n);
    }
    if Wired(cfg.g) && Roomy(cfg) && cfg.canFail == {} && Stuck(cfg, s1) && Stuck(cfg, s2) {
      RunAlwaysReturns(cfg, acts1, s1);
      RunAlwaysReturns(cfg, acts2, s2);
      ReturnsAreRight(cfg, acts1, s1);
      ReturnsAreRight(cfg, acts2, s2);
    }
  }

  // ---------- a second run after a first ----------

  lemma ResetStale(g: Graph, st: seq<Status>, registered: set<nat>)
    requires |st| == |g| && Registers(g, registered)
    ensures StaleOnly(g, ResetStates(st, registered))
  {
  }

  /** After a successful first run, on any tags, all complete second runs on tags that may
      differ succeed exactly when each unregistered conditional the end waits for has to be
      skipped this time. Any other was left settled and is never started again. */
  lemma SecondRunsSucceedIff(cfg: Config, first: seq<Action>, s: State, registered: set<nat>, again: Config)
    requires Reached(cfg, first, s) && s.outcome == Success && Registers(cfg.g, registered)
    requires again.g == cfg.g && again.canFail == {} && Wired(cfg.g) && NeverJams(again)
    ensures AllRerunsSucceed(again, ResetStates(s.st, registered)) <==>
              forall c :: 0 <= c < |cfg.g| && c != START && c !in registered && Needed(cfg.g, c) ==> Eval(again, c) == Skipped
  {
    var st0 := ResetStates(s.st, registered);
    ResetStale(cfg.g, s.st, registered);
    RerunsSucceedIff(again, st0);
    ReturnsAreRight(cfg, first, s);
    forall n | 0 <= n < |cfg.g| && Needed(cfg.g, n)
      ensures Usable(again, st0, n) <==> n == START || n in registered || Eval(again, n) == Skipped
    {
      assert s.st[n] == Eval(cfg, n);
    }
  }

  /** A conditional that the end waits for, that is not skipped and not registered, lets the
      scheduler succeed once and never again: neither a complete second run nor any other. */
  lemma SucceedsOnce(cfg: Config, registered: set<nat>, c: nat) returns (first: seq<Action>, s: State)
    requires WellFormed(cfg.g) && Wired(cfg.g) && NeverJams(cfg) && cfg.canFail == {} && Registers(cfg.g, registered)
    requires c < |cfg.g| && c != START && c !in registered && Needed(cfg.g, c) && Eval(cfg, c) == Finished
    ensures Reached(cfg, first, s) && Stuck(cfg, s) && s.outcome == Success
    ensures forall again, t :: Rerun(cfg, ResetStates(s.st, registered), again, t) ==> t.outcome != Success
  {
    first := RunsEnd(cfg, Init(cfg));
    s := After(cfg, Init(cfg), first);
    SucceedsIff(cfg);
    assert Reached(cfg, first, s);
    ReturnsAreRight(cfg, first, s);
    var st0 := ResetStates(s.st, registered);
    assert !Usable(cfg, st0, c);
    forall again, t | Rerun(cfg, st0, again, t)
      ensures t.outcome != Success
    {
      if t.outcome == Success {
        RerunSuccess(cfg, st0, again, t);
      }
    }
  }
}
