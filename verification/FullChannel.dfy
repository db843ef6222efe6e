/** The channel of settled nodes can fill up for good: the control loop, its only
    reader, also sends on it. A conditional that goes on publishing branches while the
    loop wants to publish a skipped node is enough. */
module FullChannel {
  import opened Graphs
  import opened Protocol
  import opened Outcomes
  import opened Safety
  import opened Wakeups
  import opened Reports
  import opened Bounds
  import opened Theorems

  /** One of the first branches of `c`, up to branch `q`. */
  ghost predicate EarlyBranch(g: Graph, c: nat, q: nat, p: nat)
    requires c < |g| && q < |g[c].next|
  {
    exists k :: 0 <= k <= q && g[c].next[k] == p
  }

  /** Nodes that need no others: an edge leads to each, and with a node come its predecessors. */
  ghost predicate Closed(g: Graph, go: set<nat>) {
    START in go && forall n :: n in go ==> n < |g| && (n == START || Follows(g, n, go))
  }

  ghost predicate Follows(g: Graph, n: nat, go: set<nat>)
    requires n < |g|
  {
    Fed(g, n) && forall k :: 0 <= k < |g[n].prev| ==> g[n].prev[k] in go
  }

  /** The end waits for some node outside `go` that is not skipped. */
  ghost predicate EndHeld(cfg: Config, go: set<nat>)
    requires WellFormed(cfg.g)
  {
    exists h :: Holds(cfg, go, h)
  }

  ghost predicate Holds(cfg: Config, go: set<nat>, h: nat)
    requires WellFormed(cfg.g)
  {
    h < |cfg.g| && h !in go && cfg.g[h].kind != Virtual && Needed(cfg.g, h) && Eval(cfg, h) == Finished
  }

  /** Conditional `c` runs as soon as the nodes in `go`, which leave the end undecided, have
      settled. After its branch `q` it has branches enough to fill the channel; and up to branch
      `q` it has decided that `t` is to be skipped. All this can be told before a run. */
  ghost predicate Clogs(cfg: Config, c: nat, q: nat, t: nat, go: set<nat>) {
    var g := cfg.g;
    && WellFormed(g) && Closed(g, go) && EndHeld(cfg, go)
    && c < |g| && g[c].kind == Conditional && c !in go && Follows(g, c, go) && Eval(cfg, c) == Finished
    && q + DONE_CAPACITY < |g[c].next|
    && t < |g| && g[t].kind != Virtual && g[t].prev != [] && Reaches(g, c, t)
    && forall k :: 0 <= k < |g[t].prev| ==>
         && g[t].prev[k] < |g| && Eval(cfg, g[t].prev[k]) == Skipped
         && (EarlyBranch(g, c, q, g[t].prev[k]) || g[t].prev[k] in go)
  }

  // ---------- the nodes before the conditional ----------

  /** The functions of all other nodes are not yet started, or have not yet returned. */
  ghost predicate Unreturned(s: State, go: set<nat>) {
    forall n :: 0 <= n < |s.wk| && n !in go ==> s.wk[n] == Absent || s.wk[n] == Executing
  }

  ghost predicate StuckBut(cfg: Config, s: State, go: set<nat>)
    requires Typed(cfg.g, s)
  {
    forall a :: Enabled(cfg, s, a) ==> a.Work? && a.n !in go
  }

  lemma GoStep(cfg: Config, s: State, go: set<nat>, a: Action)
    requires Typed(cfg.g, s) && Unreturned(s, go) && Enabled(cfg, s, a) && (a.Work? ==> a.n in go)
    ensures Unreturned(Apply(cfg, s, a), go)
  {
  }

  /** These can go on until they can go no further. */
  lemma {:induction false} GoEnds(cfg: Config, s: State, go: set<nat>) returns (acts: seq<Action>)
    requires Live(cfg, s) && Unreturned(s, go)
    ensures Runs(cfg, s, acts) && Live(cfg, After(cfg, s, acts))
    ensures StuckBut(cfg, After(cfg, s, acts), go) && Unreturned(After(cfg, s, acts), go)
    decreases Fuel(cfg.g, s)
  {
    if StuckBut(cfg, s, go) {
      acts := [];
    } else {
      var a :| Enabled(cfg, s, a) && (a.Work? ==> a.n in go);
      StepFuel(cfg, s, a);
      StepLive(cfg, s, a);
      GoStep(cfg, s, go, a);
      var rest := GoEnds(cfg, Apply(cfg, s, a), go);
      acts := RunsCons(cfg, s, a, rest);
    }
  }

  lemma UnreturnedUnsettled(cfg: Config, s: State, go: set<nat>, n: nat)
    requires Safe(cfg, s) && Unreturned(s, go) && START in go && n < |cfg.g| && n !in go
    requires cfg.g[n].kind != Virtual && Eval(cfg, n) == Finished
    ensures !s.st[n].Settled()
  {
    assert WorkerOk(cfg, s.st, s.wk[n], s.starts[n], n) && NodeOk(cfg, s.st, n);
  }

  /** All workers have ended, or run functions outside `go`; nothing is queued. */
  ghost predicate IdleBut(g: Graph, s: State, go: set<nat>)
    requires |s.wk| == |g|
  {
    && s.ctl == Idle && s.done == []
    && forall n :: 0 <= n < |g| ==> s.wk[n] == Absent || s.wk[n] == Exited || (s.wk[n] == Executing && n !in go)
  }

  /** Nobody is told anything before the end has settled. */
  lemma StillWaiting(cfg: Config, s: State, go: set<nat>)
    requires Live(cfg, s) && cfg.canFail == {} && Unreturned(s, go) && START in go && EndHeld(cfg, go)
    ensures s.outcome == Waiting && !s.finished && s.errs == 0 && !AnyFailed(s.st) && s.ctl != SignallingEnd
  {
    var h :| Holds(cfg, go, h);
    UnreturnedUnsettled(cfg, s, go, h);
    if s.st[END].Settled() {
      EndSettlesNeeded(cfg, s);
    }
    if AnyFailed(s.st) {
      FailedCanFail(cfg, s);
    }
  }

  lemma StuckButIsIdle(cfg: Config, s: State, go: set<nat>)
    requires Live(cfg, s) && cfg.canFail == {} && Unreturned(s, go) && START in go && EndHeld(cfg, go)
    requires StuckBut(cfg, s, go) && !Jammed(s)
    ensures IdleBut(cfg.g, s, go) && !AnyFailed(s.st)
  {
    StillWaiting(cfg, s, go);
    assert !Enabled(cfg, s, Schedule);
    assert s.ctl == Idle && s.done == [];
    forall n | 0 <= n < |cfg.g|
      ensures s.wk[n] == Absent || s.wk[n] == Exited || (s.wk[n] == Executing && n !in go)
    {
      assert n in go ==> !Enabled(cfg, s, Work(n, false));
    }
  }

  lemma IdleButCarriesNothing(g: Graph, s: State, go: set<nat>, n: nat)
    requires Typed(g, s) && IdleBut(g, s, go) && START in go && n < |g|
    ensures !Carried(g, s, n)
  {
  }

  lemma NotReady(g: Graph, s: State, t: nat)
    requires Typed(g, s) && Awake(g, s) && s.ctl == Idle && t < |g| && !Carried(g, s, t)
    ensures !Ready(g, s.st, t)
  {
  }

  /** With its predecessors settled, a node is not left pending. */
  lemma NotLeftPending(cfg: Config, s: State, go: set<nat>, n: nat)
    requires Safe(cfg, s) && Awake(cfg.g, s) && IdleBut(cfg.g, s, go) && START in go
    requires n < |cfg.g| && n != START && Fed(cfg.g, n)
    requires forall k :: 0 <= k < |cfg.g[n].prev| ==> s.st[cfg.g[n].prev[k]].Settled()
    ensures s.st[n] != Pending
  {
    IdleButCarriesNothing(cfg.g, s, go, n);
    NotReady(cfg.g, s, n);
  }

  /** All of `go` has settled. */
  lemma {:induction false} GoSettled(cfg: Config, s: State, go: set<nat>, n: nat)
    requires Safe(cfg, s) && Awake(cfg.g, s) && IdleBut(cfg.g, s, go) && !AnyFailed(s.st) && s.wk[START] != Absent
    requires Closed(cfg.g, go) && n in go
    ensures s.st[n].Settled()
    decreases Rank(cfg.g, n)
  {
    assert WorkerOk(cfg, s.st, s.wk[n], s.starts[n], n) && NodeOk(cfg, s.st, n);
    if n != START {
      forall k | 0 <= k < |cfg.g[n].prev|
        ensures s.st[cfg.g[n].prev[k]].Settled()
      {
        PredecessorRank(cfg.g, n, k);
        GoSettled(cfg, s, go, cfg.g[n].prev[k]);
      }
      NotLeftPending(cfg, s, go, n);
    }
  }

  /** And `c` runs. */
  lemma ConditionalRuns(cfg: Config, s: State, go: set<nat>, c: nat)
    requires Live(cfg, s) && IdleBut(cfg.g, s, go) && Unreturned(s, go) && !AnyFailed(s.st) && Closed(cfg.g, go)
    requires c < |cfg.g| && cfg.g[c].kind == Conditional && c !in go && Follows(cfg.g, c, go) && Eval(cfg, c) == Finished
    ensures s.wk[c] == Executing
  {
    assert WorkerOk(cfg, s.st, s.wk[c], s.starts[c], c) && NodeOk(cfg, s.st, c);
    forall k | 0 <= k < |cfg.g[c].prev|
      ensures s.st[cfg.g[c].prev[k]].Settled()
    {
      GoSettled(cfg, s, go, cfg.g[c].prev[k]);
    }
    NotLeftPending(cfg, s, go, c);
  }

  // ---------- one branch after the other ----------

  /** The other workers have ended, or run functions that do not return. */
  ghost predicate OthersRest(g: Graph, s: State, c: nat)
    requires |s.wk| == |g|
  {
    forall n :: 0 <= n < |g| && n != c ==> s.wk[n] == Absent || s.wk[n] == Exited || (s.wk[n] == Executing && n != START)
  }

  /** `t` has not been skipped yet; it waits for early branches of `c` only. */
  ghost predicate Undecided(g: Graph, st: seq<Status>, c: nat, q: nat, t: nat)
    requires |st| == |g| && c < |g| && t < |g| && q < |g[c].next|
  {
    && st[t] != Skipped
    && forall k :: 0 <= k < |g[t].prev| ==>
         g[t].prev[k] < |g| && (EarlyBranch(g, c, q, g[t].prev[k]) || st[g[t].prev[k]].Settled())
  }

  ghost predicate Busy(cfg: Config, s: State, c: nat, q: nat, t: nat) {
    && Live(cfg, s) && cfg.canFail == {}
    && c < |cfg.g| && c != START && t < |cfg.g| && q < |cfg.g[c].next| && cfg.g[t].kind != Virtual
    && OthersRest(cfg.g, s, c) && Undecided(cfg.g, s.st, c, q, t)
  }

  /** The conditional is about to settle branch `i`, those before having been taken. */
  ghost predicate Publishes(cfg: Config, s: State, c: nat, i: nat, q: nat, t: nat) {
    Busy(cfg, s, c, q, t) && s.wk[c] == Settling(i) && s.done == [] && i <= q + 1
  }

  lemma UndecidedStays(g: Graph, st: seq<Status>, st': seq<Status>, c: nat, q: nat, t: nat)
    requires |st| == |g| && c < |g| && t < |g| && q < |g[c].next| && Undecided(g, st, c, q, t)
    requires Stable(st, st') && st'[t] != Skipped
    ensures Undecided(g, st', c, q, t)
  {
  }

  lemma NobodyFailed(cfg: Config, s: State, n: nat)
    requires Safe(cfg, s) && cfg.canFail == {} && n < |cfg.g|
    ensures s.st[n] != Failed
  {
    assert NodeOk(cfg, s.st, n);
  }

  /** What a step of the control loop does to the others while it is at work on a message. */
  lemma ControlShape(g: Graph, s: State, c: nat, i: nat, t: nat)
    requires Typed(g, s) && (s.ctl.Visiting? || s.ctl.Reading?) && c < |g| && t < |g|
    requires s.wk[c] == Settling(i) && s.st[c] == Finished && s.done == [] && OthersRest(g, s, c) && s.st[t] != Skipped
    requires s.ctl.Reading? ==> Target(g, s.ctl) != START
    requires s.ctl.Reading? && s.ctl.j < |g[Target(g, s.ctl)].prev| ==> s.st[g[Target(g, s.ctl)].prev[s.ctl.j]] != Failed
    ensures var h := Scheduled(g, s);
            && h.wk[c] == Settling(i) && h.done == [] && OthersRest(g, h, c)
            && (h.ctl.PublishingSkip? || ((h.ctl == Idle || h.ctl.Visiting? || h.ctl.Reading?) && h.st[t] != Skipped))
  {
  }

  lemma ControlSees(cfg: Config, s: State)
    requires Safe(cfg, s) && cfg.canFail == {} && s.ctl.Reading?
    ensures Target(cfg.g, s.ctl) != START
    ensures s.ctl.j < |cfg.g[Target(cfg.g, s.ctl)].prev| ==> s.st[cfg.g[Target(cfg.g, s.ctl)].prev[s.ctl.j]] != Failed
  {
    assert Edge(cfg.g, s.ctl.cur, Target(cfg.g, s.ctl));
    NotIntoStart(cfg.g, s.ctl.cur);
    if s.ctl.j < |cfg.g[Target(cfg.g, s.ctl)].prev| {
      NobodyFailed(cfg, s, cfg.g[Target(cfg.g, s.ctl)].prev[s.ctl.j]);
    }
  }

  lemma SettlingFinished(cfg: Config, s: State, c: nat, i: nat)
    requires Safe(cfg, s) && c < |cfg.g| && (s.wk[c] == Settling(i) || s.wk[c] == PublishingBranch(i))
    ensures s.st[c] == Finished && cfg.g[c].kind == Conditional
  {
    assert WorkerOk(cfg, s.st, s.wk[c], s.starts[c], c);
  }

  /** A step of the control loop at work on a message either skips a node or leaves all as it is. */
  lemma ControlStep(cfg: Config, s: State, c: nat, i: nat, q: nat, t: nat)
    requires Publishes(cfg, s, c, i, q, t) && (s.ctl.Visiting? || s.ctl.Reading?)
    ensures var h := Scheduled(cfg.g, s);
            if h.ctl.PublishingSkip? then h.wk[c] == Settling(i) && h.done == []
            else Publishes(cfg, h, c, i, q, t) && (h.ctl == Idle || h.ctl.Visiting? || h.ctl.Reading?)
  {
    StepLive(cfg, s, Schedule);
    ScheduledSafe(cfg, s);
    if s.ctl.Reading? {
      ControlSees(cfg, s);
    }
    SettlingFinished(cfg, s, c, i);
    ControlShape(cfg.g, s, c, i, t);
    if !Scheduled(cfg.g, s).ctl.PublishingSkip? {
      UndecidedStays(cfg.g, s.st, Scheduled(cfg.g, s).st, c, q, t);
    }
  }

  /** The control loop goes on until it waits for a message or wants to send one. */
  lemma {:induction false} ControlEnds(cfg: Config, s: State, c: nat, i: nat, q: nat, t: nat) returns (acts: seq<Action>)
    requires Publishes(cfg, s, c, i, q, t) && (s.ctl == Idle || s.ctl.Visiting? || s.ctl.Reading?)
    ensures Runs(cfg, s, acts)
    ensures var h := After(cfg, s, acts);
            || (h.ctl.PublishingSkip? && h.wk[c] == Settling(i) && h.done == [])
            || (h.ctl == Idle && Publishes(cfg, h, c, i, q, t))
    decreases Fuel(cfg.g, s)
  {
    if s.ctl == Idle {
      acts := [];
    } else {
      ControlStep(cfg, s, c, i, q, t);
      StepFuel(cfg, s, Schedule);
      var h := Scheduled(cfg.g, s);
      var rest := [];
      if !h.ctl.PublishingSkip? {
        rest := ControlEnds(cfg, h, c, i, q, t);
      }
      acts := RunsCons(cfg, s, Schedule, rest);
    }
  }

  lemma SettleBusy(cfg: Config, s: State, c: nat, i: nat, q: nat, t: nat) returns (h: State)
    requires Busy(cfg, s, c, q, t) && s.wk[c] == Settling(i) && i < |cfg.g[c].next|
    ensures Enabled(cfg, s, Work(c, false)) && h == Apply(cfg, s, Work(c, false)) && Busy(cfg, h, c, q, t)
    ensures h.wk[c] == PublishingBranch(i) && h.done == s.done && h.ctl == s.ctl
  {
    h := Apply(cfg, s, Work(c, false));
    StepLive(cfg, s, Work(c, false));
    StepSafe(cfg, s, Work(c, false));
    SettlingFinished(cfg, s, c, i);
    assert cfg.g[cfg.g[c].next[i]].kind == Virtual;
    UndecidedStays(cfg.g, s.st, h.st, c, q, t);
  }

  lemma PublishBusy(cfg: Config, s: State, c: nat, i: nat, q: nat, t: nat) returns (h: State)
    requires Busy(cfg, s, c, q, t) && s.wk[c] == PublishingBranch(i) && s.done == []
    ensures Enabled(cfg, s, Work(c, false)) && h == Apply(cfg, s, Work(c, false)) && Busy(cfg, h, c, q, t)
    ensures h.wk[c] == Settling(i + 1) && h.done == [cfg.g[c].next[i]] && h.ctl == s.ctl
  {
    h := Apply(cfg, s, Work(c, false));
    StepLive(cfg, s, Work(c, false));
  }

  lemma PopBusy(cfg: Config, s: State, c: nat, v: nat, q: nat, t: nat) returns (h: State)
    requires Busy(cfg, s, c, q, t) && s.ctl == Idle && s.done == [v] && v != END
    ensures Enabled(cfg, s, Schedule) && h == Apply(cfg, s, Schedule) && Busy(cfg, h, c, q, t)
    ensures h.wk == s.wk && h.done == [] && h.ctl == Visiting(v, 0)
  {
    h := Apply(cfg, s, Schedule);
    StepLive(cfg, s, Schedule);
  }

  /** The conditional settles and publishes its next branch, and the control loop takes it. */
  lemma BranchTaken(cfg: Config, s: State, c: nat, i: nat, q: nat, t: nat) returns (acts: seq<Action>)
    requires Publishes(cfg, s, c, i, q, t) && s.ctl == Idle && i <= q
    ensures Runs(cfg, s, acts)
    ensures var h := After(cfg, s, acts); Publishes(cfg, h, c, i + 1, q, t) && h.ctl.Visiting?
  {
    SettlingFinished(cfg, s, c, i);
    assert cfg.g[cfg.g[c].next[i]].kind == Virtual;
    var s1 := SettleBusy(cfg, s, c, i, q, t);
    var s2 := PublishBusy(cfg, s1, c, i, q, t);
    var s3 := PopBusy(cfg, s2, c, cfg.g[c].next[i], q, t);
    acts := RunsCons(cfg, s2, Schedule, []);
    acts := RunsCons(cfg, s1, Work(c, false), acts);
    acts := RunsCons(cfg, s, Work(c, false), acts);
  }

  /** Past its early branches, the conditional carries nothing to `t`. */
  lemma SettlingCarriesNothing(g: Graph, s: State, c: nat, i: nat, t: nat)
    requires WellFormed(g) && Typed(g, s) && OthersRest(g, s, c) && c < |g| && c != START && s.wk[c] == Settling(i)
    requires g[c].kind == Conditional && s.done == [] && s.ctl == Idle && t < |g| && g[t].kind != Virtual
    ensures !Carried(g, s, t)
  {
    forall k | 0 <= k < |g[c].next|
      ensures g[c].next[k] != t
    {
      assert g[g[c].next[k]].kind == Virtual;
    }
  }

  lemma EarlySettled(cfg: Config, s: State, c: nat, q: nat, t: nat)
    requires Publishes(cfg, s, c, q + 1, q, t)
    ensures PrevSettled(cfg.g, s.st, t)
  {
    assert WorkerOk(cfg, s.st, s.wk[c], s.starts[c], c);
  }

  /** After the early branches `t` is left undecided only if it is not to be skipped. */
  lemma Decided(cfg: Config, s: State, c: nat, q: nat, t: nat)
    requires Publishes(cfg, s, c, q + 1, q, t) && s.ctl == Idle
    requires cfg.g[t].prev != []
    ensures Eval(cfg, t) != Skipped
  {
    NobodyFailed(cfg, s, t);
    assert NodeOk(cfg, s.st, t);
    if s.st[t] == Pending {
      EarlySettled(cfg, s, c, q, t);
      SettlingFinished(cfg, s, c, q + 1);
      SettlingCarriesNothing(cfg.g, s, c, q + 1, t);
      NotReady(cfg.g, s, t);
      assert false;
    }
  }

  // ---------- filling the channel ----------

  /** While the control loop waits to send, the conditional fills the channel. */
  lemma {:induction false} Fills(cfg: Config, s: State, c: nat, i: nat) returns (acts: seq<Action>)
    requires Typed(cfg.g, s) && c < |cfg.g| && s.wk[c] == Settling(i) && s.ctl.PublishingSkip?
    requires |s.done| <= DONE_CAPACITY <= |s.done| + |cfg.g[c].next| - i
    ensures Runs(cfg, s, acts) && Jammed(After(cfg, s, acts))
    decreases DONE_CAPACITY - |s.done|
  {
    if |s.done| == DONE_CAPACITY {
      acts := [];
    } else {
      var s1 := Apply(cfg, s, Work(c, false));
      assert s1.wk[c] == PublishingBranch(i) && s1.done == s.done && s1.ctl == s.ctl;
      var s2 := Apply(cfg, s1, Work(c, false));
      assert s2.wk[c] == Settling(i + 1) && |s2.done| == |s.done| + 1 && s2.ctl == s.ctl;
      acts := Fills(cfg, s2, c, i + 1);
      acts := RunsCons(cfg, s1, Work(c, false), acts);
      acts := RunsCons(cfg, s, Work(c, false), acts);
    }
  }

  lemma {:induction false} PublishesJams(cfg: Config, s: State, c: nat, i: nat, q: nat, t: nat) returns (acts: seq<Action>)
    requires Publishes(cfg, s, c, i, q, t) && s.ctl == Idle && q + DONE_CAPACITY < |cfg.g[c].next|
    requires Eval(cfg, t) == Skipped && cfg.g[t].prev != []
    ensures Runs(cfg, s, acts) && Jammed(After(cfg, s, acts))
    decreases q + 1 - i
  {
    if i == q + 1 {
      Decided(cfg, s, c, q, t);
      assert false;
    } else {
      acts := BranchTaken(cfg, s, c, i, q, t);
      var s1 := After(cfg, s, acts);
      var more := ControlEnds(cfg, s1, c, i + 1, q, t);
      RunsConcat(cfg, s, acts, more);
      acts := acts + more;
      var s2 := After(cfg, s1, more);
      if s2.ctl.PublishingSkip? {
        more := Fills(cfg, s2, c, i + 1);
      } else {
        more := PublishesJams(cfg, s2, c, i + 1, q, t);
      }
      RunsConcat(cfg, s, acts, more);
      acts := acts + more;
    }
  }

  // ---------- the whole run ----------

  lemma AwaitsBranches(cfg: Config, s: State, c: nat, q: nat, t: nat, go: set<nat>)
    requires Clogs(cfg, c, q, t, go) && Live(cfg, s) && Unreturned(s, go) && IdleBut(cfg.g, s, go) && !AnyFailed(s.st)
    ensures s.st[t] == Pending && Undecided(cfg.g, s.st, c, q, t)
  {
    var g := cfg.g;
    UnreturnedUnsettled(cfg, s, go, c);
    Contained(cfg, s, c, t);
    forall k | 0 <= k < |g[t].prev|
      ensures EarlyBranch(g, c, q, g[t].prev[k]) || s.st[g[t].prev[k]].Settled()
    {
      if g[t].prev[k] in go {
        GoSettled(cfg, s, go, g[t].prev[k]);
      }
    }
  }

  /** All before it being done, the function of the conditional returns. */
  lemma Returns(cfg: Config, s: State, c: nat, q: nat, t: nat, go: set<nat>) returns (h: State)
    requires Clogs(cfg, c, q, t, go) && cfg.canFail == {}
    requires Live(cfg, s) && Unreturned(s, go) && IdleBut(cfg.g, s, go) && !AnyFailed(s.st)
    ensures Enabled(cfg, s, Work(c, false)) && h == Apply(cfg, s, Work(c, false))
    ensures Publishes(cfg, h, c, 0, q, t) && h.ctl == Idle
  {
    AwaitsBranches(cfg, s, c, q, t, go);
    ConditionalRuns(cfg, s, go, c);
    h := FunctionReturns(cfg, s, c, q, t, go);
  }

  lemma FunctionReturns(cfg: Config, s: State, c: nat, q: nat, t: nat, go: set<nat>) returns (h: State)
    requires Live(cfg, s) && cfg.canFail == {} && IdleBut(cfg.g, s, go) && START in go
    requires c < |cfg.g| && c !in go && cfg.g[c].kind == Conditional && s.wk[c] == Executing && q < |cfg.g[c].next|
    requires t < |cfg.g| && cfg.g[t].kind != Virtual && s.st[t] == Pending && Undecided(cfg.g, s.st, c, q, t)
    ensures Enabled(cfg, s, Work(c, false)) && h == Apply(cfg, s, Work(c, false))
    ensures Publishes(cfg, h, c, 0, q, t) && h.ctl == Idle
  {
    h := Apply(cfg, s, Work(c, false));
    StepLive(cfg, s, Work(c, false));
    StepSafe(cfg, s, Work(c, false));
    assert WorkerOk(cfg, s.st, s.wk[c], s.starts[c], c);
    UndecidedStays(cfg.g, s.st, h.st, c, q, t);
  }

  lemma TargetSkipped(cfg: Config, c: nat, q: nat, t: nat, go: set<nat>)
    requires Clogs(cfg, c, q, t, go)
    ensures Eval(cfg, t) == Skipped
  {
    NothingReachesStart(cfg.g, c);
  }

  lemma NothingReachesStart(g: Graph, n: nat)
    requires WellFormed(g)
    ensures !Reaches(g, n, START)
  {
    if Reaches(g, n, START) {
      var m := ReachesLastEdge(g, n, START);
      NotIntoStart(g, m);
    }
  }

  lemma CalmJams(cfg: Config, c: nat, q: nat, t: nat, go: set<nat>) returns (acts: seq<Action>, s: State)
    requires Clogs(cfg, c, q, t, go) && cfg.canFail == {}
    ensures Reached(cfg, acts, s) && Jammed(s)
  {
    TargetSkipped(cfg, c, q, t, go);
    InitLive(cfg);
    acts := GoEnds(cfg, Init(cfg), go);
    s := After(cfg, Init(cfg), acts);
    if !Jammed(s) {
      StuckButIsIdle(cfg, s, go);
      var h := Returns(cfg, s, c, q, t, go);
      var more := PublishesJams(cfg, h, c, 0, q, t);
      more := RunsCons(cfg, s, Work(c, false), more);
      ReachedMore(cfg, acts, s, more);
      acts, s := acts + more, After(cfg, s, more);
    }
  }

  lemma {:induction false} EvalCalm(cfg: Config, n: nat)
    requires WellFormed(cfg.g) && n < |cfg.g|
    ensures Eval(Calm(cfg), n) == Eval(cfg, n)
    decreases Rank(cfg.g, n)
  {
    forall k | 0 <= k < |cfg.g[n].prev|
      ensures cfg.g[n].prev[k] < |cfg.g| && Eval(Calm(cfg), cfg.g[n].prev[k]) == Eval(cfg, cfg.g[n].prev[k])
    {
      PredecessorRank(cfg.g, n, k);
      EvalCalm(cfg, cfg.g[n].prev[k]);
    }
  }

  lemma CalmClogs(cfg: Config, c: nat, q: nat, t: nat, go: set<nat>)
    requires Clogs(cfg, c, q, t, go)
    ensures Clogs(Calm(cfg), c, q, t, go)
  {
    forall n | 0 <= n < |cfg.g|
      ensures Eval(Calm(cfg), n) == Eval(cfg, n)
    {
      EvalCalm(cfg, n);
    }
    var h :| Holds(cfg, go, h);
    assert Holds(Calm(cfg), go, h);
  }

  /** Some schedule blocks the control loop on the full channel. */
  lemma ClogJams(cfg: Config, c: nat, q: nat, t: nat, go: set<nat>) returns (acts: seq<Action>, s: State)
    requires Clogs(cfg, c, q, t, go)
    ensures Reached(cfg, acts, s) && Jammed(s)
  {
    CalmClogs(cfg, c, q, t, go);
    acts, s := CalmJams(Calm(cfg), c, q, t, go);
    CalmRuns(cfg, Init(cfg), acts);
  }

  /** And then the caller is never told anything, although no function has failed. */
  lemma ClogHangs(cfg: Config, c: nat, q: nat, t: nat, go: set<nat>) returns (acts: seq<Action>, s: State)
    requires Clogs(cfg, c, q, t, go)
    ensures Reached(cfg, acts, s) && Stuck(cfg, s) && s.outcome == Waiting && !AnyFailed(s.st)
  {
    CalmClogs(cfg, c, q, t, go);
    acts, s := CalmJams(Calm(cfg), c, q, t, go);
    acts, s := JamNeverSucceeds(Calm(cfg), acts, s);
    ReturnsAreRight(Calm(cfg), acts, s);
    CalmRuns(cfg, Init(cfg), acts);
    ReachedLive(cfg, acts, s);
    StuckCalmly(cfg, s);
    HangMeansNoFailure(cfg, s);
  }

  // ---------- conditionals entered from the start ----------

  /** Behind a skipped node there is one that finishes, other than the start. */
  lemma {:induction false} SkippedAfter(cfg: Config, n: nat) returns (h: nat)
    requires WellFormed(cfg.g) && n < |cfg.g| && Eval(cfg, n) == Skipped
    ensures h < |cfg.g| && h != START && cfg.g[h].kind != Virtual && Eval(cfg, h) == Finished && Reaches(cfg.g, h, n)
    decreases Rank(cfg.g, n)
  {
    var p := cfg.g[n].prev[0];
    PredecessorRank(cfg.g, n, 0);
    EdgeReaches(cfg.g, p, n);
    if Eval(cfg, p) == Finished {
      h := p;
    } else {
      h := SkippedAfter(cfg, p);
      ReachesTransitive(cfg.g, h, p, n);
    }
  }

  lemma StartHoldsNothing(cfg: Config)
    requires WellFormed(cfg.g)
    ensures Closed(cfg.g, {START}) && EndHeld(cfg, {START})
  {
    if Eval(cfg, END) == Finished {
      assert Holds(cfg, {START}, END);
    } else {
      var h := SkippedAfter(cfg, END);
      assert Holds(cfg, {START}, h);
    }
  }

  /** An entry conditional with an unchosen branch that is the only way to its target
      and that at least 100 branches follow can always block the control loop. */
  lemma EntryClogs(cfg: Config, c: nat, q: nat, t: nat)
    requires WellFormed(cfg.g) && c < |cfg.g| && cfg.g[c].kind == Conditional
    requires cfg.g[c].prev == [] && c in cfg.g[START].next && q + 100 < |cfg.g[c].next|
    requires t < |cfg.g| && cfg.g[t].prev == [cfg.g[c].next[q]]
    requires cfg.g[cfg.g[c].next[q]].name !in TagsOf(cfg, c)
    ensures Clogs(cfg, c, q, t, {START}) && !AllRunsReturn(cfg)
  {
    var g, v := cfg.g, cfg.g[c].next[q];
    StartHoldsNothing(cfg);
    assert Edge(g, c, v);
    ConditionalParent(cfg, c, v);
    assert g[t].prev[0] == v && Edge(g, v, t);
    EdgeReaches(g, c, v);
    EdgeReaches(g, v, t);
    ReachesTransitive(g, c, v, t);
    assert Eval(cfg, c) == Finished && Eval(cfg, v) == Skipped by {
      assert g[v].prev[0] == c;
    }
    assert EarlyBranch(g, c, q, v);
    var acts, s := ClogHangs(cfg, c, q, t, {START});
  }
}
