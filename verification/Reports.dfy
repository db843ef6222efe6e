/** What the caller of a run learns, and the whole invariant of a run. */
module Reports {
  import opened Graphs
  import opened Protocol
  import opened Outcomes
  import opened Safety
  import opened Wakeups

  /** The end node, once settled, is on its way to the control loop. */
  ghost predicate EndCarried(g: Graph, s: State)
    requires Typed(g, s) && |g| > END
  {
    || !s.st[END].Settled()
    || Halting(s.ctl)
    || END in s.done
    || s.wk[END] == Publishing
    || (s.ctl.PublishingSkip? && Target(g, s.ctl) == END)
  }

  ghost predicate AnyFailed(st: seq<Status>) {
    exists n :: 0 <= n < |st| && st[n] == Failed
  }

  /** Success is told only with the end node settled, an error only with a
      failed node, and of a failure or of a stop the caller is always told. */
  ghost predicate Reported(g: Graph, s: State)
    requires Typed(g, s) && |g| > END
  {
    && s.wk[START] != Absent
    && s.errs <= 1
    && (s.finished || s.outcome == Success || s.ctl == SignallingEnd ==> s.st[END].Settled())
    && (s.finished || s.outcome == Success ==> s.ctl == Stopped)
    && (s.errs > 0 || s.outcome == Error || s.ctl == ReportingError ==> AnyFailed(s.st))
    && (s.outcome == Waiting && s.ctl == Stopped ==> s.finished || s.errs > 0)
  }

  /** A worker that has reported its failure has not been overlooked. */
  ghost predicate FailuresTold(g: Graph, s: State)
    requires Typed(g, s)
  {
    s.outcome == Waiting && s.errs == 0 ==>
      forall n :: 0 <= n < |g| && s.wk[n] == Exited ==> s.st[n] != Failed
  }

  /** Holds from the launch on, in every interleaving. */
  ghost predicate Live(cfg: Config, s: State) {
    && Safe(cfg, s)
    && Awake(cfg.g, s)
    && EndCarried(cfg.g, s)
    && Reported(cfg.g, s)
    && FailuresTold(cfg.g, s)
  }

  lemma InitLive(cfg: Config)
    requires WellFormed(cfg.g)
    ensures Live(cfg, Init(cfg))
  {
    InitSafe(cfg);
    InitAwake(cfg);
  }

  lemma FailedStays(st: seq<Status>, st': seq<Status>)
    requires Stable(st, st') && AnyFailed(st)
    ensures AnyFailed(st')
  {
    var n :| 0 <= n < |st| && st[n] == Failed;
    assert st'[n] == Failed;
  }

  lemma WorkedEnd(cfg: Config, s: State, n: nat, fails: bool)
    requires Live(cfg, s) && WorkEnabled(cfg, s, n, fails)
    ensures EndCarried(cfg.g, Worked(cfg, s, n, fails))
  {
    assert WorkerOk(cfg, s.st, s.wk[n], s.starts[n], n);
    if s.wk[n].Settling? && s.wk[n].i < |cfg.g[n].next| {
      assert Edge(cfg.g, n, cfg.g[n].next[s.wk[n].i]);
      ConditionalParent(cfg, n, cfg.g[n].next[s.wk[n].i]);
    }
  }

  lemma WorkedReported(cfg: Config, s: State, n: nat, fails: bool)
    requires Live(cfg, s) && WorkEnabled(cfg, s, n, fails)
    ensures Reported(cfg.g, Worked(cfg, s, n, fails))
  {
    WorkedSafe(cfg, s, n, fails);
    assert WorkerOk(cfg, s.st, s.wk[n], s.starts[n], n);
    if AnyFailed(s.st) {
      FailedStays(s.st, Worked(cfg, s, n, fails).st);
    }
    StillReported(cfg, s, n, fails);
  }

  lemma StillReported(cfg: Config, s: State, n: nat, fails: bool)
    requires |cfg.g| > END && Typed(cfg.g, s) && WorkEnabled(cfg, s, n, fails) && Reported(cfg.g, s)
    requires Stable(s.st, Worked(cfg, s, n, fails).st) && (s.wk[n] == Reporting ==> s.st[n] == Failed)
    requires AnyFailed(s.st) ==> AnyFailed(Worked(cfg, s, n, fails).st)
    ensures Reported(cfg.g, Worked(cfg, s, n, fails))
  {
    if s.wk[n] == Reporting {
      assert Worked(cfg, s, n, fails).st[n] == Failed;
    }
  }

  lemma WorkedTold(cfg: Config, s: State, n: nat, fails: bool)
    requires Live(cfg, s) && WorkEnabled(cfg, s, n, fails)
    ensures FailuresTold(cfg.g, Worked(cfg, s, n, fails))
  {
    var t := Worked(cfg, s, n, fails);
    if t.outcome == Waiting && t.errs == 0 {
      forall m | 0 <= m < |cfg.g| && t.wk[m] == Exited
        ensures t.st[m] != Failed
      {
        if t.st[m] == Failed {
          WorkedFailed(cfg, s, n, fails, m);
        }
      }
    }
  }

  /** A step that is not a report brings no failed worker to its end. */
  lemma WorkedFailed(cfg: Config, s: State, n: nat, fails: bool, m: nat)
    requires Safe(cfg, s) && WorkEnabled(cfg, s, n, fails) && m < |cfg.g|
    requires Worked(cfg, s, n, fails).wk[m] == Exited && Worked(cfg, s, n, fails).st[m] == Failed
    ensures s.wk[n] == Reporting || (s.wk[m] == Exited && s.st[m] == Failed)
  {
    assert WorkerOk(cfg, s.st, s.wk[n], s.starts[n], n);
  }

  lemma PopEnd(cfg: Config, s: State)
    requires Live(cfg, s) && s.ctl == Idle && s.done != []
    ensures EndCarried(cfg.g, Pop(cfg.g, s))
  {
    var t := Pop(cfg.g, s);
    if END in s.done && s.done[0] != END {
      var k :| 0 <= k < |s.done| && s.done[k] == END;
      assert t.done[k - 1] == END;
    }
  }

  lemma ScheduledEnd(cfg: Config, s: State)
    requires Live(cfg, s) && ScheduleEnabled(s)
    ensures EndCarried(cfg.g, Scheduled(cfg.g, s))
  {
    match s.ctl {
      case Idle => PopEnd(cfg, s);
      case Reading(_, _, j, _) =>
        if AllRead(cfg.g, s) {
          var m := Target(cfg.g, s.ctl);
          assert WorkerOk(cfg, s.st, s.wk[m], s.starts[m], m);
        }
      case PublishingSkip(_, _) =>
        assert PublishSkipped(cfg.g, s).done[|s.done|] == Target(cfg.g, s.ctl);
      case _ =>
    }
  }

  lemma ScheduledFailed(cfg: Config, s: State, m: nat)
    requires Safe(cfg, s) && ScheduleEnabled(s) && m < |cfg.g|
    requires Scheduled(cfg.g, s).wk[m] == Exited && Scheduled(cfg.g, s).st[m] == Failed
    ensures s.wk[m] == Exited && s.st[m] == Failed
  {
  }

  lemma ReadReported(cfg: Config, s: State)
    requires Live(cfg, s) && s.ctl.Reading? && s.ctl.j < |cfg.g[Target(cfg.g, s.ctl)].prev|
    ensures Reported(cfg.g, ReadPredecessor(cfg.g, s))
  {
    var p := cfg.g[Target(cfg.g, s.ctl)].prev[s.ctl.j];
    assert s.st[p] == Failed ==> AnyFailed(s.st);
  }

  lemma DecideReported(cfg: Config, s: State)
    requires Live(cfg, s) && AllRead(cfg.g, s)
    ensures AllSkipped(cfg.g, s) ==> Reported(cfg.g, SkipNode(cfg.g, s))
    ensures !AllSkipped(cfg.g, s) ==> Reported(cfg.g, StartNode(cfg.g, s))
  {
    ScheduledSafe(cfg, s);
    if AnyFailed(s.st) {
      FailedStays(s.st, Scheduled(cfg.g, s).st);
    }
  }

  lemma ScheduledReported(cfg: Config, s: State)
    requires Live(cfg, s) && ScheduleEnabled(s)
    ensures Reported(cfg.g, Scheduled(cfg.g, s))
  {
    match s.ctl {
      case Idle => assert Message(cfg, s.st, s.done[0]);
      case Reading(_, _, j, _) =>
        if j < |cfg.g[Target(cfg.g, s.ctl)].prev| { ReadReported(cfg, s); } else { DecideReported(cfg, s); }
      case _ =>
    }
  }

  lemma ScheduledTold(cfg: Config, s: State)
    requires Live(cfg, s) && ScheduleEnabled(s)
    ensures FailuresTold(cfg.g, Scheduled(cfg.g, s))
  {
    var t := Scheduled(cfg.g, s);
    if t.outcome == Waiting && t.errs == 0 {
      forall m | 0 <= m < |cfg.g| && t.wk[m] == Exited
        ensures t.st[m] != Failed
      {
        if t.st[m] == Failed {
          ScheduledFailed(cfg, s, m);
        }
      }
    }
  }

  lemma StepLive(cfg: Config, s: State, a: Action)
    requires Live(cfg, s) && Enabled(cfg, s, a)
    ensures Live(cfg, Apply(cfg, s, a))
  {
    StepSafe(cfg, s, a);
    StepAwake(cfg, s, a);
    match a {
      case Work(n, fails) =>
        WorkedEnd(cfg, s, n, fails);
        WorkedReported(cfg, s, n, fails);
        WorkedTold(cfg, s, n, fails);
      case Schedule =>
        ScheduledEnd(cfg, s);
        ScheduledReported(cfg, s);
        ScheduledTold(cfg, s);
      case Return(_) =>
    }
  }

  lemma {:induction false} RunLive(cfg: Config, s: State, acts: seq<Action>)
    requires Live(cfg, s) && Runs(cfg, s, acts)
    ensures Live(cfg, After(cfg, s, acts))
    decreases |acts|
  {
    if acts != [] {
      StepLive(cfg, s, acts[0]);
      RunLive(cfg, Apply(cfg, s, acts[0]), acts[1..]);
    }
  }
}
