/** The safety invariant of the protocol, kept by every step of every goroutine. */
module Safety {
  import opened Graphs
  import opened Protocol
  import opened Outcomes

  // ---------- the invariant ----------

  /** What is published is settled; a finished conditional never is,
      its branches are published in its place. */
  ghost predicate Message(cfg: Config, st: seq<Status>, m: nat)
    requires |st| == |cfg.g|
  {
    m < |cfg.g| && st[m].Settled() && (cfg.g[m].kind == Conditional ==> st[m] == Skipped)
  }

  /** Branches before `i` are settled, from `j` on still pending. */
  ghost predicate Branches(cfg: Config, st: seq<Status>, c: nat, i: nat, j: nat)
    requires |st| == |cfg.g| && c < |cfg.g|
  {
    var next := cfg.g[c].next;
    && (forall k :: 0 <= k < |next| ==> next[k] < |cfg.g|)
    && (forall k :: 0 <= k < i && k < |next| ==> st[next[k]].Settled())
    && (forall k :: j <= k < |next| ==> st[next[k]] == Pending)
  }

  ghost predicate WorkerOk(cfg: Config, st: seq<Status>, w: Worker, starts: nat, n: nat)
    requires |st| == |cfg.g| && n < |cfg.g|
  {
    && starts == (if w == Absent then 0 else 1)
    && (cfg.g[n].kind == Virtual ==> w == Absent)
    && match w
       case Absent => cfg.g[n].kind == Virtual || st[n] == Pending || st[n] == Skipped
       case Executing => st[n] == Running || (n == START && st[n] == Pending)
       case Publishing => st[n] == Finished && cfg.g[n].kind != Conditional
       case Settling(i) => st[n] == Finished && cfg.g[n].kind == Conditional && Branches(cfg, st, n, i, i)
       case PublishingBranch(i) => st[n] == Finished && cfg.g[n].kind == Conditional && Branches(cfg, st, n, i + 1, i + 1)
       case Reporting => st[n] == Failed
       case Exited =>
         && (st[n] == Finished || st[n] == Failed)
         && (st[n] == Finished && cfg.g[n].kind == Conditional ==> Branches(cfg, st, n, |cfg.g[n].next|, |cfg.g[n].next|))
  }

  ghost predicate WorkersOk(cfg: Config, st: seq<Status>, wk: seq<Worker>, starts: seq<nat>) {
    && |st| == |wk| == |starts| == |cfg.g|
    && forall n :: 0 <= n < |cfg.g| ==> WorkerOk(cfg, st, wk[n], starts[n], n)
  }

  ghost function CountSkipped(st: seq<Status>, prev: seq<nat>, j: nat): (c: nat)
    requires j <= |prev| && forall k :: 0 <= k < |prev| ==> prev[k] < |st|
    ensures c <= j
    ensures c == j <==> forall k :: 0 <= k < j ==> st[prev[k]] == Skipped
  {
    if j == 0 then 0
    else CountSkipped(st, prev, j - 1) + if st[prev[j - 1]] == Skipped then 1 else 0
  }

  ghost predicate ScanOk(cfg: Config, st: seq<Status>, n: nat, j: nat, skips: nat)
    requires |st| == |cfg.g| && n < |cfg.g|
  {
    var prev := cfg.g[n].prev;
    && j <= |prev|
    && (forall k :: 0 <= k < |prev| ==> prev[k] < |cfg.g|)
    && (forall k :: 0 <= k < j ==> st[prev[k]].Settled())
    && skips == CountSkipped(st, prev, j)
  }

  /** The predecessors read so far were settled when read, and still are. */
  ghost predicate ControlOk(cfg: Config, st: seq<Status>, ctl: Control)
    requires |st| == |cfg.g| && ControlInRange(cfg.g, ctl)
  {
    match ctl
    case Visiting(cur, i) => Message(cfg, st, cur) && cur != END
    case Reading(cur, i, j, skips) =>
      Message(cfg, st, cur) && cur != END && ScanOk(cfg, st, Target(cfg.g, ctl), j, skips)
    case PublishingSkip(cur, i) => Message(cfg, st, cur) && cur != END && st[Target(cfg.g, ctl)] == Skipped
    case _ => true
  }

  ghost predicate DoneOk(cfg: Config, st: seq<Status>, done: seq<nat>)
    requires |st| == |cfg.g|
  {
    forall k :: 0 <= k < |done| ==> Message(cfg, st, done[k])
  }

  ghost predicate Safe(cfg: Config, s: State) {
    && WellFormed(cfg.g)
    && Typed(cfg.g, s)
    && StatesOk(cfg, s.st)
    && WorkersOk(cfg, s.st, s.wk, s.starts)
    && ControlOk(cfg, s.st, s.ctl)
    && DoneOk(cfg, s.st, s.done)
  }

  lemma InitSafe(cfg: Config)
    requires WellFormed(cfg.g)
    ensures Safe(cfg, Init(cfg))
  {
    FreshOk(cfg);
  }

  // ---------- frames ----------

  lemma CountStable(st: seq<Status>, st': seq<Status>, prev: seq<nat>, j: nat)
    requires Stable(st, st') && j <= |prev| && forall k :: 0 <= k < |prev| ==> prev[k] < |st|
    requires forall k :: 0 <= k < j ==> st[prev[k]].Settled()
    ensures CountSkipped(st', prev, j) == CountSkipped(st, prev, j)
  {
  }

  lemma ControlStable(cfg: Config, st: seq<Status>, st': seq<Status>, ctl: Control)
    requires |st| == |cfg.g| && ControlInRange(cfg.g, ctl) && ControlOk(cfg, st, ctl) && Stable(st, st')
    ensures ControlOk(cfg, st', ctl)
  {
    if ctl.Reading? {
      CountStable(st, st', cfg.g[Target(cfg.g, ctl)].prev, ctl.j);
    }
  }

  lemma DoneStable(cfg: Config, st: seq<Status>, st': seq<Status>, done: seq<nat>)
    requires |st| == |cfg.g| && DoneOk(cfg, st, done) && Stable(st, st')
    ensures DoneOk(cfg, st', done)
  {
  }

  /** A store to `x` leaves the workers alone whose own state and branches it misses. */
  lemma WorkerFrame(cfg: Config, st: seq<Status>, w: Worker, starts: nat, m: nat, x: nat, y: Status)
    requires WellFormed(cfg.g) && |st| == |cfg.g| && m < |cfg.g| && x < |cfg.g|
    requires WorkerOk(cfg, st, w, starts, m)
    requires x != m && (Edge(cfg.g, m, x) ==> cfg.g[m].kind != Conditional || st[m] != Finished)
    ensures WorkerOk(cfg, st[x := y], w, starts, m)
  {
    if cfg.g[m].kind == Conditional && st[m] == Finished {
      assert forall k :: 0 <= k < |cfg.g[m].next| ==> cfg.g[m].next[k] != x;
    }
  }

  lemma ConditionalParent(cfg: Config, c: nat, v: nat)
    requires WellFormed(cfg.g) && Edge(cfg.g, c, v) && cfg.g[c].kind == Conditional
    ensures cfg.g[v].kind == Virtual && cfg.g[v].prev == [c]
  {
    var k :| 0 <= k < |cfg.g[c].next| && cfg.g[c].next[k] == v;
    assert cfg.g[cfg.g[c].next[k]].kind == Virtual;
  }

  // ---------- steps of a worker ----------

  lemma WorkersStored(cfg: Config, s: State, n: nat, x: Status, w: Worker)
    requires Safe(cfg, s) && n < |cfg.g| && cfg.g[n].kind != Virtual
    requires WorkerOk(cfg, s.st[n := x], w, s.starts[n], n)
    ensures WorkersOk(cfg, s.st[n := x], s.wk[n := w], s.starts)
  {
    var st', wk' := s.st[n := x], s.wk[n := w];
    forall m | 0 <= m < |cfg.g|
      ensures WorkerOk(cfg, st', wk'[m], s.starts[m], m)
    {
      if m != n {
        WorkerFrame(cfg, s.st, s.wk[m], s.starts[m], m, n, x);
      }
    }
  }

  /** A conditional still running has touched none of its branches. */
  lemma BranchesPending(cfg: Config, st: seq<Status>, c: nat)
    requires WellFormed(cfg.g) && StatesOk(cfg, st) && c < |cfg.g|
    requires cfg.g[c].kind == Conditional && !st[c].Settled()
    ensures Branches(cfg, st[c := Finished], c, 0, 0)
  {
    forall k | 0 <= k < |cfg.g[c].next|
      ensures cfg.g[c].next[k] < |cfg.g| && st[c := Finished][cfg.g[c].next[k]] == Pending
    {
      var v := cfg.g[c].next[k];
      assert Edge(cfg.g, c, v) && cfg.g[v].kind == Virtual && c in cfg.g[v].prev;
      assert NodeOk(cfg, st, v);
    }
  }

  lemma FinishNodeSafe(cfg: Config, s: State, n: nat)
    requires Safe(cfg, s) && n < |cfg.g| && s.wk[n] == Executing
    ensures Safe(cfg, FinishNode(cfg.g, s, n)) && Stable(s.st, FinishNode(cfg.g, s, n).st)
  {
    assert WorkerOk(cfg, s.st, s.wk[n], s.starts[n], n) && NodeOk(cfg, s.st, n);
    StoreKeeps(cfg, s.st, n, Finished);
    ControlStable(cfg, s.st, s.st[n := Finished], s.ctl);
    DoneStable(cfg, s.st, s.st[n := Finished], s.done);
    if cfg.g[n].kind == Conditional {
      BranchesPending(cfg, s.st, n);
      WorkersStored(cfg, s, n, Finished, Settling(0));
    } else {
      WorkersStored(cfg, s, n, Finished, Publishing);
    }
  }

  lemma FailNodeSafe(cfg: Config, s: State, n: nat)
    requires Safe(cfg, s) && n < |cfg.g| && s.wk[n] == Executing && n in cfg.canFail && n != START && n != END
    ensures Safe(cfg, FailNode(cfg.g, s, n)) && Stable(s.st, FailNode(cfg.g, s, n).st)
  {
    assert WorkerOk(cfg, s.st, s.wk[n], s.starts[n], n) && NodeOk(cfg, s.st, n);
    StoreKeeps(cfg, s.st, n, Failed);
    ControlStable(cfg, s.st, s.st[n := Failed], s.ctl);
    DoneStable(cfg, s.st, s.st[n := Failed], s.done);
    WorkersStored(cfg, s, n, Failed, Reporting);
  }

  lemma PublishNodeSafe(cfg: Config, s: State, n: nat)
    requires Safe(cfg, s) && n < |cfg.g| && s.wk[n] == Publishing
    ensures Safe(cfg, PublishNode(cfg.g, s, n))
  {
    assert WorkerOk(cfg, s.st, s.wk[n], s.starts[n], n);
  }

  lemma PublishBranchSafe(cfg: Config, s: State, n: nat)
    requires Safe(cfg, s) && n < |cfg.g| && s.wk[n].PublishingBranch?
    ensures Safe(cfg, PublishBranch(cfg.g, s, n))
  {
    assert WorkerOk(cfg, s.st, s.wk[n], s.starts[n], n);
  }

  lemma BranchSettled(cfg: Config, st: seq<Status>, c: nat, i: nat, x: Status)
    requires WellFormed(cfg.g) && |st| == |cfg.g| && c < |cfg.g| && i < |cfg.g[c].next|
    requires cfg.g[c].kind == Conditional && st[c] == Finished && Branches(cfg, st, c, i, i) && x.Settled()
    ensures WorkerOk(cfg, st[cfg.g[c].next[i] := x], PublishingBranch(i), 1, c)
  {
    assert cfg.g[cfg.g[c].next[i]].kind == Virtual;
  }

  lemma SettleBranchWorkers(cfg: Config, s: State, n: nat)
    requires Safe(cfg, s) && n < |cfg.g| && s.wk[n].Settling? && s.wk[n].i < |cfg.g[n].next|
    ensures WorkersOk(cfg, SettleBranch(cfg, s, n).st, SettleBranch(cfg, s, n).wk, s.starts)
  {
    assert WorkerOk(cfg, s.st, s.wk[n], s.starts[n], n);
    var i := s.wk[n].i;
    var v, x := cfg.g[n].next[i], BranchStatus(cfg, n, cfg.g[n].next[i]);
    assert Edge(cfg.g, n, v);
    ConditionalParent(cfg, n, v);
    BranchSettled(cfg, s.st, n, i, x);
    var st', wk' := s.st[v := x], s.wk[n := PublishingBranch(i)];
    forall m | 0 <= m < |cfg.g|
      ensures WorkerOk(cfg, st', wk'[m], s.starts[m], m)
    {
      if m != n {
        assert WorkerOk(cfg, s.st, s.wk[m], s.starts[m], m);
        if m != v {
          WorkerFrame(cfg, s.st, s.wk[m], s.starts[m], m, v, x);
        }
      }
    }
  }

  lemma SettleBranchSafe(cfg: Config, s: State, n: nat)
    requires Safe(cfg, s) && n < |cfg.g| && s.wk[n].Settling? && s.wk[n].i < |cfg.g[n].next|
    ensures Safe(cfg, SettleBranch(cfg, s, n)) && Stable(s.st, SettleBranch(cfg, s, n).st)
    ensures var v := cfg.g[n].next[s.wk[n].i];
            SettleBranch(cfg, s, n).st == s.st[v := if n in cfg.tags && cfg.g[v].name in cfg.tags[n] then Finished else Skipped]
  {
    SettleBranchWorkers(cfg, s, n);
    assert WorkerOk(cfg, s.st, s.wk[n], s.starts[n], n);
    var v := cfg.g[n].next[s.wk[n].i];
    assert Edge(cfg.g, n, v);
    EvalChosenBranch(cfg, s.st, n, v);
    var st' := s.st[v := BranchStatus(cfg, n, v)];
    StoreKeeps(cfg, s.st, v, BranchStatus(cfg, n, v));
    ControlStable(cfg, s.st, st', s.ctl);
    DoneStable(cfg, s.st, st', s.done);
  }

  lemma OtherWorkSafe(cfg: Config, s: State, n: nat)
    requires Safe(cfg, s) && n < |cfg.g|
    ensures s.wk[n].Settling? && s.wk[n].i == |cfg.g[n].next| ==> Safe(cfg, BranchesDone(cfg.g, s, n))
    ensures s.wk[n] == Reporting ==> Safe(cfg, ReportFailure(cfg.g, s, n))
  {
    assert WorkerOk(cfg, s.st, s.wk[n], s.starts[n], n);
  }

  lemma WorkedSafe(cfg: Config, s: State, n: nat, fails: bool)
    requires Safe(cfg, s) && WorkEnabled(cfg, s, n, fails)
    ensures Safe(cfg, Worked(cfg, s, n, fails)) && Stable(s.st, Worked(cfg, s, n, fails).st)
  {
    match s.wk[n] {
      case Executing =>
        if fails { FailNodeSafe(cfg, s, n); } else { FinishNodeSafe(cfg, s, n); }
      case Publishing => PublishNodeSafe(cfg, s, n);
      case Settling(i) =>
        if i == |cfg.g[n].next| { OtherWorkSafe(cfg, s, n); } else { SettleBranchSafe(cfg, s, n); }
      case PublishingBranch(_) => PublishBranchSafe(cfg, s, n);
      case Reporting => OtherWorkSafe(cfg, s, n);
    }
  }

  // ---------- steps of the control loop ----------

  lemma ControlMoved(cfg: Config, s: State, ctl: Control)
    requires Safe(cfg, s) && ControlInRange(cfg.g, ctl) && ControlOk(cfg, s.st, ctl)
    ensures Safe(cfg, s.(ctl := ctl))
  {
  }

  lemma AfterReadOk(cfg: Config, st: seq<Status>, ctl: Control)
    requires |st| == |cfg.g| && InRange(cfg.g)
    requires ctl.Reading? && ControlInRange(cfg.g, ctl) && ControlOk(cfg, st, ctl)
    requires ctl.j < |cfg.g[Target(cfg.g, ctl)].prev|
    ensures var ctl' := AfterRead(ctl, st[cfg.g[Target(cfg.g, ctl)].prev[ctl.j]]);
            ControlInRange(cfg.g, ctl') && ControlOk(cfg, st, ctl')
  {
    var n := Target(cfg.g, ctl);
    if st[cfg.g[n].prev[ctl.j]].Settled() {
      ScanExtended(cfg, st, n, ctl.j, ctl.skips);
    }
  }

  lemma ReadPredecessorSafe(cfg: Config, s: State)
    requires Safe(cfg, s) && s.ctl.Reading? && s.ctl.j < |cfg.g[Target(cfg.g, s.ctl)].prev|
    ensures Safe(cfg, ReadPredecessor(cfg.g, s))
  {
    AfterReadOk(cfg, s.st, s.ctl);
  }

  lemma ScanExtended(cfg: Config, st: seq<Status>, n: nat, j: nat, skips: nat)
    requires |st| == |cfg.g| && n < |cfg.g| && ScanOk(cfg, st, n, j, skips)
    requires j < |cfg.g[n].prev| && st[cfg.g[n].prev[j]].Settled()
    ensures ScanOk(cfg, st, n, j + 1, skips + if st[cfg.g[n].prev[j]] == Skipped then 1 else 0)
  {
  }

  /** All read and none unsettled: the count tells whether all are skipped. */
  lemma ScanComplete(cfg: Config, s: State)
    requires Safe(cfg, s) && AllRead(cfg.g, s)
    ensures var n := Target(cfg.g, s.ctl);
            && n != START && Edge(cfg.g, s.ctl.cur, n)
            && PrevSettled(cfg.g, s.st, n)
            && s.st[START] == Finished && Fed(cfg.g, n)
            && (AllSkipped(cfg.g, s) <==> cfg.g[n].prev != [] && PrevSkipped(cfg.g, s.st, n))
            && (cfg.g[n].kind == Virtual ==> AllSkipped(cfg.g, s))
  {
    var n := Target(cfg.g, s.ctl);
    assert Edge(cfg.g, s.ctl.cur, n);
    NotIntoStart(cfg.g, s.ctl.cur);
    assert NodeOk(cfg, s.st, s.ctl.cur) && NodeOk(cfg, s.st, START);
    if cfg.g[n].kind == Virtual {
      BranchParent(cfg.g, s.ctl.cur, n);
    }
  }

  lemma SkipNodeSafe(cfg: Config, s: State)
    requires Safe(cfg, s) && AllRead(cfg.g, s) && AllSkipped(cfg.g, s)
    ensures Safe(cfg, SkipNode(cfg.g, s)) && Stable(s.st, SkipNode(cfg.g, s).st)
  {
    var n := Target(cfg.g, s.ctl);
    ScanComplete(cfg, s);
    if cfg.g[n].kind == Virtual {
      EvalSkippedBranch(cfg, s.st, n);
    } else {
      EvalFromStates(cfg, s.st, n);
    }
    assert NodeOk(cfg, s.st, n) && WorkerOk(cfg, s.st, s.wk[n], s.starts[n], n);
    var st' := s.st[n := Skipped];
    assert PrevSettled(cfg.g, st', n);
    StoreKeeps(cfg, s.st, n, Skipped);
    ControlStable(cfg, s.st, st', Visiting(s.ctl.cur, s.ctl.i));
    DoneStable(cfg, s.st, st', s.done);
    forall m | 0 <= m < |cfg.g|
      ensures WorkerOk(cfg, st', s.wk[m], s.starts[m], m)
    {
      assert WorkerOk(cfg, s.st, s.wk[m], s.starts[m], m);
      if m != n {
        if Edge(cfg.g, m, n) && cfg.g[m].kind == Conditional {
          ConditionalParent(cfg, m, n);
        }
        WorkerFrame(cfg, s.st, s.wk[m], s.starts[m], m, n, Skipped);
      }
    }
  }

  lemma StartNodeWorkers(cfg: Config, s: State)
    requires Safe(cfg, s) && AllRead(cfg.g, s) && !AllSkipped(cfg.g, s)
    requires s.st[Target(cfg.g, s.ctl)] == Pending
    ensures WorkersOk(cfg, StartNode(cfg.g, s).st, StartNode(cfg.g, s).wk, StartNode(cfg.g, s).starts)
  {
    var n := Target(cfg.g, s.ctl);
    ScanComplete(cfg, s);
    assert WorkerOk(cfg, s.st, s.wk[n], s.starts[n], n);
    var t := StartNode(cfg.g, s);
    forall m | 0 <= m < |cfg.g|
      ensures WorkerOk(cfg, t.st, t.wk[m], t.starts[m], m)
    {
      assert WorkerOk(cfg, s.st, s.wk[m], s.starts[m], m);
      if m != n {
        if Edge(cfg.g, m, n) && cfg.g[m].kind == Conditional {
          ConditionalParent(cfg, m, n);
        }
        WorkerFrame(cfg, s.st, s.wk[m], s.starts[m], m, n, Running);
      }
    }
  }

  lemma StartNodeSafe(cfg: Config, s: State)
    requires Safe(cfg, s) && AllRead(cfg.g, s) && !AllSkipped(cfg.g, s)
    ensures Safe(cfg, StartNode(cfg.g, s)) && Stable(s.st, StartNode(cfg.g, s).st)
  {
    var n := Target(cfg.g, s.ctl);
    if s.st[n] == Pending {
      StartNodeWorkers(cfg, s);
      ScanComplete(cfg, s);
      EvalFromStates(cfg, s.st, n);
      PrevSettledStored(cfg.g, s.st, n, n, Running);
      StoreKeeps(cfg, s.st, n, Running);
      ControlStable(cfg, s.st, s.st[n := Running], Visiting(s.ctl.cur, s.ctl.i + 1));
      DoneStable(cfg, s.st, s.st[n := Running], s.done);
    } else {
      ControlMoved(cfg, s, Visiting(s.ctl.cur, s.ctl.i + 1));
    }
  }

  lemma ScheduledSafe(cfg: Config, s: State)
    requires Safe(cfg, s) && ScheduleEnabled(s)
    ensures Safe(cfg, Scheduled(cfg.g, s)) && Stable(s.st, Scheduled(cfg.g, s).st)
  {
    match s.ctl {
      case Idle => assert Message(cfg, s.st, s.done[0]);
      case Visiting(_, _) => ControlMoved(cfg, s, NextSuccessor(cfg.g, s).ctl);
      case Reading(_, _, j, _) =>
        if j < |cfg.g[Target(cfg.g, s.ctl)].prev| { ReadPredecessorSafe(cfg, s); }
        else if AllSkipped(cfg.g, s) { SkipNodeSafe(cfg, s); }
        else { StartNodeSafe(cfg, s); }
      case PublishingSkip(_, _) => PublishSkippedSafe(cfg, s);
      case ReportingError =>
      case SignallingEnd =>
    }
  }

  lemma PublishSkippedSafe(cfg: Config, s: State)
    requires Safe(cfg, s) && s.ctl.PublishingSkip?
    ensures Safe(cfg, PublishSkipped(cfg.g, s))
  {
  }

  lemma StepSafe(cfg: Config, s: State, a: Action)
    requires Safe(cfg, s) && Enabled(cfg, s, a)
    ensures Safe(cfg, Apply(cfg, s, a)) && Stable(s.st, Apply(cfg, s, a).st)
  {
    match a {
      case Work(n, fails) => WorkedSafe(cfg, s, n, fails);
      case Schedule => ScheduledSafe(cfg, s);
      case Return(_) =>
    }
  }

  lemma {:induction false} RunSafe(cfg: Config, s: State, acts: seq<Action>)
    requires Safe(cfg, s) && Runs(cfg, s, acts)
    ensures Safe(cfg, After(cfg, s, acts)) && Stable(s.st, After(cfg, s, acts).st)
    decreases |acts|
  {
    if acts != [] {
      StepSafe(cfg, s, acts[0]);
      RunSafe(cfg, Apply(cfg, s, acts[0]), acts[1..]);
    }
  }
}
