/** The run-time protocol of the scheduler as a transition system.

    Four kinds of goroutine interleave: one worker for each node whose function
    runs, the control loop, and the caller waiting inside `Run`. Every action below
    is one atomic step of one of them: a read of one predecessor's state, a
    compare-and-swap, a store of one state, a send or a receive on one channel. */
module Protocol {
  import opened Graphs

  /** Buffer size of the channel of settled nodes. */
  const DONE_CAPACITY: nat := 100

  datatype Status = Pending | Running | Skipped | Finished | Failed {
    /** Skipped or finished: what a successor waits for. */
    predicate Settled() { Skipped? || Finished? }

    /** Settled or failed: the node's last state of the run. */
    predicate Ended() { Skipped? || Finished? || Failed? }
  }

  /** Where the goroutine running a node's function stands. A conditional that has
      finished settles its branches from `i` on, publishing each before the next. */
  datatype Worker =
    | Absent
    | Executing
    | Publishing
    | Settling(i: nat)
    | PublishingBranch(i: nat)
    | Reporting
    | Exited

  /** Where the control loop stands: waiting for a message; about to schedule
      successor `i` of `cur`; reading predecessor `j` of that successor, having
      counted `skips` skipped ones; about to publish that successor as skipped. */
  datatype Control =
    | Idle
    | Visiting(cur: nat, i: nat)
    | Reading(cur: nat, i: nat, j: nat, skips: nat)
    | PublishingSkip(cur: nat, i: nat)
    | ReportingError
    | SignallingEnd
    | Stopped

  datatype Outcome = Waiting | Success | Error

  /** `starts` (how often each function was started) and `pushed` (how many messages
      were ever sent on the channel of settled nodes) are history variables. */
  datatype State = State(
    st: seq<Status>, wk: seq<Worker>,
    done: seq<nat>, ctl: Control,
    finished: bool, errs: nat, outcome: Outcome,
    starts: seq<nat>, pushed: nat)

  /** The graph, the tags each conditional will answer, and the nodes whose function
      may return an error. Whether such a node does fail is left to each run. */
  datatype Config = Config(g: Graph, tags: map<nat, seq<string>>, canFail: set<nat>)

  /** Which goroutine takes the next step. A worker whose function is running also
      chooses whether the function returns an error; the caller chooses which of
      its two channels to receive from. */
  datatype Action = Work(n: nat, fails: bool) | Schedule | Return(with: Outcome)

  function TagsOf(cfg: Config, n: nat): seq<string> {
    if n in cfg.tags then cfg.tags[n] else []
  }

  function BranchStatus(cfg: Config, c: nat, v: nat): Status
    requires v < |cfg.g|
  {
    if cfg.g[v].name in TagsOf(cfg, c) then Finished else Skipped
  }

  // ---------- shape of a state ----------

  ghost predicate ControlInRange(g: Graph, ctl: Control) {
    match ctl
    case Visiting(cur, i) => cur < |g| && i <= |g[cur].next|
    case Reading(cur, i, j, skips) =>
      && cur < |g| && i < |g[cur].next| && g[cur].next[i] < |g|
      && j <= |g[g[cur].next[i]].prev| && skips <= j
    case PublishingSkip(cur, i) => cur < |g| && i < |g[cur].next| && g[cur].next[i] < |g|
    case _ => true
  }

  ghost predicate WorkerInRange(g: Graph, n: nat, w: Worker)
    requires n < |g|
  {
    match w
    case Settling(i) => i <= |g[n].next|
    case PublishingBranch(i) => i < |g[n].next| && g[n].next[i] < |g|
    case _ => true
  }

  /** Sizes and positions: what makes the steps below defined. */
  ghost predicate Typed(g: Graph, s: State) {
    && InRange(g)
    && |s.st| == |s.wk| == |s.starts| == |g|
    && (forall k :: 0 <= k < |s.done| ==> s.done[k] < |g|)
    && ControlInRange(g, s.ctl)
    && (forall n :: 0 <= n < |g| ==> WorkerInRange(g, n, s.wk[n]))
  }

  // ---------- start of a run ----------

  function Fresh(n: nat): (st: seq<Status>)
    ensures |st| == n && forall k :: 0 <= k < n ==> st[k] == Pending
  {
    seq(n, _ => Pending)
  }

  function FirstWorkers(n: nat): (wk: seq<Worker>)
    ensures |wk| == n && forall k :: 0 <= k < n ==> wk[k] == if k == START then Executing else Absent
  {
    seq(n, k => if k == START then Executing else Absent)
  }

  function FirstStarts(n: nat): (starts: seq<nat>)
    ensures |starts| == n && forall k :: 0 <= k < n ==> starts[k] == if k == START then 1 else 0
  {
    seq(n, k => if k == START then 1 else 0)
  }

  /** A run begins with the node states `st` that the reset left,
      the worker of the start node launched and everything else empty. */
  function Launch(g: Graph, st: seq<Status>): (s: State)
    ensures InRange(g) && |st| == |g| ==> Typed(g, s)
  {
    State(st, FirstWorkers(|g|), [], Idle, false, 0, Waiting, FirstStarts(|g|), 0)
  }

  function Init(cfg: Config): State {
    Launch(cfg.g, Fresh(|cfg.g|))
  }

  // ---------- steps of a worker ----------

  /** The node's function returned without an error. */
  ghost function FinishNode(g: Graph, s: State, n: nat): (t: State)
    requires Typed(g, s) && n < |g| && s.wk[n] == Executing
    ensures Typed(g, t)
  {
    s.(st := s.st[n := Finished], wk := s.wk[n := if g[n].kind == Conditional then Settling(0) else Publishing])
  }

  ghost function FailNode(g: Graph, s: State, n: nat): (t: State)
    requires Typed(g, s) && n < |g| && s.wk[n] == Executing
    ensures Typed(g, t)
  {
    s.(st := s.st[n := Failed], wk := s.wk[n := Reporting])
  }

  ghost function PublishNode(g: Graph, s: State, n: nat): (t: State)
    requires Typed(g, s) && n < |g| && s.wk[n] == Publishing
    ensures Typed(g, t)
  {
    s.(done := s.done + [n], pushed := s.pushed + 1, wk := s.wk[n := Exited])
  }

  /** A finished conditional stores the state of its next branch. */
  ghost function SettleBranch(cfg: Config, s: State, n: nat): (t: State)
    requires Typed(cfg.g, s) && n < |cfg.g| && s.wk[n].Settling? && s.wk[n].i < |cfg.g[n].next|
    ensures Typed(cfg.g, t)
  {
    var v := cfg.g[n].next[s.wk[n].i];
    s.(st := s.st[v := BranchStatus(cfg, n, v)], wk := s.wk[n := PublishingBranch(s.wk[n].i)])
  }

  ghost function PublishBranch(g: Graph, s: State, n: nat): (t: State)
    requires Typed(g, s) && n < |g| && s.wk[n].PublishingBranch?
    ensures Typed(g, t)
  {
    s.(done := s.done + [g[n].next[s.wk[n].i]], pushed := s.pushed + 1, wk := s.wk[n := Settling(s.wk[n].i + 1)])
  }

  ghost function BranchesDone(g: Graph, s: State, n: nat): (t: State)
    requires Typed(g, s) && n < |g| && s.wk[n].Settling? && s.wk[n].i == |g[n].next|
    ensures Typed(g, t)
  {
    s.(wk := s.wk[n := Exited])
  }

  ghost function ReportFailure(g: Graph, s: State, n: nat): (t: State)
    requires Typed(g, s) && n < |g| && s.wk[n] == Reporting
    ensures Typed(g, t)
  {
    s.(errs := s.errs + 1, wk := s.wk[n := Exited])
  }

  ghost predicate WorkEnabled(cfg: Config, s: State, n: nat, fails: bool)
    requires Typed(cfg.g, s)
  {
    && n < |cfg.g|
    && (fails ==> s.wk[n] == Executing && n in cfg.canFail && n != START && n != END)
    && match s.wk[n]
       case Absent => false
       case Executing => true
       case Publishing => |s.done| < DONE_CAPACITY
       case Settling(_) => true
       case PublishingBranch(_) => |s.done| < DONE_CAPACITY
       case Reporting => s.errs < 1
       case Exited => false
  }

  ghost function Worked(cfg: Config, s: State, n: nat, fails: bool): (t: State)
    requires Typed(cfg.g, s) && WorkEnabled(cfg, s, n, fails)
    ensures Typed(cfg.g, t)
  {
    match s.wk[n]
    case Executing => if fails then FailNode(cfg.g, s, n) else FinishNode(cfg.g, s, n)
    case Publishing => PublishNode(cfg.g, s, n)
    case Settling(i) => if i == |cfg.g[n].next| then BranchesDone(cfg.g, s, n) else SettleBranch(cfg, s, n)
    case PublishingBranch(_) => PublishBranch(cfg.g, s, n)
    case Reporting => ReportFailure(cfg.g, s, n)
  }

  // ---------- steps of the control loop ----------

  /** Receive one settled node; the end node stops the loop. */
  ghost function Pop(g: Graph, s: State): (t: State)
    requires Typed(g, s) && s.ctl == Idle && s.done != []
    ensures Typed(g, t)
  {
    s.(done := s.done[1..], ctl := if s.done[0] == END then SignallingEnd else Visiting(s.done[0], 0))
  }

  ghost function NextSuccessor(g: Graph, s: State): (t: State)
    requires Typed(g, s) && s.ctl.Visiting?
    ensures Typed(g, t)
  {
    s.(ctl := if s.ctl.i == |g[s.ctl.cur].next| then Idle else Reading(s.ctl.cur, s.ctl.i, 0, 0))
  }

  /** The successor the control loop is looking at. */
  ghost function Target(g: Graph, ctl: Control): (n: nat)
    requires (ctl.Reading? || ctl.PublishingSkip?) && ControlInRange(g, ctl)
    ensures n < |g|
  {
    g[ctl.cur].next[ctl.i]
  }

  /** What reading the state `p` of one predecessor makes of the control loop: an unsettled
      one sends it on to the next successor, a failed one ends it with an error. */
  ghost function AfterRead(ctl: Control, p: Status): Control
    requires ctl.Reading?
  {
    match p
    case Pending => Visiting(ctl.cur, ctl.i + 1)
    case Running => Visiting(ctl.cur, ctl.i + 1)
    case Failed => ReportingError
    case Skipped => Reading(ctl.cur, ctl.i, ctl.j + 1, ctl.skips + 1)
    case Finished => Reading(ctl.cur, ctl.i, ctl.j + 1, ctl.skips)
  }

  ghost function ReadPredecessor(g: Graph, s: State): (t: State)
    requires Typed(g, s) && s.ctl.Reading? && s.ctl.j < |g[Target(g, s.ctl)].prev|
    ensures Typed(g, t)
  {
    s.(ctl := AfterRead(s.ctl, s.st[g[Target(g, s.ctl)].prev[s.ctl.j]]))
  }

  ghost predicate AllRead(g: Graph, s: State)
    requires Typed(g, s)
  {
    s.ctl.Reading? && s.ctl.j == |g[Target(g, s.ctl)].prev|
  }

  ghost predicate AllSkipped(g: Graph, s: State)
    requires Typed(g, s) && AllRead(g, s)
  {
    s.ctl.skips > 0 && s.ctl.skips == s.ctl.j
  }

  /** Every predecessor is skipped: store that the node is, too. */
  ghost function SkipNode(g: Graph, s: State): (t: State)
    requires Typed(g, s) && AllRead(g, s)
    ensures Typed(g, t)
  {
    s.(st := s.st[Target(g, s.ctl) := Skipped], ctl := PublishingSkip(s.ctl.cur, s.ctl.i))
  }

  /** Swap the node from pending to running and launch its worker; the worker
      of a virtual node would return at once. */
  ghost function StartNode(g: Graph, s: State): (t: State)
    requires Typed(g, s) && AllRead(g, s)
    ensures Typed(g, t)
  {
    var n := Target(g, s.ctl);
    var t := s.(ctl := Visiting(s.ctl.cur, s.ctl.i + 1));
    if s.st[n] != Pending then t
    else if g[n].kind == Virtual then t.(st := s.st[n := Running])
    else t.(st := s.st[n := Running], wk := s.wk[n := Executing], starts := s.starts[n := s.starts[n] + 1])
  }

  ghost function PublishSkipped(g: Graph, s: State): (t: State)
    requires Typed(g, s) && s.ctl.PublishingSkip?
    ensures Typed(g, t)
  {
    s.(done := s.done + [Target(g, s.ctl)], pushed := s.pushed + 1, ctl := Visiting(s.ctl.cur, s.ctl.i + 1))
  }

  ghost predicate ScheduleEnabled(s: State) {
    match s.ctl
    case Idle => s.done != []
    case Visiting(_, _) => true
    case Reading(_, _, _, _) => true
    case PublishingSkip(_, _) => |s.done| < DONE_CAPACITY
    case ReportingError => s.errs < 1
    case SignallingEnd => !s.finished
    case Stopped => false
  }

  ghost function Scheduled(g: Graph, s: State): (t: State)
    requires Typed(g, s) && ScheduleEnabled(s)
    ensures Typed(g, t)
  {
    match s.ctl
    case Idle => Pop(g, s)
    case Visiting(_, _) => NextSuccessor(g, s)
    case Reading(_, _, j, _) =>
      if j < |g[Target(g, s.ctl)].prev| then ReadPredecessor(g, s)
      else if AllSkipped(g, s) then SkipNode(g, s)
      else StartNode(g, s)
    case PublishingSkip(_, _) => PublishSkipped(g, s)
    case ReportingError => s.(errs := s.errs + 1, ctl := Stopped)
    case SignallingEnd => s.(finished := true, ctl := Stopped)
  }

  // ---------- steps of the caller ----------

  ghost predicate ReturnEnabled(s: State, with: Outcome) {
    && s.outcome == Waiting
    && ((with == Success && s.finished) || (with == Error && s.errs > 0))
  }

  ghost function Returned(s: State, with: Outcome): State
    requires ReturnEnabled(s, with)
  {
    if with == Success then s.(finished := false, outcome := Success)
    else s.(errs := s.errs - 1, outcome := Error)
  }

  // ---------- runs ----------

  ghost predicate Enabled(cfg: Config, s: State, a: Action)
    requires Typed(cfg.g, s)
  {
    match a
    case Work(n, fails) => WorkEnabled(cfg, s, n, fails)
    case Schedule => ScheduleEnabled(s)
    case Return(with) => ReturnEnabled(s, with)
  }

  ghost function Apply(cfg: Config, s: State, a: Action): (t: State)
    requires Typed(cfg.g, s) && Enabled(cfg, s, a)
    ensures Typed(cfg.g, t)
  {
    match a
    case Work(n, fails) => Worked(cfg, s, n, fails)
    case Schedule => Scheduled(cfg.g, s)
    case Return(with) => Returned(s, with)
  }

  /** `acts` is a schedule the goroutines may follow from `s`. */
  ghost predicate Runs(cfg: Config, s: State, acts: seq<Action>)
    requires Typed(cfg.g, s)
    decreases |acts|
  {
    acts == [] || (Enabled(cfg, s, acts[0]) && Runs(cfg, Apply(cfg, s, acts[0]), acts[1..]))
  }

  ghost function After(cfg: Config, s: State, acts: seq<Action>): (t: State)
    requires Typed(cfg.g, s) && Runs(cfg, s, acts)
    ensures Typed(cfg.g, t)
    decreases |acts|
  {
    if acts == [] then s else After(cfg, Apply(cfg, s, acts[0]), acts[1..])
  }

  /** No goroutine can take another step. */
  ghost predicate Stuck(cfg: Config, s: State)
    requires Typed(cfg.g, s)
  {
    forall a :: !Enabled(cfg, s, a)
  }

  lemma RunsCons(cfg: Config, s: State, a: Action, rest: seq<Action>) returns (acts: seq<Action>)
    requires Typed(cfg.g, s) && Enabled(cfg, s, a) && Runs(cfg, Apply(cfg, s, a), rest)
    ensures Runs(cfg, s, acts) && After(cfg, s, acts) == After(cfg, Apply(cfg, s, a), rest)
  {
    acts := [a] + rest;
    assert acts[1..] == rest;
  }

  lemma {:induction false} RunsConcat(cfg: Config, s: State, acts: seq<Action>, more: seq<Action>)
    requires Typed(cfg.g, s) && Runs(cfg, s, acts) && Runs(cfg, After(cfg, s, acts), more)
    ensures Runs(cfg, s, acts + more) && After(cfg, s, acts + more) == After(cfg, After(cfg, s, acts), more)
    decreases |acts|
  {
    if acts == [] {
      assert acts + more == more;
    } else {
      assert (acts + more)[0] == acts[0] && (acts + more)[1..] == acts[1..] + more;
      RunsConcat(cfg, Apply(cfg, s, acts[0]), acts[1..], more);
    }
  }
}
