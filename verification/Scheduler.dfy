/** The scheduler object: the graph builder, the reset, and the run,
    every goroutine's step taken in place on the scheduler's own fields. */
module Scheduling {
  import opened Wrappers
  import opened Graphs
  import opened Builder
  import opened Protocol
  import opened Choices
  import opened Theorems
  import opened Reruns

  const START_ID: int := 0
  const END_ID: int := 0x7fff_ffff

  datatype BuildError = InodeRequired | InvalidNodeType | NodeRequired | FromNodeTypeInvalid

  ghost function NodesOf(m: map<int, nat>): set<nat> {
    set id | id in m :: m[id]
  }

  /** `keys` is an order in which a loop over `m` may meet its keys. */
  ghost predicate Lists(keys: seq<int>, m: map<int, nat>) {
    && (forall j :: 0 <= j < |keys| ==> keys[j] in m)
    && (forall id :: id in m ==> exists j :: 0 <= j < |keys| && keys[j] == id)
  }

  lemma RegisteredNew(m: map<int, nat>, id: int, n: nat)
    requires id !in m
    ensures NodesOf(m[id := n]) == NodesOf(m) + {n}
  {
    var r := m[id := n];
    assert r[id] == n;
    forall x | x in NodesOf(m)
      ensures x in NodesOf(r)
    {
      var k :| k in m && m[k] == x;
      assert r[k] == x;
    }
  }

  predicate IsFlag(name: string) {
    name == "__start__" || name == "__end__"
  }

  /** A settled node is finished exactly when a path of answered branches leads to it; after
      a success each function the end waits for has been started once if so, and else not. */
  ghost predicate NodeAsChosen(cfg: Config, s: State, n: nat)
    requires Typed(cfg.g, s) && n < |cfg.g|
  {
    && (s.st[n].Settled() ==> (s.st[n] == Finished <==> Chosen(cfg, n)))
    && (s.outcome == Success && Needed(cfg.g, n) ==>
          && s.st[n] == (if Chosen(cfg, n) then Finished else Skipped)
          && s.starts[n] == if Chosen(cfg, n) && cfg.g[n].kind != Virtual then 1 else 0)
  }

  /** And a complete run has returned, with success if nothing can fail,
      on a wired graph whose messages leave room. */
  ghost predicate RanAsChosen(cfg: Config, s: State)
    requires Typed(cfg.g, s) && WellFormed(cfg.g)
  {
    && (forall n :: 0 <= n < |cfg.g| ==> NodeAsChosen(cfg, s, n))
    && (Stuck(cfg, s) && Wired(cfg.g) && Roomy(cfg) ==> s.outcome != Waiting && (cfg.canFail == {} ==> s.outcome == Success))
  }

  class Scheduler {
    var nodes: Graph
    var ids: seq<int>
    /** The source's `Graph`: registered node ids and their nodes. */
    var graph: map<int, nat>
    var idGen: int
    var state: seq<Status>

    // the run in progress
    var workers: seq<Worker>
    var done: seq<nat>
    var control: Control
    var finished: bool
    var errs: nat
    var outcome: Outcome
    ghost var starts: seq<nat>
    ghost var pushed: nat

    ghost predicate Valid()
      reads this
    {
      && |nodes| >= 2 && |ids| == |state| == |nodes|
      && InRange(nodes)
      && (forall id :: id in graph ==> graph[id] < |nodes|)
      && END_ID in graph && 0 <= idGen
      && (forall id :: id in graph ==> id <= idGen || id == END_ID)
      && (idGen < END_ID ==> graph[END_ID] == END)
    }

    ghost function Registered(): set<nat>
      reads this
    {
      NodesOf(graph)
    }

    ghost predicate AllRegistered()
      reads this
    {
      RegistersAll(nodes, Registered())
    }

    ghost predicate MissesOnlyConditionals()
      reads this
    {
      Registers(nodes, Registered())
    }

    ghost function View(): State
      reads this
    {
      State(state, workers, done, control, finished, errs, outcome, starts, pushed)
    }

    // ---------- builder ----------

    /** Both flag names take id 0, so the end node replaces the start node in
        `graph`, where it is then entered again under its own id. */
    constructor ()
      ensures Valid()
      ensures nodes == BLANK && state == Fresh(2) && idGen == 0
      ensures graph == map[0 := END, 0x7fff_ffff := END]
      ensures AllRegistered() && MissesOnlyConditionals()
    {
      nodes := BLANK;
      ids := [START_ID, END_ID];
      graph := map[START_ID := START][START_ID := END][END_ID := END];
      idGen := 0;
      state := [Pending, Pending];
      workers, done, control := [], [], Idle;
      finished, errs, outcome := false, 0, Waiting;
      starts, pushed := [], 0;
      new;
      assert graph[END_ID] == END;
    }

    method NewNode(name: string, kind: Kind, id: int) returns (n: nat)
      requires Valid()
      modifies `nodes, `ids, `state
      ensures Valid() && n == |old(nodes)|
      ensures nodes == WithNode(old(nodes), name, kind) && ids == old(ids) + [id] && state == old(state) + [Pending]
    {
      n := |nodes|;
      nodes := nodes + [Node(name, kind, [], [])];
      ids := ids + [id];
      state := state + [Pending];
    }

    /** The node is entered in `graph` as well. */
    method NewRegistered(name: string, kind: Kind, id: int) returns (n: nat)
      requires Valid() && id <= idGen
      modifies `nodes, `ids, `state, `graph
      ensures Valid() && n == |old(nodes)|
      ensures nodes == WithNode(old(nodes), name, kind) && state == old(state) + [Pending]
      ensures graph == old(graph)[id := n]
      ensures id !in old(graph) && old(AllRegistered()) ==> AllRegistered()
      ensures id !in old(graph) && old(MissesOnlyConditionals()) ==> MissesOnlyConditionals()
    {
      n := NewNode(name, kind, id);
      if id !in graph {
        RegisteredNew(graph, id, n);
      }
      graph := graph[id := n];
    }

    method GenerateNodeID() returns (id: int)
      requires Valid()
      modifies `idGen
      ensures Valid() && id == idGen == old(idGen) + 1
    {
      idGen := idGen + 1;
      id := idGen;
    }

    /** A node under one of the two flag names takes id 0 from the node registered there. */
    method AddNode(name: string, kind: Kind, hasFn: bool) returns (r: Result<nat, BuildError>)
      requires Valid()
      modifies `nodes, `ids, `graph, `idGen, `state
      ensures Valid()
      ensures r.Ok? <==> hasFn && (kind == Normal || kind == Conditional)
      ensures r.Ok? ==>
                && r.value == |old(nodes)| && nodes == WithNode(old(nodes), name, kind)
                && state == old(state) + [Pending]
                && graph == old(graph)[(if name == "__start__" || name == "__end__" then 0 else old(idGen) + 1) := r.value]
                && idGen == old(idGen) + if IsFlag(name) then 0 else 1
      ensures r.Err? ==> nodes == old(nodes) && graph == old(graph) && state == old(state) && idGen == old(idGen)
      ensures r.Err? ==> r.error == if !hasFn then InodeRequired else InvalidNodeType
      ensures old(idGen) + 1 < END_ID && !IsFlag(name) && old(AllRegistered()) ==> AllRegistered()
      ensures old(idGen) + 1 < END_ID && !IsFlag(name) && old(MissesOnlyConditionals()) ==> MissesOnlyConditionals()
    {
      if !hasFn {
        return Err(InodeRequired);
      }
      if kind != Normal && kind != Conditional {
        return Err(InvalidNodeType);
      }
      var id := 0;
      if name != "__start__" && name != "__end__" {
        id := GenerateNodeID();
      }
      var n := NewRegistered(name, kind, id);
      r := Ok(n);
    }

    /** Conditional and sub-graph nodes get an id, but are not entered in `graph`. */
    method AddUnregistered(name: string, kind: Kind) returns (n: nat)
      requires Valid() && (kind == Conditional || kind == SubGraph)
      modifies `nodes, `ids, `idGen, `state
      ensures Valid() && n == |old(nodes)| && idGen == old(idGen) + 1
      ensures nodes == WithNode(old(nodes), name, kind) && state == old(state) + [Pending]
      ensures kind == Conditional && old(MissesOnlyConditionals()) ==> MissesOnlyConditionals()
    {
      var id := GenerateNodeID();
      n := NewNode(name, kind, id);
    }

    method Connect(a: nat, b: nat)
      requires Valid() && a < |nodes| && b < |nodes|
      modifies `nodes
      ensures Valid() && nodes == WithEdge(old(nodes), a, b)
      ensures old(AllRegistered()) ==> AllRegistered()
      ensures old(MissesOnlyConditionals()) ==> MissesOnlyConditionals()
    {
      nodes := nodes[a := nodes[a].(next := nodes[a].next + [b])];
      nodes := nodes[b := nodes[b].(prev := nodes[b].prev + [a])];
      WithEdgeEdges(old(nodes), a, b);
    }

    method AddEdge(from: Option<nat>, to: Option<nat>) returns (err: Option<BuildError>)
      requires Valid() && (from.Some? ==> from.value < |nodes|) && (to.Some? ==> to.value < |nodes|)
      modifies `nodes
      ensures Valid()
      ensures from.None? || to.None? ==> err == Some(NodeRequired) && nodes == old(nodes)
      ensures from.Some? && to.Some? ==>
                && nodes == Called(old(nodes), EdgeCall(from.value, to.value))
                && err == if old(nodes)[from.value].kind == Conditional then Some(FromNodeTypeInvalid) else None
      ensures old(AllRegistered()) ==> AllRegistered()
      ensures old(MissesOnlyConditionals()) ==> MissesOnlyConditionals()
    {
      if from.None? || to.None? {
        return Some(NodeRequired);
      }
      if nodes[from.value].kind == Conditional {
        return Some(FromNodeTypeInvalid);
      }
      Connect(from.value, to.value);
      err := None;
    }

    /** The branch's virtual node is entered in `graph` under a fresh id. */
    method InsertBranch(from: nat, to: nat, tag: string)
      requires Valid() && from < |nodes| && to < |nodes|
      modifies `nodes, `ids, `graph, `idGen, `state
      ensures Valid() && nodes == WithBranch(old(nodes), from, to, tag) && idGen == old(idGen) + 1
      ensures graph == old(graph)[old(idGen) + 1 := |old(nodes)|]
      ensures old(idGen) + 1 < END_ID && old(AllRegistered()) ==> AllRegistered()
      ensures old(idGen) + 1 < END_ID && old(MissesOnlyConditionals()) ==> MissesOnlyConditionals()
    {
      var id := GenerateNodeID();
      var v := NewRegistered(tag, Virtual, id);
      Connect(from, v);
      Connect(v, to);
    }

    method AddConditionalEdge(from: Option<nat>, to: Option<nat>, tag: string) returns (err: Option<BuildError>)
      requires Valid() && (from.Some? ==> from.value < |nodes|) && (to.Some? ==> to.value < |nodes|)
      modifies `nodes, `ids, `graph, `idGen, `state
      ensures Valid()
      ensures from.None? || to.None? ==> err == Some(NodeRequired) && nodes == old(nodes)
      ensures from.Some? && to.Some? ==>
                && nodes == Called(old(nodes), BranchCall(from.value, to.value, tag))
                && err == if old(nodes)[from.value].kind != Conditional then Some(FromNodeTypeInvalid) else None
      ensures graph == if err.None? then old(graph)[old(idGen) + 1 := |old(nodes)|] else old(graph)
      ensures idGen == old(idGen) + if err.None? then 1 else 0
      ensures old(idGen) + 1 < END_ID && old(AllRegistered()) ==> AllRegistered()
      ensures old(idGen) + 1 < END_ID && old(MissesOnlyConditionals()) ==> MissesOnlyConditionals()
    {
      if from.None? || to.None? {
        return Some(NodeRequired);
      }
      if nodes[from.value].kind != Conditional {
        return Some(FromNodeTypeInvalid);
      }
      InsertBranch(from.value, to.value, tag);
      err := None;
    }

    method SetEntry(n: nat)
      requires Valid() && n < |nodes|
      modifies `nodes
      ensures Valid() && nodes == Called(old(nodes), EntryCall(n))
      ensures old(AllRegistered()) ==> AllRegistered()
      ensures old(MissesOnlyConditionals()) ==> MissesOnlyConditionals()
    {
      nodes := nodes[START := nodes[START].(next := nodes[START].next + [n])];
      WithEntryEdges(old(nodes), n);
    }

    method SetExit(n: nat)
      requires Valid() && n < |nodes|
      modifies `nodes
      ensures Valid() && nodes == WithEdge(old(nodes), n, graph[END_ID])
      ensures idGen < END_ID ==> nodes == Called(old(nodes), ExitCall(n))
      ensures old(AllRegistered()) ==> AllRegistered()
      ensures old(MissesOnlyConditionals()) ==> MissesOnlyConditionals()
    {
      var end := graph[END_ID];
      Connect(n, end);
    }

    // ---------- reset ----------

    method ResetForRun(keys: seq<int>)
      requires Valid()
      requires Lists(keys, graph)
      modifies `state
      ensures Valid() && state == ResetStates(old(state), Registered())
      ensures forall n :: 0 <= n < |nodes| ==> state[n] == if n == START || n in Registered() then Pending else old(state)[n]
    {
      state := state[START := Pending];
      for i := 0 to |keys|
        invariant |state| == |nodes| && state[START] == Pending
        invariant forall n :: 0 <= n < |nodes| ==> state[n] == Pending || state[n] == old(state)[n]
        invariant forall n :: 0 <= n < |nodes| && n != START && n !in Registered() ==> state[n] == old(state)[n]
        invariant forall id :: id in graph && state[graph[id]] != Pending ==> exists j :: i <= j < |keys| && keys[j] == id
      {
        var id := keys[i];
        assert graph[id] in Registered();
        state := state[graph[id] := Pending];
      }
      forall n | n in Registered()
        ensures state[n] == Pending
      {
        var id :| id in graph && graph[id] == n;
      }
    }

    // ---------- the goroutines ----------

    method Store(n: nat, x: Status)
      requires n < |state|
      modifies `state
      ensures state == old(state)[n := x]
    {
      state := state[n := x];
    }

    method Send(n: nat)
      modifies `done, `pushed
      ensures done == old(done) + [n] && pushed == old(pushed) + 1
    {
      done := done + [n];
      pushed := pushed + 1;
    }

    /** One step of the worker of `n`; `fails` is what its function answers. */
    method WorkerStep(cfg: Config, n: nat, fails: bool)
      requires cfg.g == nodes && Typed(nodes, View()) && n < |nodes|
      requires fails ==> workers[n] == Executing && n in cfg.canFail && n != START && n != END
      requires match workers[n]
               case Absent => false
               case Publishing => |done| < 100
               case PublishingBranch(_) => |done| < 100
               case Reporting => errs == 0
               case Exited => false
               case _ => true
      modifies `state, `workers, `done, `pushed, `errs
      ensures View() == Worked(cfg, old(View()), n, fails)
      ensures match old(workers)[n]
              case Executing => state == old(state)[n := if fails then Failed else Finished] && done == old(done)
              case Publishing => state == old(state) && done == old(done) + [n] && |done| <= 100
              case Settling(i) =>
                if i == |nodes[n].next| then state == old(state) && done == old(done) && workers[n] == Exited
                else
                  var v := nodes[n].next[i];
                  && state == old(state)[v := if n in cfg.tags && nodes[v].name in cfg.tags[n] then Finished else Skipped]
                  && done == old(done) && workers[n] == PublishingBranch(i)
              case PublishingBranch(i) =>
                state == old(state) && done == old(done) + [nodes[n].next[i]] && |done| <= 100 && workers[n] == Settling(i + 1)
              case Reporting => state == old(state) && done == old(done) && errs == old(errs) + 1 == 1
              case _ => true
    {
      match workers[n] {
        case Executing =>
          if fails {
            Store(n, Failed);
            workers := workers[n := Reporting];
          } else {
            Store(n, Finished);
            workers := workers[n := if nodes[n].kind == Conditional then Settling(0) else Publishing];
          }
        case Publishing =>
          Send(n);
          workers := workers[n := Exited];
        case Settling(i) =>
          if i == |nodes[n].next| {
            workers := workers[n := Exited];
          } else {
            var v := nodes[n].next[i];
            Store(v, if nodes[v].name in TagsOf(cfg, n) then Finished else Skipped);
            workers := workers[n := PublishingBranch(i)];
          }
        case PublishingBranch(i) =>
          Send(nodes[n].next[i]);
          workers := workers[n := Settling(i + 1)];
        case Reporting =>
          errs := errs + 1;
          workers := workers[n := Exited];
      }
    }

    /** `scheduleNode` reads the state of one predecessor of `n`. */
    method ReadStep(cur: nat, i: nat, j: nat, skips: nat)
      requires Typed(nodes, View()) && control == Reading(cur, i, j, skips)
      requires j < |nodes[Target(nodes, control)].prev|
      modifies `control
      ensures View() == ReadPredecessor(nodes, old(View()))
      ensures control == match state[nodes[nodes[cur].next[i]].prev[j]]
                         case Pending => Visiting(cur, i + 1)
                         case Running => Visiting(cur, i + 1)
                         case Failed => ReportingError
                         case Skipped => Reading(cur, i, j + 1, skips + 1)
                         case Finished => Reading(cur, i, j + 1, skips)
    {
      var n := nodes[cur].next[i];
      match state[nodes[n].prev[j]] {
        case Pending => control := Visiting(cur, i + 1);
        case Running => control := Visiting(cur, i + 1);
        case Failed => control := ReportingError;
        case Skipped => control := Reading(cur, i, j + 1, skips + 1);
        case Finished => control := Reading(cur, i, j + 1, skips);
      }
    }

    /** `scheduleNode` has read all predecessors: it skips the node or swaps it
        from pending to running and launches its worker. */
    method DecideStep(cur: nat, i: nat, j: nat, skips: nat)
      requires Typed(nodes, View()) && control == Reading(cur, i, j, skips) && AllRead(nodes, View())
      modifies `state, `workers, `control, `starts
      ensures View() == if AllSkipped(nodes, old(View())) then SkipNode(nodes, old(View())) else StartNode(nodes, old(View()))
      ensures var n := nodes[cur].next[i];
              if 0 < skips == |nodes[n].prev| then
                state == old(state)[n := Skipped] && control == PublishingSkip(cur, i) && starts == old(starts)
              else
                && control == Visiting(cur, i + 1)
                && state == (if old(state)[n] == Pending then old(state)[n := Running] else old(state))
                && starts == if old(state)[n] == Pending && nodes[n].kind != Virtual then old(starts)[n := old(starts)[n] + 1] else old(starts)
    {
      var n := nodes[cur].next[i];
      if skips > 0 && skips == |nodes[n].prev| {
        Store(n, Skipped);
        control := PublishingSkip(cur, i);
        return;
      }
      control := Visiting(cur, i + 1);
      if state[n] != Pending {
        return;
      }
      Store(n, Running);
      if nodes[n].kind != Virtual {
        workers := workers[n := Executing];
        starts := starts[n := starts[n] + 1];
      }
    }

    /** One step of the control loop. */
    method ControlStep()
      requires Typed(nodes, View())
      requires match control
               case Idle => done != []
               case PublishingSkip(_, _) => |done| < 100
               case ReportingError => errs == 0
               case SignallingEnd => !finished
               case Stopped => false
               case _ => true
      modifies `state, `workers, `done, `pushed, `errs, `finished, `control, `starts
      ensures View() == Scheduled(nodes, old(View()))
      ensures match old(control)
              case Idle => done == old(done)[1..] && control == if old(done)[0] == END then SignallingEnd else Visiting(old(done)[0], 0)
              case Visiting(cur, i) => control == if i == |nodes[cur].next| then Idle else Reading(cur, i, 0, 0)
              case PublishingSkip(cur, i) =>
                done == old(done) + [nodes[cur].next[i]] && |done| <= 100 && control == Visiting(cur, i + 1)
              case ReportingError => errs == old(errs) + 1 == 1 && control == Stopped
              case SignallingEnd => finished && control == Stopped
              case _ => true
    {
      match control {
        case Idle =>
          var n := done[0];
          done := done[1..];
          control := if n == END then SignallingEnd else Visiting(n, 0);
        case Visiting(cur, i) =>
          control := if i == |nodes[cur].next| then Idle else Reading(cur, i, 0, 0);
        case Reading(cur, i, j, skips) =>
          if j < |nodes[nodes[cur].next[i]].prev| {
            ReadStep(cur, i, j, skips);
          } else {
            DecideStep(cur, i, j, skips);
          }
        case PublishingSkip(cur, i) =>
          Send(nodes[cur].next[i]);
          control := Visiting(cur, i + 1);
        case ReportingError =>
          errs := errs + 1;
          control := Stopped;
        case SignallingEnd =>
          finished := true;
          control := Stopped;
      }
    }

    /** The caller receives from one of its two channels. */
    method CallerStep(with: Outcome)
      requires outcome == Waiting && if with == Success then finished else with == Error && errs > 0
      modifies `finished, `errs, `outcome
      ensures View() == Returned(old(View()), with)
      ensures outcome == with && old(outcome) == Waiting
      ensures with == Success ==> old(finished) && !finished
      ensures with == Error ==> old(errs) == errs + 1
    {
      if with == Success {
        finished := false;
      } else {
        errs := errs - 1;
      }
      outcome := with;
    }

    method Step(cfg: Config, a: Action)
      requires Valid() && cfg.g == nodes && Typed(nodes, View()) && Enabled(cfg, View(), a)
      modifies `state, `workers, `done, `pushed, `errs, `finished, `control, `starts, `outcome
      ensures Valid() && View() == Apply(cfg, old(View()), a)
    {
      match a {
        case Work(n, fails) => WorkerStep(cfg, n, fails);
        case Schedule => ControlStep();
        case Return(with) => CallerStep(with);
      }
    }

    method ClearRun()
      modifies `workers, `done, `pushed, `errs, `finished, `control, `starts, `outcome
      ensures View() == Launch(nodes, state)
      ensures done == [] && control == Idle && !finished && errs == 0 && outcome == Waiting && pushed == 0
      ensures |workers| == |nodes| && forall n :: 0 <= n < |nodes| ==> workers[n] == if n == START then Executing else Absent
    {
      workers, starts := FirstWorkers(|nodes|), FirstStarts(|nodes|);
      done, control, finished, errs, outcome := [], Idle, false, 0, Waiting;
      pushed := 0;
    }

    method LaunchRun(keys: seq<int>)
      requires Valid()
      requires Lists(keys, graph)
      modifies `state, `workers, `done, `pushed, `errs, `finished, `control, `starts, `outcome
      ensures Valid() && View() == Launch(nodes, ResetStates(old(state), Registered()))
    {
      ResetForRun(keys);
      ClearRun();
    }

    /** Resets the nodes, launches the start node's worker and lets the goroutines take
        the steps of `schedule`, which may be any that they can. `keys` orders the reset. */
    method Run(cfg: Config, keys: seq<int>, schedule: seq<Action>) returns (r: Outcome)
      requires Valid() && cfg.g == nodes
      requires Lists(keys, graph)
      requires Runs(cfg, Launch(nodes, ResetStates(state, Registered())), schedule)
      modifies `state, `workers, `done, `pushed, `errs, `finished, `control, `starts, `outcome
      ensures Valid() && r == outcome
      ensures View() == After(cfg, Launch(nodes, ResetStates(old(state), Registered())), schedule)
      ensures Typed(nodes, View())
      ensures AllRegistered() ==> ResetStates(old(state), Registered()) == Fresh(|nodes|)
      ensures WellFormed(nodes) && ResetStates(old(state), Registered()) == Fresh(|nodes|) ==> RanAsChosen(cfg, View())
      ensures WellFormed(nodes) && MissesOnlyConditionals() && Stuck(cfg, View()) && Wired(nodes) && Roomy(cfg) && cfg.canFail == {} ==>
                (r == Success <==> AllUsable(cfg, ResetStates(old(state), Registered())))
    {
      ghost var st0 := ResetStates(state, Registered());
      ResetFreshIff(state, Registered());
      LaunchRun(keys);
      var k := 0;
      assert schedule[k..] == schedule;
      while k < |schedule|
        invariant k <= |schedule| && Valid()
        invariant Typed(nodes, View()) && Runs(cfg, View(), schedule[k..])
        invariant After(cfg, View(), schedule[k..]) == After(cfg, Launch(nodes, st0), schedule)
      {
        assert schedule[k..][0] == schedule[k] && schedule[k..][1..] == schedule[k + 1..];
        Step(cfg, schedule[k]);
        k := k + 1;
      }
      r := outcome;
      if WellFormed(nodes) && st0 == Fresh(|nodes|) {
        FreshRun(cfg, schedule, View());
      }
      if WellFormed(nodes) && MissesOnlyConditionals() {
        ResetStale(nodes, old(state), Registered());
        RerunOnce(cfg, st0, schedule, View());
      }
    }
  }

  lemma FreshRun(cfg: Config, schedule: seq<Action>, s: State)
    requires Reached(cfg, schedule, s)
    ensures RanAsChosen(cfg, s)
  {
    forall n | 0 <= n < |cfg.g|
      ensures NodeAsChosen(cfg, s, n)
    {
      FreshNode(cfg, schedule, s, n);
    }
    if Stuck(cfg, s) && Wired(cfg.g) && Roomy(cfg) {
      RunAlwaysReturns(cfg, schedule, s);
    }
  }

  lemma FreshNode(cfg: Config, schedule: seq<Action>, s: State, n: nat)
    requires Reached(cfg, schedule, s) && n < |cfg.g|
    ensures NodeAsChosen(cfg, s, n)
  {
    OnlyChosenStart(cfg, schedule, s, n);
    if s.outcome == Success && Needed(cfg.g, n) {
      ReturnsAreRight(cfg, schedule, s);
      if cfg.g[n].kind != Virtual {
        ChosenAreStarted(cfg, schedule, s, n);
      }
    }
  }

  lemma RerunOnce(cfg: Config, st0: seq<Status>, schedule: seq<Action>, s: State)
    requires Rerun(cfg, st0, schedule, s)
    ensures Stuck(cfg, s) && Wired(cfg.g) && Roomy(cfg) && cfg.canFail == {} ==> (s.outcome == Success <==> AllUsable(cfg, st0))
  {
    if Stuck(cfg, s) && Wired(cfg.g) && Roomy(cfg) && cfg.canFail == {} {
      RoomyNeverJams(cfg);
      if AllUsable(cfg, st0) {
        RerunCompletes(cfg, st0, schedule, s);
      } else if s.outcome == Success {
        RerunSuccess(cfg, st0, schedule, s);
      }
    }
  }
}
