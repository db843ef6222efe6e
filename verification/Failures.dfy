/** What becomes of a run whose control loop meets a failed node. */
module Failures {
  import opened Graphs
  import opened Protocol
  import opened Safety
  import opened Reports
  import opened Theorems

  /** The control loop is about to read a predecessor that has failed. */
  ghost predicate MeetsFailure(g: Graph, s: State)
    requires Typed(g, s)
  {
    && s.ctl.Reading?
    && var prev := g[g[s.ctl.cur].next[s.ctl.i]].prev;
       s.ctl.j < |prev| && s.st[prev[s.ctl.j]] == Failed
  }

  /** The control loop has nothing left to do but to report an error. */
  predicate GivesUp(s: State) {
    (s.ctl == ReportingError || s.ctl == Stopped) && !s.finished && s.outcome != Success
  }

  lemma StepGivesUp(cfg: Config, s: State, a: Action)
    requires Typed(cfg.g, s) && GivesUp(s) && Enabled(cfg, s, a)
    ensures GivesUp(Apply(cfg, s, a)) && Apply(cfg, s, a).starts == s.starts
    ensures a == Schedule ==>
              Apply(cfg, s, a).done == s.done && Apply(cfg, s, a).pushed == s.pushed && Apply(cfg, s, a).st == s.st
  {
  }

  lemma {:induction false} RunGivesUp(cfg: Config, s: State, more: seq<Action>)
    requires Typed(cfg.g, s) && GivesUp(s) && Runs(cfg, s, more)
    ensures GivesUp(After(cfg, s, more)) && After(cfg, s, more).starts == s.starts
    decreases |more|
  {
    if more != [] {
      StepGivesUp(cfg, s, more[0]);
      RunGivesUp(cfg, Apply(cfg, s, more[0]), more[1..]);
    }
  }

  lemma MeetingGivesUp(cfg: Config, s: State)
    requires Live(cfg, s) && MeetsFailure(cfg.g, s)
    ensures Enabled(cfg, s, Schedule) && GivesUp(Apply(cfg, s, Schedule))
    ensures Apply(cfg, s, Schedule).starts == s.starts && Apply(cfg, s, Schedule).st == s.st
    ensures Apply(cfg, s, Schedule).done == s.done && Apply(cfg, s, Schedule).pushed == s.pushed
  {
  }

  /** A failed predecessor ends the control loop: in every continuation no function is started
      any more, the loop sends nothing and changes no state, and the run does not succeed;
      completed, it has returned the error. */
  lemma FailureEndsLoop(cfg: Config, acts: seq<Action>, s: State, more: seq<Action>)
    requires Reached(cfg, acts, s) && MeetsFailure(cfg.g, s)
    requires Enabled(cfg, s, Schedule) ==> Runs(cfg, Apply(cfg, s, Schedule), more)
    ensures Enabled(cfg, s, Schedule)
    ensures var t := After(cfg, Apply(cfg, s, Schedule), more);
            && t.starts == s.starts && t.outcome != Success
            && (t.ctl == ReportingError || t.ctl == Stopped)
            && (Enabled(cfg, t, Schedule) ==>
                  var u := Apply(cfg, t, Schedule);
                  u.done == t.done && u.pushed == t.pushed && u.st == t.st && u.starts == t.starts)
            && (Stuck(cfg, t) ==> t.outcome == Error)
  {
    ReachedLive(cfg, acts, s);
    MeetingGivesUp(cfg, s);
    var s1 := Apply(cfg, s, Schedule);
    var t := After(cfg, s1, more);
    StepLive(cfg, s, Schedule);
    RunLive(cfg, s1, more);
    RunSafe(cfg, s1, more);
    RunGivesUp(cfg, s1, more);
    if Enabled(cfg, t, Schedule) {
      StepGivesUp(cfg, t, Schedule);
    }
    if Stuck(cfg, t) {
      FailedStays(s1.st, t.st);
      if t.outcome == Waiting {
        HangMeansNoFailure(cfg, t);
      }
    }
  }
}
