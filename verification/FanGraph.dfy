/** A graph whose runs can hang although no function fails: a conditional with one
    branch more than the channel of settled nodes has places, none of them chosen. */
module FanGraphs {
  import opened Graphs
  import opened Protocol
  import opened Theorems
  import opened FullChannel

  const CHOICE: nat := 2
  const FIRST: nat := 3
  const OTHERS: nat := 4
  const BRANCHES: nat := DONE_CAPACITY + 1

  /** Start, end, a conditional with BRANCHES branches, a node behind the first
      branch and one behind all the others; both lead to the end. */
  function Fan(): (g: Graph)
    ensures |g| == 5 + BRANCHES
    ensures g[START] == Node("s", Normal, [], [CHOICE])
    ensures g[END] == Node("e", Normal, [FIRST, OTHERS], [])
    ensures g[CHOICE] == Node("c", Conditional, [], seq(BRANCHES, i => 5 + i))
    ensures g[FIRST] == Node("f", Normal, [5], [END])
    ensures g[OTHERS] == Node("o", Normal, seq(BRANCHES - 1, i => 6 + i), [END])
    ensures g[5] == Node("t", Virtual, [CHOICE], [FIRST])
    ensures forall v :: 6 <= v < |g| ==> g[v] == Node("t", Virtual, [CHOICE], [OTHERS])
  {
    [Node("s", Normal, [], [CHOICE]),
     Node("e", Normal, [FIRST, OTHERS], []),
     Node("c", Conditional, [], seq(BRANCHES, i => 5 + i)),
     Node("f", Normal, [5], [END]),
     Node("o", Normal, seq(BRANCHES - 1, i => 6 + i), [END]),
     Node("t", Virtual, [CHOICE], [FIRST])]
    + seq(BRANCHES - 1, _ => Node("t", Virtual, [CHOICE], [OTHERS]))
  }

  /** No branch is chosen and no function fails. */
  function FanConfig(): Config {
    Config(Fan(), map[], {})
  }

  function FanRank(): (r: seq<nat>)
    ensures |r| == |Fan()| && r[START] == 0 && r[END] == 4 && r[CHOICE] == 1 && r[FIRST] == 3 && r[OTHERS] == 3
    ensures forall v :: 5 <= v < |r| ==> r[v] == 2
  {
    [0, 4, 1, 3, 3] + seq(BRANCHES, _ => 2)
  }

  lemma FanInRange()
    ensures InRange(Fan())
  {
  }

  lemma FanAcyclic()
    ensures Acyclic(Fan())
  {
    var g, r := Fan(), FanRank();
    forall a: nat, b: nat | Edge(g, a, b)
      ensures r[a] < r[b]
    {
    }
    assert Ranked(g, r);
    AcyclicIffRanked(g);
  }

  lemma FanLinked()
    ensures Linked(Fan())
  {
    var g := Fan();
    forall a: nat, b: nat | Edge(g, a, b)
      ensures a == START || a in g[b].prev
    {
      if a == CHOICE {
        assert g[b].prev[0] == CHOICE;
      } else if a >= 6 {
        assert g[OTHERS].prev[a - 6] == a;
      } else if a == 5 {
        assert g[FIRST].prev[0] == a;
      } else {
        assert g[END].prev[0] == FIRST && g[END].prev[1] == OTHERS;
      }
    }
    forall b, k | 0 <= b < |g| && 0 <= k < |g[b].prev|
      ensures Edge(g, g[b].prev[k], b)
    {
      if b >= 5 {
        assert g[CHOICE].next[b - 5] == b;
      }
    }
  }

  lemma FanBranching()
    ensures Branching(Fan())
  {
    var g := Fan();
    forall c | 0 <= c < |g|
      ensures g[c].kind == Conditional ==> c == CHOICE
      ensures g[c].kind == Virtual <==> c >= 5
    {
    }
    forall c, k | 0 <= c < |g| && g[c].kind == Conditional && 0 <= k < |g[c].next|
      ensures g[c].next[k] < |g| && g[g[c].next[k]].kind == Virtual
    {
      assert g[c].next[k] == 5 + k;
    }
  }

  lemma FanWellFormed()
    ensures WellFormed(Fan())
  {
    FanInRange();
    FanAcyclic();
    FanLinked();
    FanBranching();
  }

  lemma FanWired()
    ensures Wired(Fan())
  {
    var g := Fan();
    assert CHOICE in g[START].next by {
      assert g[START].next[0] == CHOICE;
    }
  }

  lemma FanNodes()
    ensures var g := Fan();
            && CHOICE in g[START].next && g[CHOICE].kind == Conditional && g[CHOICE].prev == []
            && |g[CHOICE].next| == BRANCHES && g[CHOICE].next[0] == 5 && g[FIRST].prev == [5]
  {
    assert Fan()[START].next[0] == CHOICE;
  }

  /** A schedule after which no goroutine can move and the caller still waits. */
  lemma FanHangs() returns (acts: seq<Action>, s: State)
    ensures WellFormed(Fan()) && Wired(Fan()) && FanConfig().canFail == {}
    ensures Reached(FanConfig(), acts, s) && Stuck(FanConfig(), s) && s.outcome == Waiting
  {
    FanWellFormed();
    FanWired();
    FanNodes();
    EntryClogs(FanConfig(), CHOICE, 0, FIRST);
    acts, s := ClogHangs(FanConfig(), CHOICE, 0, FIRST, {START});
  }
}
