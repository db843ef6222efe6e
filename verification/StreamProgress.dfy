/** The stream gets on: while both sides are open, whatever has
    been sent can be accepted and received, whatever the size. */
module StreamProgress {
  import opened Streams

  /** A step of a send or of a receive, but no new send and no end of a side. */
  predicate Onward<T>(a: Action<T>) {
    a.CheckClosed? || a.Push? || a.HandOver? || a.BeginRecv? || a.Recv?
  }

  predicate AllOnward<T>(acts: seq<Action<T>>) {
    forall i :: 0 <= i < |acts| ==> Onward(acts[i])
  }

  predicate Open<T>(s: State<T>) {
    !s.sendClosed && !s.recvClosed
  }

  predicate AcceptedTo<T>(s: State<T>, i: nat) {
    i <= |s.sends| && forall k :: 0 <= k < i ==> s.sends[k] == Accepted
  }

  ghost predicate Going<T>(s: State<T>, i: nat) {
    Inv(s) && Open(s) && AcceptedTo(s, i)
  }

  lemma Then<T>(s: State<T>, a: Action<T>, rest: seq<Action<T>>) returns (acts: seq<Action<T>>)
    requires Enabled(s, a) && Onward(a) && Runs(Apply(s, a), rest) && AllOnward(rest)
    ensures Runs(s, acts) && After(s, acts) == After(Apply(s, a), rest) && AllOnward(acts)
  {
    acts := [a] + rest;
    assert acts[1..] == rest;
  }

  lemma OneStep<T>(s: State<T>, a: Action<T>, i: nat) returns (t: State<T>)
    requires Going(s, i) && Enabled(s, a) && Onward(a)
    ensures t == Apply(s, a) && Going(t, i) && t.size == s.size && |t.sends| == |s.sends|
  {
    StepInv(s, a);
    t := Apply(s, a);
  }

  /** What is buffered is received. */
  lemma {:induction false} Drains<T>(s: State<T>, i: nat) returns (acts: seq<Action<T>>, t: State<T>)
    requires Going(s, i)
    ensures Runs(s, acts) && t == After(s, acts) && AllOnward(acts)
    ensures Going(t, i) && t.items == [] && t.size == s.size && t.sends == s.sends
    decreases |s.items|, s.waiting == 0
  {
    if s.items == [] {
      acts, t := [], s;
    } else {
      var a := if s.waiting == 0 then BeginRecv else Recv;
      var u := OneStep(s, a, i);
      acts, t := Drains(u, i);
      acts := Then(s, a, acts);
    }
  }

  /** The send `i` has looked at the signal and goes in. */
  lemma GoesIn<T>(s: State<T>, i: nat) returns (acts: seq<Action<T>>, t: State<T>)
    requires Going(s, i) && s.items == [] && i < |s.sends| && s.sends[i].Checked?
    ensures Runs(s, acts) && t == After(s, acts) && AllOnward(acts)
    ensures Going(t, i + 1) && |t.sends| == |s.sends|
  {
    if s.size > 0 {
      t := OneStep(s, Push(i), i);
      acts := Then(s, Push(i), []);
    } else {
      var u := OneStep(s, BeginRecv, i);
      t := OneStep(u, HandOver(i), i);
      acts := Then(u, HandOver(i), []);
      acts := Then(s, BeginRecv, acts);
    }
  }

  lemma IsAccepted<T>(s: State<T>, i: nat) returns (acts: seq<Action<T>>, t: State<T>)
    requires Going(s, i) && s.items == [] && i < |s.sends|
    ensures Runs(s, acts) && t == After(s, acts) && AllOnward(acts)
    ensures Going(t, i + 1) && |t.sends| == |s.sends|
  {
    if s.sends[i].Accepted? {
      acts, t := [], s;
    } else if s.sends[i].Checked? {
      acts, t := GoesIn(s, i);
    } else {
      assert SendOk(s, s.sends[i]);
      var u := OneStep(s, CheckClosed(i), i);
      acts, t := GoesIn(u, i);
      acts := Then(s, CheckClosed(i), acts);
    }
  }

  lemma {:induction false} Concat<T>(s: State<T>, acts: seq<Action<T>>, more: seq<Action<T>>)
    requires Runs(s, acts) && Runs(After(s, acts), more) && AllOnward(acts) && AllOnward(more)
    ensures Runs(s, acts + more) && After(s, acts + more) == After(After(s, acts), more) && AllOnward(acts + more)
    decreases |acts|
  {
    if acts == [] {
      assert acts + more == more;
    } else {
      assert (acts + more)[0] == acts[0] && (acts + more)[1..] == acts[1..] + more;
      Concat(Apply(s, acts[0]), acts[1..], more);
    }
  }

  lemma {:induction false} RestAccepted<T>(s: State<T>, i: nat) returns (acts: seq<Action<T>>, t: State<T>)
    requires Going(s, i)
    ensures Runs(s, acts) && t == After(s, acts) && AllOnward(acts)
    ensures Going(t, |t.sends|) && t.items == [] && |t.sends| == |s.sends|
    decreases |s.sends| - i
  {
    var u;
    acts, u := Drains(s, i);
    if i == |s.sends| {
      t := u;
    } else {
      var more, v := IsAccepted(u, i);
      Concat(s, acts, more);
      acts := acts + more;
      more, t := RestAccepted(v, i + 1);
      Concat(s, acts, more);
      acts := acts + more;
    }
  }

  /** From every reachable state in which neither side is closed the sends under way can
      all be accepted, and everything accepted received. */
  lemma AllCanBeReceived<T>(size: nat, acts: seq<Action<T>>) returns (more: seq<Action<T>>, t: State<T>)
    requires Runs(Init<T>(size), acts) && Open(After(Init<T>(size), acts))
    ensures var s := After(Init<T>(size), acts);
            && Runs(s, more) && t == After(s, more) && AllOnward(more)
            && |t.sends| == |s.sends| && (forall i :: 0 <= i < |t.sends| ==> t.sends[i] == Accepted)
            && t.items == [] && t.received == t.accepted
  {
    RunInv(Init<T>(size), acts);
    more, t := RestAccepted(After(Init<T>(size), acts), 0);
  }
}
