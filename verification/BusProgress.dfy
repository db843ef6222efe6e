/** The bus gets on: a send goes through as soon as the subscriber has made room for
    it, and what has been produced can always be delivered and taken. */
module BusProgress {
  import opened Bus

  /** The dispatcher's send to subscriber `k` goes through exactly when fewer than 100 messages wait
      on that channel and it is open; then the message is appended there and nowhere else. */
  lemma SendsIff<T>(s: State<T>)
    requires Inv(s) && s.disp.Sending? && s.disp.k < |s.consumers|
    ensures var c := s.consumers[s.disp.k];
            Runs(s, [SendNext]) <==> !c.closed && |c.log| - c.taken < 100
    ensures Runs(s, [SendNext]) ==>
              var t, k := After(s, [SendNext]), s.disp.k;
              && |t.consumers| == |s.consumers| && t.consumers[k].log == s.consumers[k].log + [s.disp.msg]
              && t.consumers[k].taken == s.consumers[k].taken && t.disp == Sending(s.disp.msg, k + 1)
              && (forall i :: 0 <= i < |s.consumers| && i != k ==> t.consumers[i] == s.consumers[i])
              && t.pending == s.pending && t.history == s.history
  {
    var acts: seq<Action<T>> := [SendNext];
    assert acts[1..] == [];
  }

  /** A step of the dispatcher, or of a subscriber taking a message. */
  predicate Onward<T>(a: Action<T>) {
    a.Receive? || a.LockForSend? || a.SendNext? || a.BeginClose? || a.CloseNext? || a.Take?
  }

  predicate AllOnward<T>(acts: seq<Action<T>>) {
    forall i :: 0 <= i < |acts| ==> Onward(acts[i])
  }

  /** The subscribers up to `k` have taken everything they were sent. */
  ghost predicate TakenTo<T>(s: State<T>, k: nat) {
    k <= |s.consumers| && forall i :: 0 <= i < k ==> s.consumers[i].taken == |s.consumers[i].log|
  }

  /** The same messages, and no subscription under way. */
  ghost predicate SameBus<T>(s: State<T>, t: State<T>) {
    && Inv(t) && t.sub.Nobody? && t.produced == s.produced && t.open == s.open
    && |t.consumers| == |s.consumers|
  }

  lemma Then<T>(s: State<T>, a: Action<T>, rest: seq<Action<T>>) returns (acts: seq<Action<T>>)
    requires Enabled(s, a) && Onward(a) && Runs(Apply(s, a), rest) && AllOnward(rest)
    ensures Runs(s, acts) && After(s, acts) == After(Apply(s, a), rest) && AllOnward(acts)
  {
    acts := [a] + rest;
    assert acts[1..] == rest;
  }

  lemma OneStep<T>(s: State<T>, a: Action<T>) returns (t: State<T>)
    requires Inv(s) && s.sub.Nobody? && Enabled(s, a) && Onward(a)
    ensures t == Apply(s, a) && SameBus(s, t)
  {
    StepInv(s, a);
    t := Apply(s, a);
  }

  /** Subscriber `k` takes all that waits on its channel. */
  lemma {:induction false} TakesAll<T>(s: State<T>, k: nat) returns (acts: seq<Action<T>>, t: State<T>)
    requires Inv(s) && s.sub.Nobody? && TakenTo(s, k) && k < |s.consumers|
    ensures Runs(s, acts) && t == After(s, acts) && AllOnward(acts)
    ensures SameBus(s, t) && TakenTo(t, k + 1) && t.disp == s.disp
    decreases |s.consumers[k].log| - s.consumers[k].taken
  {
    assert StreamOk(s, k);
    if s.consumers[k].taken == |s.consumers[k].log| {
      acts, t := [], s;
    } else {
      var u := OneStep(s, Take(k));
      acts, t := TakesAll(u, k);
      acts := Then(s, Take(k), acts);
    }
  }

  lemma {:induction false} Concat<T>(s: State<T>, acts: seq<Action<T>>, more: seq<Action<T>>)
    requires Runs(s, acts) && Runs(After(s, acts), more) && AllOnward(acts) && AllOnward(more)
    ensures Runs(s, acts + more) && After(s, acts + more) == After(After(s, acts), more) && AllOnward(acts + more)
    decreases |acts|
  {
    if acts == [] {
      assert acts + more == more;
    } else {
      assert (acts + more)[0] == acts[0] && (acts + more)[1..] == acts[1..] + more;
      Concat(Apply(s, acts[0]), acts[1..], more);
    }
  }

  /** So does every one of them from `k` on. */
  lemma {:induction false} AllTake<T>(s: State<T>, k: nat) returns (acts: seq<Action<T>>, t: State<T>)
    requires Inv(s) && s.sub.Nobody? && TakenTo(s, k)
    ensures Runs(s, acts) && t == After(s, acts) && AllOnward(acts)
    ensures SameBus(s, t) && TakenTo(t, |t.consumers|) && t.disp == s.disp
    decreases |s.consumers| - k
  {
    if k == |s.consumers| {
      acts, t := [], s;
    } else {
      var u;
      acts, u := TakesAll(s, k);
      var more;
      more, t := AllTake(u, k + 1);
      Concat(s, acts, more);
      acts := acts + more;
    }
  }

  /** How far the dispatcher is from listening again. */
  ghost function Stage<T>(s: State<T>): nat {
    match s.disp
    case Appended(_) => |s.consumers| + 2
    case Sending(_, k) => if k <= |s.consumers| then |s.consumers| - k + 1 else 0
    case _ => 0
  }

  /** With every channel empty, one step of the dispatcher, and of the subscriber it sends to. */
  lemma Advance<T>(s: State<T>) returns (acts: seq<Action<T>>, t: State<T>)
    requires Inv(s) && s.sub.Nobody? && TakenTo(s, |s.consumers|)
    requires s.pending != [] || s.disp.Appended? || s.disp.Sending?
    ensures Runs(s, acts) && t == After(s, acts) && AllOnward(acts)
    ensures SameBus(s, t) && TakenTo(t, |t.consumers|)
    ensures |t.pending| < |s.pending| || (|t.pending| == |s.pending| && Stage(t) < Stage(s))
  {
    match s.disp {
      case Listening =>
        t := OneStep(s, Receive);
        acts := Then(s, Receive, []);
      case Appended(_) =>
        t := OneStep(s, LockForSend);
        acts := Then(s, LockForSend, []);
      case Sending(_, k) =>
        var u := OneStep(s, SendNext);
        if k == |s.consumers| {
          t := u;
          acts := Then(s, SendNext, []);
        } else {
          t := OneStep(u, Take(k));
          acts := Then(u, Take(k), []);
          acts := Then(s, SendNext, acts);
        }
    }
  }

  lemma {:induction false} Empties<T>(s: State<T>) returns (acts: seq<Action<T>>, t: State<T>)
    requires Inv(s) && s.sub.Nobody? && TakenTo(s, |s.consumers|)
    ensures Runs(s, acts) && t == After(s, acts) && AllOnward(acts)
    ensures SameBus(s, t) && TakenTo(t, |t.consumers|) && t.pending == [] && !t.disp.Appended? && !t.disp.Sending?
    decreases |s.pending|, Stage(s)
  {
    if s.pending == [] && !s.disp.Appended? && !s.disp.Sending? {
      acts, t := [], s;
    } else {
      var u;
      acts, u := Advance(s);
      var more;
      more, t := Empties(u);
      Concat(s, acts, more);
      acts := acts + more;
    }
  }

  /** Everything produced has been delivered, and everything delivered taken. */
  ghost predicate AllDelivered<T>(s: State<T>) {
    && s.pending == [] && s.history == s.produced
    && forall k :: 0 <= k < |s.consumers| ==>
         && s.consumers[k].taken == |s.consumers[k].log| >= |s.produced|
         && WholeStream(s.consumers[k].log, s.produced, s.consumers[k].replay)
         && (s.produced != [] ==>
               s.consumers[k].log[|s.consumers[k].log| - 1] == s.produced[|s.produced| - 1])
  }

  lemma TakenIsDelivered<T>(s: State<T>)
    requires Inv(s) && s.sub.Nobody? && TakenTo(s, |s.consumers|)
    requires s.pending == [] && !s.disp.Appended? && !s.disp.Sending?
    ensures AllDelivered(s)
  {
    assert s.history + [] == s.history;
    forall k | 0 <= k < |s.consumers|
      ensures var log := s.consumers[k].log;
              && |log| >= |s.produced| && WholeStream(log, s.produced, s.consumers[k].replay)
              && (s.produced != [] ==> log[|log| - 1] == s.produced[|s.produced| - 1])
    {
      assert StreamOk(s, k);
      StreamWhole(s, k);
    }
  }

  /** From every reachable state in which no subscription is under way, the steps of the dispatcher and of
      the subscribers alone can deliver all that has been produced to every subscriber, who takes it. */
  lemma AllCanBeDelivered<T>(acts: seq<Action<T>>) returns (more: seq<Action<T>>, t: State<T>)
    requires Runs(Init<T>(), acts) && After(Init<T>(), acts).sub.Nobody?
    ensures Runs(After(Init<T>(), acts), more) && t == After(After(Init<T>(), acts), more) && AllOnward(more)
    ensures t.produced == After(Init<T>(), acts).produced && |t.consumers| == |After(Init<T>(), acts).consumers|
    ensures AllDelivered(t)
  {
    var s := After(Init<T>(), acts);
    RunInv(Init<T>(), acts);
    var u;
    more, u := AllTake(s, 0);
    var rest;
    rest, t := Empties(u);
    Concat(s, more, rest);
    more := more + rest;
    TakenIsDelivered(t);
  }
}
