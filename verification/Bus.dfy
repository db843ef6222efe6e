/** The streaming message bus: one dispatcher broadcasts a producer's messages,
    subscribers join at any time and are first sent the history.

    A read-write lock orders broadcasts and subscriptions; the dispatcher's append
    to the history is outside it. Every action is one atomic step of one goroutine. */
module Bus {
  /** Buffer size of a subscriber's channel. */
  const BUFFER: nat := 100

  /** One subscriber's channel: everything ever sent on it, how much of that was taken
      out, and whether it is closed. `replay` and `since` are history variables: the length
      of the history it was sent on joining, and the first message broadcast to it. */
  datatype Consumer<T> = Consumer(log: seq<T>, taken: nat, closed: bool, replay: nat, since: nat)

  datatype Dispatcher<T> =
    | Listening
    | Appended(msg: T)
    | Sending(msg: T, k: nat)
    | Closing(k: nat, n: nat)
    | Stopped(n: nat)

  /** The one subscription that may hold the lock, that of the newest consumer. */
  datatype Joining<T> = Nobody | Joined | Replaying(snap: seq<T>, j: nat)

  /** `produced` is a history variable: everything the producer ever sent. */
  datatype State<T> = State(
    pending: seq<T>, open: bool, history: seq<T>,
    consumers: seq<Consumer<T>>, disp: Dispatcher<T>, sub: Joining<T>, produced: seq<T>)

  datatype Action<T> =
    | Produce(msg: T) | CloseProducer
    | Receive | LockForSend | SendNext | BeginClose | CloseNext
    | Subscribe | TakeSnapshot | ReplayNext | Unlock
    | Take(k: nat)

  function Init<T>(): State<T> {
    State([], true, [], [], Listening, Nobody, [])
  }

  predicate Room<T>(c: Consumer<T>) {
    !c.closed && |c.log| < c.taken + BUFFER
  }

  /** The subscription of consumer `k` has returned its channel. */
  predicate Subscribed<T>(s: State<T>, k: nat) {
    k < |s.consumers| && (s.sub.Nobody? || k < |s.consumers| - 1)
  }

  /** A send that is not enabled waits for room; on a closed channel it would panic. */
  predicate Enabled<T>(s: State<T>, a: Action<T>) {
    match a
    case Produce(_) => s.open
    case CloseProducer => s.open
    case Receive => s.disp.Listening? && s.pending != []
    case LockForSend => s.disp.Appended? && s.sub.Nobody?
    case SendNext => s.disp.Sending? && s.disp.k <= |s.consumers| && (s.disp.k < |s.consumers| ==> Room(s.consumers[s.disp.k]))
    case BeginClose => s.disp.Listening? && s.pending == [] && !s.open
    case CloseNext => s.disp.Closing? && s.disp.k <= s.disp.n <= |s.consumers|
    case Subscribe => s.sub.Nobody? && !s.disp.Sending?
    case TakeSnapshot => s.sub.Joined? && s.consumers != []
    case ReplayNext =>
      && s.sub.Replaying? && s.sub.j < |s.sub.snap| && s.consumers != []
      && Room(s.consumers[|s.consumers| - 1])
    case Unlock => s.sub.Replaying? && s.sub.j == |s.sub.snap|
    case Take(k) => Subscribed(s, k) && s.consumers[k].taken < |s.consumers[k].log|
  }

  function Sent<T>(c: Consumer<T>, msg: T): Consumer<T> {
    c.(log := c.log + [msg])
  }

  /** How many messages have been broadcast to the end. */
  function BroadcastOf<T>(disp: Dispatcher<T>, appended: nat): nat {
    if (disp.Appended? || disp.Sending?) && appended > 0 then appended - 1 else appended
  }

  function Broadcast<T>(s: State<T>): nat {
    BroadcastOf(s.disp, |s.history|)
  }

  function Apply<T>(s: State<T>, a: Action<T>): State<T>
    requires Enabled(s, a)
  {
    match a
    case Produce(msg) => s.(pending := s.pending + [msg], produced := s.produced + [msg])
    case CloseProducer => s.(open := false)
    case Receive => s.(pending := s.pending[1..], history := s.history + [s.pending[0]], disp := Appended(s.pending[0]))
    case LockForSend => s.(disp := Sending(s.disp.msg, 0))
    case SendNext =>
      if s.disp.k == |s.consumers| then s.(disp := Listening)
      else
        s.(consumers := s.consumers[s.disp.k := Sent(s.consumers[s.disp.k], s.disp.msg)],
           disp := Sending(s.disp.msg, s.disp.k + 1))
    case BeginClose => s.(disp := Closing(0, |s.consumers|))
    case CloseNext =>
      if s.disp.k < s.disp.n then
        s.(consumers := s.consumers[s.disp.k := s.consumers[s.disp.k].(closed := true)],
           disp := Closing(s.disp.k + 1, s.disp.n))
      else s.(disp := Stopped(s.disp.n))
    case Subscribe => s.(consumers := s.consumers + [Consumer([], 0, false, 0, 0)], sub := Joined)
    case TakeSnapshot =>
      var k := |s.consumers| - 1;
      s.(sub := Replaying(s.history, 0),
         consumers := s.consumers[k := s.consumers[k].(replay := |s.history|, since := Broadcast(s))])
    case ReplayNext =>
      var k := |s.consumers| - 1;
      s.(sub := Replaying(s.sub.snap, s.sub.j + 1),
         consumers := s.consumers[k := Sent(s.consumers[k], s.sub.snap[s.sub.j])])
    case Unlock => s.(sub := Nobody)
    case Take(k) => s.(consumers := s.consumers[k := s.consumers[k].(taken := s.consumers[k].taken + 1)])
  }

  // ---------- the invariant ----------

  /** The end of the history already broadcast to consumer `k`. */
  function Heard<T>(s: State<T>, k: nat): nat {
    if s.disp.Sending? && k < s.disp.k then |s.history| else Broadcast(s)
  }

  /** Replay and broadcasts follow each other, overlapping in at most one message. */
  ghost predicate StreamOk<T>(s: State<T>, k: nat)
    requires k < |s.consumers|
  {
    var c := s.consumers[k];
    && c.since <= c.replay <= c.since + 1
    && c.since <= Heard(s, k) <= |s.history| && c.replay <= |s.history|
    && c.log == s.history[..c.replay] + s.history[c.since..Heard(s, k)]
    && c.taken <= |c.log|
  }

  ghost predicate JoiningOk<T>(s: State<T>) {
    match s.sub
    case Nobody => true
    case Joined =>
      && !s.disp.Sending? && s.consumers != []
      && s.consumers[|s.consumers| - 1].log == [] && s.consumers[|s.consumers| - 1].taken == 0
    case Replaying(snap, j) =>
      && !s.disp.Sending? && s.consumers != []
      && var c := s.consumers[|s.consumers| - 1];
         && snap <= s.history && j <= |snap|
         && c.log == snap[..j] && c.taken == 0 && j <= BUFFER
         && c.replay == |snap| && c.since == Broadcast(s) && c.since <= c.replay <= c.since + 1
  }

  ghost predicate ClosedOk<T>(s: State<T>) {
    match s.disp
    case Closing(k, n) =>
      && k <= n <= |s.consumers| && !s.open && s.pending == []
      && forall i :: 0 <= i < |s.consumers| ==> (s.consumers[i].closed <==> i < k)
    case Stopped(n) =>
      && n <= |s.consumers| && !s.open && s.pending == []
      && forall i :: 0 <= i < |s.consumers| ==> (s.consumers[i].closed <==> i < n)
    case _ => forall i :: 0 <= i < |s.consumers| ==> !s.consumers[i].closed
  }

  ghost predicate DispatcherOk<T>(s: State<T>) {
    match s.disp
    case Appended(msg) => s.history != [] && s.history[|s.history| - 1] == msg
    case Sending(msg, k) => s.history != [] && s.history[|s.history| - 1] == msg && k <= |s.consumers|
    case _ => true
  }

  ghost predicate Inv<T>(s: State<T>) {
    && s.produced == s.history + s.pending
    && DispatcherOk(s)
    && JoiningOk(s)
    && ClosedOk(s)
    && (forall k :: 0 <= k < |s.consumers| && Subscribed(s, k) ==> StreamOk(s, k))
  }

  lemma StepStreams<T>(s: State<T>, a: Action<T>)
    requires Inv(s) && Enabled(s, a)
    ensures var t := Apply(s, a);
            forall k :: 0 <= k < |t.consumers| && Subscribed(t, k) ==> StreamOk(t, k)
  {
    var t := Apply(s, a);
    forall k | 0 <= k < |t.consumers| && Subscribed(t, k)
      ensures StreamOk(t, k)
    {
      if Subscribed(s, k) {
        assert StreamOk(s, k);
        StreamKept(s, a, k);
      } else {
        assert a.Unlock?;
        assert t.history[..t.consumers[k].replay] == s.sub.snap;
      }
    }
  }

  lemma StreamHeard<T>(s: State<T>, k: nat)
    requires Inv(s) && Enabled(s, SendNext) && Subscribed(s, k) && StreamOk(s, k)
    ensures StreamOk(Apply(s, SendNext), k)
  {
    var c := s.consumers[k];
    if s.disp.k == k {
      assert s.history[c.since..|s.history|] == s.history[c.since..|s.history| - 1] + [s.disp.msg];
    }
  }

  lemma StreamGrown<T>(s: State<T>, k: nat)
    requires Inv(s) && Enabled(s, Receive) && Subscribed(s, k) && StreamOk(s, k)
    ensures StreamOk(Apply(s, Receive), k)
  {
    var c, t := s.consumers[k], Apply(s, Receive);
    assert t.history[..c.replay] == s.history[..c.replay];
    assert t.history[c.since..Heard(t, k)] == s.history[c.since..Heard(s, k)];
  }

  lemma StreamKept<T>(s: State<T>, a: Action<T>, k: nat)
    requires Inv(s) && Enabled(s, a) && Subscribed(s, k) && StreamOk(s, k)
    ensures StreamOk(Apply(s, a), k)
  {
    match a {
      case Receive => StreamGrown(s, k);
      case SendNext => StreamHeard(s, k);
      case _ =>
    }
  }

  lemma ReceiveJoining<T>(s: State<T>)
    requires Inv(s) && Enabled(s, Receive)
    ensures JoiningOk(Apply(s, Receive))
  {
  }

  lemma ReplayJoining<T>(s: State<T>)
    requires Inv(s) && Enabled(s, ReplayNext)
    ensures JoiningOk(Apply(s, ReplayNext))
  {
    assert s.sub.snap[..s.sub.j + 1] == s.sub.snap[..s.sub.j] + [s.sub.snap[s.sub.j]];
  }

  lemma SnapshotJoining<T>(s: State<T>)
    requires Inv(s) && Enabled(s, TakeSnapshot)
    ensures JoiningOk(Apply(s, TakeSnapshot))
  {
  }

  lemma CloseJoining<T>(s: State<T>)
    requires Inv(s) && Enabled(s, CloseNext)
    ensures JoiningOk(Apply(s, CloseNext))
  {
  }

  lemma StepJoining<T>(s: State<T>, a: Action<T>)
    requires Inv(s) && Enabled(s, a)
    ensures JoiningOk(Apply(s, a))
  {
    match a {
      case Receive => ReceiveJoining(s);
      case CloseNext => CloseJoining(s);
      case TakeSnapshot => SnapshotJoining(s);
      case ReplayNext => ReplayJoining(s);
      case _ =>
    }
  }

  /** Only the dispatcher's last loop closes channels; new channels are open. */
  lemma ClosedKept<T>(s: State<T>, t: State<T>)
    requires ClosedOk(s) && |s.consumers| <= |t.consumers|
    requires forall i :: 0 <= i < |t.consumers| ==> t.consumers[i].closed == (i < |s.consumers| && s.consumers[i].closed)
    requires if s.disp.Closing? || s.disp.Stopped? then t.disp == s.disp && t.open == s.open && t.pending == s.pending
             else !t.disp.Closing? && !t.disp.Stopped?
    ensures ClosedOk(t)
  {
  }

  lemma CloseClosed<T>(s: State<T>)
    requires ClosedOk(s)
    ensures Enabled(s, BeginClose) ==> ClosedOk(Apply(s, BeginClose))
    ensures Enabled(s, CloseNext) ==> ClosedOk(Apply(s, CloseNext))
  {
  }

  lemma StepClosed<T>(s: State<T>, a: Action<T>)
    requires Inv(s) && Enabled(s, a)
    ensures ClosedOk(Apply(s, a))
  {
    if a.BeginClose? || a.CloseNext? {
      CloseClosed(s);
    } else {
      ClosedKept(s, Apply(s, a));
    }
  }

  lemma StepDispatcher<T>(s: State<T>, a: Action<T>)
    requires Inv(s) && Enabled(s, a)
    ensures DispatcherOk(Apply(s, a))
  {
  }

  lemma StepInv<T>(s: State<T>, a: Action<T>)
    requires Inv(s) && Enabled(s, a)
    ensures Inv(Apply(s, a))
  {
    StepClosed(s, a);
    StepDispatcher(s, a);
    StepJoining(s, a);
    StepStreams(s, a);
    if a.Receive? {
      assert s.pending == [s.pending[0]] + s.pending[1..];
    }
  }

  // ---------- runs ----------

  ghost predicate Runs<T>(s: State<T>, acts: seq<Action<T>>)
    decreases |acts|
  {
    acts == [] || (Enabled(s, acts[0]) && Runs(Apply(s, acts[0]), acts[1..]))
  }

  ghost function After<T>(s: State<T>, acts: seq<Action<T>>): State<T>
    requires Runs(s, acts)
    decreases |acts|
  {
    if acts == [] then s else After(Apply(s, acts[0]), acts[1..])
  }

  lemma {:induction false} RunInv<T>(s: State<T>, acts: seq<Action<T>>)
    requires Inv(s) && Runs(s, acts)
    ensures Inv(After(s, acts))
    decreases |acts|
  {
    if acts != [] {
      StepInv(s, acts[0]);
      RunInv(Apply(s, acts[0]), acts[1..]);
    }
  }

  // ---------- delivery ----------

  /** `log` is the whole of `history` in order, or that with one message
      doubled on the spot: the last of the first `r`. */
  ghost predicate WholeStream<T>(log: seq<T>, history: seq<T>, r: nat) {
    && r <= |history|
    && (log == history || (r > 0 && log == history[..r] + [history[r - 1]] + history[r..]))
  }

  lemma StreamWhole<T>(s: State<T>, k: nat)
    requires Inv(s) && Subscribed(s, k) && !s.disp.Appended? && !s.disp.Sending?
    ensures WholeStream(s.consumers[k].log, s.history, s.consumers[k].replay)
  {
    assert StreamOk(s, k);
    var c := s.consumers[k];
    assert s.history[c.since..|s.history|] == s.history[c.since..];
    if c.since == c.replay {
      assert s.history[..c.replay] + s.history[c.replay..] == s.history;
    } else {
      assert s.history[c.since..] == [s.history[c.replay - 1]] + s.history[c.replay..];
    }
  }

  /** In every interleaving, with the dispatcher between messages, each subscriber has
      been sent everything received from the producer so far, in order and without gaps;
      at most one message twice, the last of its replay, immediately after itself. */
  lemma Delivered<T>(acts: seq<Action<T>>, k: nat)
    requires Runs(Init<T>(), acts) && Subscribed(After(Init<T>(), acts), k)
    ensures var s := After(Init<T>(), acts);
            !s.disp.Appended? && !s.disp.Sending? ==>
              && WholeStream(s.consumers[k].log, s.history, s.consumers[k].replay)
              && s.produced == s.history + s.pending
  {
    var s := After(Init<T>(), acts);
    RunInv(Init<T>(), acts);
    if !s.disp.Appended? && !s.disp.Sending? {
      StreamWhole(s, k);
    }
  }

  /** At any moment at all, what a subscriber was sent lacks at most the message in progress. */
  lemma NeverAGap<T>(acts: seq<Action<T>>, k: nat)
    requires Runs(Init<T>(), acts) && Subscribed(After(Init<T>(), acts), k)
    ensures var s := After(Init<T>(), acts);
            var c := s.consumers[k];
            && c.replay <= |s.history|
            && exists h: nat :: |s.history| - 1 <= h <= |s.history| && c.since <= h
                                && c.log == s.history[..c.replay] + s.history[c.since..h]
  {
    var s := After(Init<T>(), acts);
    RunInv(Init<T>(), acts);
    assert StreamOk(s, k);
    var h := Heard(s, k);
    assert |s.history| - 1 <= h <= |s.history|;
  }

  /** A closed channel has carried the producer's whole output. */
  lemma ClosedAfterAll<T>(acts: seq<Action<T>>, k: nat)
    requires Runs(Init<T>(), acts) && Subscribed(After(Init<T>(), acts), k)
    requires After(Init<T>(), acts).consumers[k].closed
    ensures var s := After(Init<T>(), acts);
            WholeStream(s.consumers[k].log, s.produced, s.consumers[k].replay)
  {
    RunInv(Init<T>(), acts);
    var s := After(Init<T>(), acts);
    assert s.disp.Closing? || s.disp.Stopped?;
    Delivered(acts, k);
    assert s.produced == s.history;
  }

  // ---------- how much history a subscription can replay ----------

  lemma {:induction false} LongReplayHolds<T>(s: State<T>, acts: seq<Action<T>>)
    requires Inv(s) && Runs(s, acts) && s.sub.Replaying? && |s.sub.snap| > BUFFER && s.sub.j <= BUFFER
    ensures After(s, acts).sub.Replaying? && After(s, acts).sub.snap == s.sub.snap
    decreases |acts|
  {
    if acts != [] {
      StepInv(s, acts[0]);
      LongReplayHolds(Apply(s, acts[0]), acts[1..]);
    }
  }

  lemma {:induction false} ShortReplayReturns<T>(s: State<T>) returns (acts: seq<Action<T>>)
    requires Inv(s) && s.sub.Replaying? && |s.sub.snap| <= BUFFER && !s.consumers[|s.consumers| - 1].closed
    ensures Runs(s, acts) && After(s, acts).sub.Nobody?
    decreases |s.sub.snap| - s.sub.j
  {
    var a := if s.sub.j == |s.sub.snap| then Unlock else ReplayNext;
    StepInv(s, a);
    if a == Unlock {
      acts := [a];
      assert Runs(Apply(s, a), acts[1..]);
    } else {
      var rest := ShortReplayReturns(Apply(s, a));
      acts := [a] + rest;
      assert acts[1..] == rest;
    }
  }

  ghost predicate CanReturn<T(!new)>(s: State<T>) {
    exists acts :: Runs(s, acts) && After(s, acts).sub.Nobody?
  }

  /** Some continuation lets a subscription return that has read its history, while its channel
      is open, exactly when that history fits the channel, which nobody can read before;
      a longer one leaves it holding the lock for ever. */
  lemma SubscribeCanReturnIff<T(!new)>(s: State<T>)
    requires Inv(s) && s.sub.Replaying? && !s.consumers[|s.consumers| - 1].closed
    ensures CanReturn(s) <==> |s.sub.snap| <= BUFFER
  {
    if |s.sub.snap| <= BUFFER {
      var acts := ShortReplayReturns(s);
    } else {
      assert s.sub.j <= BUFFER;
      forall acts | Runs(s, acts)
        ensures !After(s, acts).sub.Nobody?
      {
        LongReplayHolds(s, acts);
      }
    }
  }

  // ---------- when a subscription is sure to return ----------

  /** `t` is a later state of the replay that is under way in `s`. */
  predicate SameReplay<T>(s: State<T>, t: State<T>) {
    s.sub.Replaying? && t.sub.Replaying? && |t.consumers| == |s.consumers|
  }

  predicate ReplayMoves<T>(s: State<T>) {
    Enabled(s, ReplayNext) || Enabled(s, Unlock)
  }

  /** The dispatcher has nothing to broadcast, or is closing the channels,
      the newest among them: nothing keeps it from closing that one. */
  predicate CloseCanCome<T>(s: State<T>) {
    (s.disp.Listening? && s.pending == []) || (s.disp.Closing? && s.disp.n == |s.consumers|)
  }

  predicate SureToReturn<T>(s: State<T>)
    requires s.sub.Replaying? && s.consumers != []
  {
    && |s.sub.snap| <= BUFFER
    && (s.sub.j == |s.sub.snap| || (!s.consumers[|s.consumers| - 1].closed && !CloseCanCome(s)))
  }

  lemma StepReplay<T>(s: State<T>, a: Action<T>)
    requires Inv(s) && s.sub.Replaying? && Enabled(s, a)
    ensures SameReplay(s, Apply(s, a)) || (Apply(s, a).sub.Nobody? && |Apply(s, a).consumers| == |s.consumers|)
    ensures SameReplay(s, Apply(s, a)) && SureToReturn(s) ==> SureToReturn(Apply(s, a))
    ensures !ReplayMoves(s) ==> SameReplay(s, Apply(s, a)) && !ReplayMoves(Apply(s, a))
  {
    StepInv(s, a);
  }

  /** A new replay comes with a new channel. */
  lemma {:induction false} ConsumersGrow<T>(s: State<T>, acts: seq<Action<T>>)
    requires Runs(s, acts)
    ensures |s.consumers| <= |After(s, acts).consumers|
    ensures s.sub.Nobody? && !After(s, acts).sub.Nobody? ==> |s.consumers| < |After(s, acts).consumers|
    decreases |acts|
  {
    if acts != [] {
      ConsumersGrow(Apply(s, acts[0]), acts[1..]);
    }
  }

  lemma {:induction false} SureStays<T>(s: State<T>, acts: seq<Action<T>>)
    requires Inv(s) && s.sub.Replaying? && SureToReturn(s) && Runs(s, acts) && SameReplay(s, After(s, acts))
    ensures Inv(After(s, acts)) && SureToReturn(After(s, acts))
    decreases |acts|
  {
    if acts != [] {
      StepReplay(s, acts[0]);
      StepInv(s, acts[0]);
      ConsumersGrow(Apply(s, acts[0]), acts[1..]);
      SureStays(Apply(s, acts[0]), acts[1..]);
    }
  }

  /** From here on the subscription holds the lock for ever. */
  ghost predicate NeverReturns<T(!new)>(s: State<T>) {
    s.sub.Replaying? && forall more :: Runs(s, more) ==> SameReplay(s, After(s, more))
  }

  lemma {:induction false} BlockedForGood<T>(s: State<T>, more: seq<Action<T>>)
    requires Inv(s) && s.sub.Replaying? && !ReplayMoves(s) && Runs(s, more)
    ensures SameReplay(s, After(s, more))
    decreases |more|
  {
    if more != [] {
      StepReplay(s, more[0]);
      StepInv(s, more[0]);
      BlockedForGood(Apply(s, more[0]), more[1..]);
    }
  }

  /** Some interleaving leaves the subscription holding the lock for ever. */
  ghost predicate CanHang<T(!new)>(s: State<T>) {
    exists acts :: Runs(s, acts) && SameReplay(s, After(s, acts)) && NeverReturns(After(s, acts))
  }

  lemma Prepend<T>(s: State<T>, a: Action<T>, rest: seq<Action<T>>) returns (acts: seq<Action<T>>)
    requires Enabled(s, a) && Runs(Apply(s, a), rest)
    ensures Runs(s, acts) && After(s, acts) == After(Apply(s, a), rest)
  {
    acts := [a] + rest;
    assert acts[1..] == rest;
  }

  /** A replay of more messages than the channel holds fills it. */
  lemma {:induction false} ReplayFills<T>(s: State<T>) returns (acts: seq<Action<T>>)
    requires Inv(s) && s.sub.Replaying? && |s.sub.snap| > BUFFER && !s.consumers[|s.consumers| - 1].closed
    ensures Runs(s, acts) && SameReplay(s, After(s, acts)) && !ReplayMoves(After(s, acts))
    decreases |s.sub.snap| - s.sub.j
  {
    if ReplayMoves(s) {
      StepInv(s, ReplayNext);
      var rest := ReplayFills(Apply(s, ReplayNext));
      acts := Prepend(s, ReplayNext, rest);
    } else {
      acts := [];
    }
  }

  /** A dispatcher closing all channels gets to the newest. */
  lemma {:induction false} ClosingReaches<T>(s: State<T>) returns (acts: seq<Action<T>>)
    requires Inv(s) && s.sub.Replaying? && s.sub.j < |s.sub.snap| && s.disp.Closing? && s.disp.n == |s.consumers|
    ensures Runs(s, acts) && SameReplay(s, After(s, acts)) && !ReplayMoves(After(s, acts))
    decreases s.disp.n - s.disp.k
  {
    if s.consumers[|s.consumers| - 1].closed {
      acts := [];
    } else {
      StepInv(s, CloseNext);
      var rest := ClosingReaches(Apply(s, CloseNext));
      acts := Prepend(s, CloseNext, rest);
    }
  }

  lemma CloseComes<T>(s: State<T>) returns (acts: seq<Action<T>>)
    requires Inv(s) && s.sub.Replaying? && s.sub.j < |s.sub.snap| && CloseCanCome(s)
    ensures Runs(s, acts) && SameReplay(s, After(s, acts)) && !ReplayMoves(After(s, acts))
  {
    if s.disp.Closing? {
      acts := ClosingReaches(s);
    } else {
      var t := s;
      if s.open {
        StepInv(s, CloseProducer);
        t := Apply(s, CloseProducer);
      }
      StepInv(t, BeginClose);
      acts := ClosingReaches(Apply(t, BeginClose));
      acts := Prepend(t, BeginClose, acts);
      if s.open {
        acts := Prepend(s, CloseProducer, acts);
      }
    }
  }

  lemma UnsureBlocks<T>(s: State<T>) returns (acts: seq<Action<T>>)
    requires Inv(s) && s.sub.Replaying? && !SureToReturn(s)
    ensures Runs(s, acts) && SameReplay(s, After(s, acts)) && !ReplayMoves(After(s, acts))
  {
    if s.consumers[|s.consumers| - 1].closed {
      acts := [];
    } else if |s.sub.snap| > BUFFER {
      acts := ReplayFills(s);
    } else {
      acts := CloseComes(s);
    }
  }

  /** In every interleaving the replay can go on as long as it lasts. */
  ghost predicate AlwaysMoves<T(!new)>(s: State<T>) {
    forall acts :: Runs(s, acts) && SameReplay(s, After(s, acts)) ==> ReplayMoves(After(s, acts))
  }

  /** That is so exactly when what is left of the history fits the
      channel and the dispatcher cannot come to close that. */
  lemma ReplayMovesIff<T(!new)>(s: State<T>)
    requires Inv(s) && s.sub.Replaying?
    ensures AlwaysMoves(s) <==> SureToReturn(s)
  {
    if SureToReturn(s) {
      forall acts | Runs(s, acts) && SameReplay(s, After(s, acts))
        ensures ReplayMoves(After(s, acts))
      {
        SureStays(s, acts);
      }
    } else {
      var acts := UnsureBlocks(s);
    }
  }

  /** So it is in the other cases, and only in these, that a subscription may never return. */
  lemma SubscribeHangsIff<T(!new)>(s: State<T>)
    requires Inv(s) && s.sub.Replaying?
    ensures CanHang(s) <==> !SureToReturn(s)
  {
    if SureToReturn(s) {
      forall acts | Runs(s, acts) && SameReplay(s, After(s, acts))
        ensures !NeverReturns(After(s, acts))
      {
        SureStays(s, acts);
        SureReturns(After(s, acts));
      }
    } else {
      var acts := UnsureBlocks(s);
      RunInv(s, acts);
      forall more | Runs(After(s, acts), more)
        ensures SameReplay(After(s, acts), After(After(s, acts), more))
      {
        BlockedForGood(After(s, acts), more);
      }
    }
  }

  lemma SureReturns<T(!new)>(s: State<T>)
    requires Inv(s) && s.sub.Replaying? && SureToReturn(s)
    ensures !NeverReturns(s)
  {
    var acts;
    if s.sub.j == |s.sub.snap| {
      acts := Prepend(s, Unlock, []);
    } else {
      acts := ShortReplayReturns(s);
    }
    assert !SameReplay(s, After(s, acts));
  }

  // ---------- subscriptions that hang ----------

  /** The queue with `history` received and broadcast before anybody has subscribed. */
  function Early<T>(history: seq<T>): State<T> {
    State([], true, history, [], Listening, Nobody, history)
  }

  lemma {:induction false} AndThen<T>(s: State<T>, acts: seq<Action<T>>, a: Action<T>)
    requires Runs(s, acts) && Enabled(After(s, acts), a)
    ensures Runs(s, acts + [a]) && After(s, acts + [a]) == Apply(After(s, acts), a)
    decreases |acts|
  {
    var more := acts + [a];
    if acts == [] {
      assert more[1..] == [];
    } else {
      assert more[0] == acts[0] && more[1..] == acts[1..] + [a];
      AndThen(Apply(s, acts[0]), acts[1..], a);
    }
  }

  /** One more message is produced, received and broadcast to nobody. */
  lemma OneMore<T>(acts: seq<Action<T>>, history: seq<T>, msg: T) returns (more: seq<Action<T>>)
    requires Runs(Init<T>(), acts) && After(Init<T>(), acts) == Early(history)
    ensures Runs(Init<T>(), more) && After(Init<T>(), more) == Early(history + [msg])
  {
    AndThen(Init<T>(), acts, Produce(msg));
    more := acts + [Produce(msg)];
    assert ([] + [msg])[1..] == [];
    AndThen(Init<T>(), more, Receive);
    more := more + [Receive];
    AndThen(Init<T>(), more, LockForSend);
    more := more + [LockForSend];
    AndThen(Init<T>(), more, SendNext);
    more := more + [SendNext];
  }

  lemma {:induction false} HistoryReached<T>(history: seq<T>) returns (acts: seq<Action<T>>)
    ensures Runs(Init<T>(), acts) && After(Init<T>(), acts) == Early(history)
    decreases |history|
  {
    if history == [] {
      acts := [];
    } else {
      var before, msg := history[..|history| - 1], history[|history| - 1];
      assert history == before + [msg];
      acts := HistoryReached(before);
      acts := OneMore(acts, before, msg);
    }
  }

  /** The queue with `history`, the dispatcher in state `disp`, and a first
      subscriber that has found this history. */
  function Found<T>(history: seq<T>, open: bool, disp: Dispatcher<T>): State<T> {
    State([], open, history, [Consumer([], 0, false, |history|, BroadcastOf(disp, |history|))], disp, Replaying(history, 0), history)
  }

  lemma Joins<T>(acts: seq<Action<T>>, s: State<T>) returns (more: seq<Action<T>>)
    requires Runs(Init<T>(), acts) && s == After(Init<T>(), acts) && s.consumers == [] && Enabled(s, Subscribe)
    ensures Runs(Init<T>(), more)
    ensures After(Init<T>(), more)
            == s.(consumers := [Consumer([], 0, false, |s.history|, Broadcast(s))], sub := Replaying(s.history, 0))
  {
    AndThen(Init<T>(), acts, Subscribe);
    more := acts + [Subscribe];
    AndThen(Init<T>(), more, TakeSnapshot);
    more := more + [TakeSnapshot];
  }

  lemma FoundReached<T>(history: seq<T>) returns (acts: seq<Action<T>>)
    ensures Runs(Init<T>(), acts) && After(Init<T>(), acts) == Found(history, true, Listening) && Inv(Found(history, true, Listening))
  {
    acts := HistoryReached(history);
    acts := Joins(acts, Early(history));
    RunInv(Init<T>(), acts);
  }

  /** Any history can be what a subscriber finds, with the dispatcher idle. Then it may hang
      unless the history is empty; and one of more than 100 messages it can never replay. */
  lemma AnyHistoryFound<T(!new)>(history: seq<T>) returns (acts: seq<Action<T>>, s: State<T>)
    ensures Runs(Init<T>(), acts) && s == After(Init<T>(), acts) && s.sub == Replaying(history, 0)
    ensures CanHang(s) <==> history != []
    ensures CanReturn(s) <==> |history| <= BUFFER
  {
    acts := FoundReached(history);
    s := Found(history, true, Listening);
    SubscribeHangsIff(s);
    SubscribeCanReturnIff(s);
  }

  /** One message is enough: the producer closes, and the dispatcher closes
      the new channel before the message has been replayed on it. */
  lemma OneMessageHangs<T(!new)>(msg: T) returns (acts: seq<Action<T>>, s: State<T>)
    ensures Runs(Init<T>(), acts) && s == After(Init<T>(), acts) && s.history == [msg] && NeverReturns(s)
  {
    acts := FoundReached([msg]);
    AndThen(Init<T>(), acts, CloseProducer);
    acts := acts + [CloseProducer];
    AndThen(Init<T>(), acts, BeginClose);
    acts := acts + [BeginClose];
    s := Found([msg], false, Closing(0, 1));
    assert After(Init<T>(), acts) == s;
    AndThen(Init<T>(), acts, CloseNext);
    acts := acts + [CloseNext];
    s := Apply(s, CloseNext);
    RunInv(Init<T>(), acts);
    forall more | Runs(s, more)
      ensures SameReplay(s, After(s, more))
    {
      BlockedForGood(s, more);
    }
  }

  /** A dispatcher that has received the next message waits for the
      lock: then any history of at most 100 messages is sure to be replayed. */
  lemma BusyDispatcherWaits<T>(history: seq<T>, msg: T) returns (acts: seq<Action<T>>, s: State<T>)
    requires |history| < BUFFER
    ensures Runs(Init<T>(), acts) && s == After(Init<T>(), acts) && s.sub == Replaying(history + [msg], 0)
    ensures Inv(s) && SureToReturn(s)
  {
    acts := HistoryReached(history);
    AndThen(Init<T>(), acts, Produce(msg));
    acts := acts + [Produce(msg)];
    AndThen(Init<T>(), acts, Receive);
    acts := acts + [Receive];
    acts := Joins(acts, After(Init<T>(), acts));
    RunInv(Init<T>(), acts);
    s := After(Init<T>(), acts);
  }

  // ---------- the queue object ----------

  /** What the dispatcher is about to do. */
  ghost function DispatcherAction<T>(s: State<T>): Action<T> {
    match s.disp
    case Listening => if s.pending != [] then Receive else BeginClose
    case Appended(_) => LockForSend
    case Sending(_, _) => SendNext
    case _ => CloseNext
  }

  /** The queue of one key: each method is one atomic step of the
      dispatcher goroutine, of a `Subscribe` call, or of a user of a channel. */
  class MessageQueue<T> {
    var producer: seq<T>
    var open: bool
    var history: seq<T>
    var consumers: seq<Consumer<T>>
    var dispatcher: Dispatcher<T>
    var joining: Joining<T>
    ghost var produced: seq<T>

    ghost function View(): State<T>
      reads this
    {
      State(producer, open, history, consumers, dispatcher, joining, produced)
    }

    ghost predicate Valid()
      reads this
    {
      Inv(View())
    }

    constructor ()
      ensures Valid() && View() == Init<T>() && open && producer == [] && history == [] && consumers == []
    {
      producer, open, history, consumers := [], true, [], [];
      dispatcher, joining, produced := Listening, Nobody, [];
    }

    method Produce(msg: T)
      requires Valid() && open
      modifies this
      ensures Valid() && View() == Apply(old(View()), Action.Produce(msg))
      ensures producer == old(producer) + [msg] && produced == old(produced) + [msg]
    {
      StepInv(View(), Action.Produce(msg));
      producer := producer + [msg];
      produced := produced + [msg];
    }

    method CloseProducer()
      requires Valid() && open
      modifies this
      ensures Valid() && View() == Apply(old(View()), Action.CloseProducer) && !open
    {
      StepInv(View(), Action.CloseProducer);
      open := false;
    }

    method Send(k: nat, msg: T)
      requires k < |consumers|
      modifies `consumers
      ensures consumers == old(consumers)[k := Sent(old(consumers)[k], msg)]
    {
      consumers := consumers[k := Sent(consumers[k], msg)];
    }

    method TakeMessage()
      requires Valid() && dispatcher.Listening? && producer != []
      modifies this
      ensures Valid() && View() == Apply(old(View()), Receive)
    {
      StepInv(View(), Receive);
      history := history + [producer[0]];
      dispatcher := Appended(producer[0]);
      producer := producer[1..];
    }

    /** One turn of the loop over the subscribers, under the read lock; after the last, the lock is released. */
    method SendOn()
      requires Valid() && dispatcher.Sending?
      requires dispatcher.k < |consumers| ==>
                 !consumers[dispatcher.k].closed && |consumers[dispatcher.k].log| - consumers[dispatcher.k].taken < 100
      modifies this
      ensures Valid() && View() == Apply(old(View()), SendNext)
    {
      StepInv(View(), SendNext);
      if dispatcher.k == |consumers| {
        dispatcher := Listening;
      } else {
        Send(dispatcher.k, dispatcher.msg);
        dispatcher := Sending(dispatcher.msg, dispatcher.k + 1);
      }
    }

    /** One turn of the loop that closes the subscribers' channels, which takes no lock. */
    method CloseOn()
      requires Valid() && dispatcher.Closing?
      modifies this
      ensures Valid() && View() == Apply(old(View()), CloseNext)
    {
      StepInv(View(), CloseNext);
      var k, n := dispatcher.k, dispatcher.n;
      if k < n {
        consumers := consumers[k := consumers[k].(closed := true)];
        dispatcher := Closing(k + 1, n);
      } else {
        dispatcher := Stopped(n);
      }
    }

    /** The next step of the dispatcher's loop, if it has one that need not wait. */
    method Dispatch() returns (moved: bool)
      requires Valid()
      modifies this
      ensures Valid()
      ensures moved ==> Enabled(old(View()), DispatcherAction(old(View())))
      ensures moved ==> View() == Apply(old(View()), DispatcherAction(old(View())))
      ensures !moved ==> View() == old(View()) && !Enabled(View(), DispatcherAction(View()))
      ensures moved <==> match old(dispatcher)
                         case Listening => old(producer) != [] || !open
                         case Appended(_) => joining.Nobody?
                         case Sending(_, k) =>
                           k == |old(consumers)| ||
                           (!old(consumers)[k].closed && |old(consumers)[k].log| - old(consumers)[k].taken < 100)
                         case Closing(_, _) => true
                         case Stopped(_) => false
      ensures old(dispatcher).Listening? && old(producer) != [] ==>
                && dispatcher == Appended(old(producer)[0]) && producer == old(producer)[1..]
                && history == old(history) + [old(producer)[0]] && consumers == old(consumers)
      ensures moved && old(dispatcher).Sending? && old(dispatcher).k < |old(consumers)| ==>
                var k := old(dispatcher).k;
                && dispatcher == Sending(old(dispatcher).msg, k + 1)
                && consumers == old(consumers)[k := old(consumers)[k].(log := old(consumers)[k].log + [old(dispatcher).msg])]
    {
      moved := true;
      if dispatcher.Listening? && producer != [] {
        TakeMessage();
      } else if dispatcher.Listening? && !open {
        StepInv(View(), BeginClose);
        dispatcher := Closing(0, |consumers|);
      } else if dispatcher.Appended? && joining.Nobody? {
        StepInv(View(), LockForSend);
        dispatcher := Sending(dispatcher.msg, 0);
      } else if dispatcher.Sending? && (dispatcher.k == |consumers| || Room(consumers[dispatcher.k])) {
        SendOn();
      } else if dispatcher.Closing? {
        CloseOn();
      } else {
        moved := false;
      }
    }

    /** `Subscribe` takes the lock and adds its channel; nil is returned, in
        the source, only for a key never registered. */
    method Join() returns (k: nat)
      requires Valid() && joining.Nobody? && !dispatcher.Sending?
      modifies this
      ensures Valid() && View() == Apply(old(View()), Subscribe) && k == |old(consumers)|
      ensures joining == Joined && consumers == old(consumers) + [Consumer([], 0, false, 0, 0)]
    {
      StepInv(View(), Subscribe);
      k := |consumers|;
      consumers := consumers + [Consumer([], 0, false, 0, 0)];
      joining := Joined;
    }

    method Snapshot()
      requires Valid() && joining.Joined?
      modifies this
      ensures Valid() && View() == Apply(old(View()), TakeSnapshot)
    {
      StepInv(View(), TakeSnapshot);
      var k := |consumers| - 1;
      consumers := consumers[k := consumers[k].(replay := |history|, since := BroadcastOf(dispatcher, |history|))];
      joining := Replaying(history, 0);
    }

    method ReplayOne()
      requires Valid() && joining.Replaying? && joining.j < |joining.snap| && joining.j < 100
      requires !consumers[|consumers| - 1].closed
      modifies this
      ensures Valid() && View() == Apply(old(View()), ReplayNext)
    {
      StepInv(View(), ReplayNext);
      Send(|consumers| - 1, joining.snap[joining.j]);
      joining := Replaying(joining.snap, joining.j + 1);
    }

    /** The replay loop, when nothing makes it wait. */
    method ReplayRest()
      requires Valid() && joining.Replaying? && |joining.snap| <= BUFFER && !consumers[|consumers| - 1].closed
      modifies this
      ensures Valid() && joining.Replaying? && joining.snap == old(joining).snap && joining.j == |joining.snap|
      ensures history == old(history) && |consumers| == |old(consumers)|
    {
      while joining.j < |joining.snap|
        invariant Valid() && joining.Replaying? && joining.snap == old(joining).snap
        invariant history == old(history) && |consumers| == |old(consumers)| && !consumers[|consumers| - 1].closed
        decreases |joining.snap| - joining.j
      {
        ReplayOne();
      }
    }

    /** The rest of `Subscribe`, when nothing makes it wait: the whole
        history is sent on the new channel and the lock released. */
    method ReplayAll()
      requires Valid() && joining.Joined? && |history| <= BUFFER && !consumers[|consumers| - 1].closed
      modifies this
      ensures Valid() && joining.Nobody? && history == old(history) && |consumers| == |old(consumers)|
      ensures consumers[|consumers| - 1].log == history
    {
      Snapshot();
      ReplayRest();
      StepInv(View(), Action.Unlock);
      joining := Nobody;
    }

    method TakeOne(k: nat) returns (msg: T)
      requires Valid() && k < |consumers| && (joining.Nobody? || k < |consumers| - 1)
      requires consumers[k].taken < |consumers[k].log|
      modifies this
      ensures Valid() && View() == Apply(old(View()), Take(k))
      ensures msg == old(consumers)[k].log[old(consumers)[k].taken] && consumers[k].taken == old(consumers)[k].taken + 1
    {
      StepInv(View(), Take(k));
      msg := consumers[k].log[consumers[k].taken];
      consumers := consumers[k := consumers[k].(taken := consumers[k].taken + 1)];
    }

    /** Any step of the dispatcher, of a subscription, of the producer or of a subscriber. */
    method Step(a: Action<T>)
      requires Valid() && Enabled(View(), a)
      modifies this
      ensures Valid() && View() == Apply(old(View()), a)
    {
      StepInv(View(), a);
      match a {
        case Produce(msg) => Produce(msg);
        case CloseProducer => CloseProducer();
        case Receive => TakeMessage();
        case LockForSend => dispatcher := Sending(dispatcher.msg, 0);
        case SendNext => SendOn();
        case BeginClose => dispatcher := Closing(0, |consumers|);
        case CloseNext => CloseOn();
        case Subscribe => var _ := Join();
        case TakeSnapshot => Snapshot();
        case ReplayNext => ReplayOne();
        case Unlock => joining := Nobody;
        case Take(k) => var _ := TakeOne(k);
      }
    }
  }
}
