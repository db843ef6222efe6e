/** The tool stream: a bounded channel of items between senders and
    receivers, with a signal by which the receiving side stops the senders.

    A send looks at the signal twice, at its start and again while it waits for
    room; any number of sends and receives are under way at once. */
module Streams {
  datatype Item<T> = Item(chunk: T, err: bool)

  /** Where the send number `i` stands. */
  datatype Send<T> = Begun(item: Item<T>, late: bool) | Checked(item: Item<T>, late: bool) | Accepted | Refused(late: bool)

  /** What a send that waits is answered. */
  datatype Answer = Closed | Sent | StillWaiting

  datatype Received<T> = Got(item: Item<T>) | Eof | Blocked

  /** `accepted` and `received` are history variables. `late` marks a send
      begun after the receiving side was closed. */
  datatype State<T> = State(
    size: nat, items: seq<Item<T>>, sendClosed: bool, recvClosed: bool,
    sends: seq<Send<T>>, waiting: nat,
    accepted: seq<Item<T>>, received: seq<Item<T>>, eofs: nat)

  datatype Action<T> =
    | BeginSend(item: Item<T>) | CheckClosed(i: nat) | Push(i: nat) | HandOver(i: nat) | GiveUp(i: nat)
    | BeginRecv | Recv | RecvEof
    | CloseSend | CloseRecv

  function Init<T>(size: nat): State<T> {
    State(size, [], false, false, [], 0, [], [], 0)
  }

  /** Closing a side twice, and sending on a closed channel, panics: no step. */
  predicate Enabled<T>(s: State<T>, a: Action<T>) {
    match a
    case BeginSend(_) => true
    case CheckClosed(i) => i < |s.sends| && s.sends[i].Begun?
    case Push(i) => i < |s.sends| && s.sends[i].Checked? && !s.sendClosed && |s.items| < s.size
    case HandOver(i) => i < |s.sends| && s.sends[i].Checked? && !s.sendClosed && s.items == [] && s.waiting > 0
    case GiveUp(i) => i < |s.sends| && s.sends[i].Checked? && s.recvClosed
    case BeginRecv => true
    case Recv => s.waiting > 0 && s.items != []
    case RecvEof => s.waiting > 0 && s.items == [] && s.sendClosed
    case CloseSend => !s.sendClosed
    case CloseRecv => !s.recvClosed
  }

  function Apply<T>(s: State<T>, a: Action<T>): State<T>
    requires Enabled(s, a)
  {
    match a
    case BeginSend(item) => s.(sends := s.sends + [Begun(item, s.recvClosed)])
    case CheckClosed(i) =>
      var send := s.sends[i];
      s.(sends := s.sends[i := if s.recvClosed then Refused(send.late) else Checked(send.item, send.late)])
    case Push(i) =>
      var item := s.sends[i].item;
      s.(items := s.items + [item], sends := s.sends[i := Accepted], accepted := s.accepted + [item])
    case HandOver(i) =>
      var item := s.sends[i].item;
      s.(sends := s.sends[i := Accepted], accepted := s.accepted + [item],
         waiting := s.waiting - 1, received := s.received + [item])
    case GiveUp(i) => s.(sends := s.sends[i := Refused(s.sends[i].late)])
    case BeginRecv => s.(waiting := s.waiting + 1)
    case Recv => s.(items := s.items[1..], waiting := s.waiting - 1, received := s.received + [s.items[0]])
    case RecvEof => s.(waiting := s.waiting - 1, eofs := s.eofs + 1)
    case CloseSend => s.(sendClosed := true)
    case CloseRecv => s.(recvClosed := true)
  }

  ghost predicate Inv<T>(s: State<T>) {
    && s.accepted == s.received + s.items
    && |s.items| <= s.size
    && (s.eofs > 0 ==> s.sendClosed && s.items == [])
    && (forall i :: 0 <= i < |s.sends| ==> SendOk(s, s.sends[i]))
  }

  /** A late send never gets past its first look at the signal. */
  ghost predicate SendOk<T>(s: State<T>, send: Send<T>) {
    match send
    case Begun(_, late) => late ==> s.recvClosed
    case Checked(_, late) => !late
    case Accepted => true
    case Refused(_) => s.recvClosed
  }

  lemma StepInv<T>(s: State<T>, a: Action<T>)
    requires Inv(s) && Enabled(s, a)
    ensures Inv(Apply(s, a))
  {
    if a.Recv? {
      assert s.items == [s.items[0]] + s.items[1..];
    }
  }

  ghost predicate Runs<T>(s: State<T>, acts: seq<Action<T>>)
    decreases |acts|
  {
    acts == [] || (Enabled(s, acts[0]) && Runs(Apply(s, acts[0]), acts[1..]))
  }

  ghost function After<T>(s: State<T>, acts: seq<Action<T>>): State<T>
    requires Runs(s, acts)
    decreases |acts|
  {
    if acts == [] then s else After(Apply(s, acts[0]), acts[1..])
  }

  lemma {:induction false} RunInv<T>(s: State<T>, acts: seq<Action<T>>)
    requires Inv(s) && Runs(s, acts)
    ensures Inv(After(s, acts)) && After(s, acts).size == s.size
    decreases |acts|
  {
    if acts != [] {
      StepInv(s, acts[0]);
      RunInv(Apply(s, acts[0]), acts[1..]);
    }
  }

  /** Nothing is lost, invented or reordered, and the buffer keeps to its size. */
  lemma Conservation<T>(size: nat, acts: seq<Action<T>>)
    requires Runs(Init<T>(size), acts)
    ensures var s := After(Init<T>(size), acts);
            s.accepted == s.received + s.items && |s.items| <= size
  {
    RunInv(Init<T>(size), acts);
  }

  lemma {:induction false} NothingAfterEof<T>(s: State<T>, more: seq<Action<T>>)
    requires Inv(s) && Runs(s, more) && s.sendClosed && s.items == []
    ensures After(s, more).accepted == s.accepted && After(s, more).received == s.received
    ensures After(s, more).sendClosed && After(s, more).items == []
    decreases |more|
  {
    if more != [] {
      StepInv(s, more[0]);
      NothingAfterEof(Apply(s, more[0]), more[1..]);
    }
  }

  /** The end of the stream is reported only when every accepted item has
      been received, and after it no item is ever accepted or received. */
  lemma EofIsFinal<T>(size: nat, acts: seq<Action<T>>, more: seq<Action<T>>)
    requires Runs(Init<T>(size), acts) && After(Init<T>(size), acts).eofs > 0
    requires Runs(After(Init<T>(size), acts), more)
    ensures var s := After(Init<T>(size), acts);
            s.received == s.accepted && After(s, more).accepted == s.accepted && After(s, more).received == s.received
  {
    RunInv(Init<T>(size), acts);
    NothingAfterEof(After(Init<T>(size), acts), more);
  }

  lemma {:induction false} LateStaysOut<T>(s: State<T>, more: seq<Action<T>>, i: nat)
    requires Inv(s) && Runs(s, more) && i < |s.sends|
    requires (s.sends[i].Begun? || s.sends[i].Refused?) && s.sends[i].late && s.recvClosed
    ensures i < |After(s, more).sends| && !After(s, more).sends[i].Accepted? && !After(s, more).sends[i].Checked?
    decreases |more|
  {
    if more != [] {
      StepInv(s, more[0]);
      LateStaysOut(Apply(s, more[0]), more[1..], i);
    }
  }

  /** A send begun after the receiving side was closed is never accepted. */
  lemma LateSendRefused<T>(size: nat, acts: seq<Action<T>>, item: Item<T>, more: seq<Action<T>>)
    requires Runs(Init<T>(size), acts) && After(Init<T>(size), acts).recvClosed
    requires Runs(Apply(After(Init<T>(size), acts), BeginSend(item)), more)
    ensures var s := After(Init<T>(size), acts);
            var t := After(Apply(s, BeginSend(item)), more);
            |s.sends| < |t.sends| && !t.sends[|s.sends|].Accepted?
  {
    RunInv(Init<T>(size), acts);
    var s := After(Init<T>(size), acts);
    StepInv(s, BeginSend(item));
    LateStaysOut(Apply(s, BeginSend(item)), more, |s.sends|);
  }

  // ---------- the stream object ----------

  /** The stream's channels, each method one atomic step of a caller's goroutine. */
  class Stream<T> {
    const size: nat
    var items: seq<Item<T>>
    var sendClosed: bool
    var recvClosed: bool
    var sends: seq<Send<T>>
    var waiting: nat
    ghost var accepted: seq<Item<T>>
    ghost var received: seq<Item<T>>
    ghost var eofs: nat

    ghost function View(): State<T>
      reads this
    {
      State(size, items, sendClosed, recvClosed, sends, waiting, accepted, received, eofs)
    }

    ghost predicate Valid()
      reads this
    {
      Inv(View())
    }

    constructor (size: nat)
      ensures Valid() && View() == Init<T>(size) && this.size == size
      ensures items == [] && !sendClosed && !recvClosed && sends == [] && waiting == 0
    {
      this.size := size;
      items, sendClosed, recvClosed, sends, waiting := [], false, false, [], 0;
      accepted, received, eofs := [], [], 0;
    }

    /** A send begins; its first look at the signal is a step of its own. */
    method Begin(item: Item<T>) returns (i: nat)
      requires Valid()
      modifies this
      ensures Valid() && View() == Apply(old(View()), BeginSend(item)) && i == |old(sends)|
      ensures sends == old(sends) + [Begun(item, recvClosed)]
    {
      StepInv(View(), BeginSend(item));
      i := |sends|;
      sends := sends + [Begun(item, recvClosed)];
    }

    method Check(i: nat) returns (closed: bool)
      requires Valid() && i < |sends| && sends[i].Begun?
      modifies this
      ensures Valid() && View() == Apply(old(View()), CheckClosed(i)) && closed == recvClosed
      ensures sends[i].Refused? == closed && sends[i].Checked? == !closed
    {
      StepInv(View(), CheckClosed(i));
      closed := recvClosed;
      sends := sends[i := if closed then Refused(sends[i].late) else Checked(sends[i].item, sends[i].late)];
    }

    /** The second wait of a send: `stop` chooses between the two cases when both are
        ready. Without room, a waiting receiver or the signal, the send goes on waiting. */
    method Finish(i: nat, stop: bool) returns (closed: Answer)
      requires Valid() && i < |sends| && sends[i].Checked? && !sendClosed
      modifies this
      ensures Valid()
      ensures closed == Closed ==> Enabled(old(View()), GiveUp(i)) && View() == Apply(old(View()), GiveUp(i))
      ensures closed == Sent ==>
                if Enabled(old(View()), Push(i)) then View() == Apply(old(View()), Push(i))
                else Enabled(old(View()), HandOver(i)) && View() == Apply(old(View()), HandOver(i))
      ensures closed == StillWaiting ==>
                && View() == old(View())
                && !Enabled(View(), Push(i)) && !Enabled(View(), HandOver(i)) && !Enabled(View(), GiveUp(i))
      ensures var room, taker := |old(items)| < size, old(items) == [] && old(waiting) > 0;
              closed == if recvClosed && (stop || !(room || taker)) then Closed else if room || taker then Sent else StillWaiting
      ensures closed == Sent && |old(items)| < size ==>
                items == old(items) + [old(sends)[i].item] && received == old(received) && waiting == old(waiting)
      ensures closed == Sent && |old(items)| >= size ==>
                items == [] && received == old(received) + [old(sends)[i].item] && waiting == old(waiting) - 1
      ensures closed != Sent ==> items == old(items) && received == old(received) && waiting == old(waiting)
      ensures accepted == if closed == Sent then old(accepted) + [old(sends)[i].item] else old(accepted)
    {
      var item := sends[i].item;
      var room := |items| < size;
      var taker := items == [] && waiting > 0;
      if recvClosed && (stop || !(room || taker)) {
        StepInv(View(), GiveUp(i));
        sends := sends[i := Refused(sends[i].late)];
        return Closed;
      }
      if room {
        StepInv(View(), Push(i));
        items := items + [item];
        sends := sends[i := Accepted];
        accepted := accepted + [item];
        return Sent;
      }
      if taker {
        StepInv(View(), HandOver(i));
        sends := sends[i := Accepted];
        accepted := accepted + [item];
        waiting := waiting - 1;
        received := received + [item];
        return Sent;
      }
      closed := StillWaiting;
    }

    method StartReceive()
      requires Valid()
      modifies this
      ensures Valid() && View() == Apply(old(View()), BeginRecv) && waiting == old(waiting) + 1
    {
      StepInv(View(), BeginRecv);
      waiting := waiting + 1;
    }

    /** A receive under way takes the oldest item, is told of the end, or goes on waiting. */
    method FinishReceive() returns (r: Received<T>)
      requires Valid() && waiting > 0
      modifies this
      ensures Valid()
      ensures match r
              case Got(item) => Enabled(old(View()), Recv) && View() == Apply(old(View()), Recv) && item == old(items)[0]
              case Eof => Enabled(old(View()), RecvEof) && View() == Apply(old(View()), RecvEof)
              case Blocked => View() == old(View()) && !Enabled(View(), Recv) && !Enabled(View(), RecvEof)
      ensures r == if old(items) != [] then Got(old(items)[0]) else if sendClosed then Eof else Blocked
      ensures items == (if old(items) != [] then old(items)[1..] else []) && waiting == old(waiting) - if r == Blocked then 0 else 1
    {
      if items != [] {
        StepInv(View(), Recv);
        r := Got(items[0]);
        received := received + [items[0]];
        items := items[1..];
        waiting := waiting - 1;
      } else if sendClosed {
        StepInv(View(), RecvEof);
        r := Eof;
        eofs := eofs + 1;
        waiting := waiting - 1;
      } else {
        r := Blocked;
      }
    }

    /** A receive takes the oldest item, is told of the end, or
        waits, to be finished later or handed an item by a sender. */
    method Receive() returns (r: Received<T>)
      requires Valid()
      modifies this
      ensures Valid()
      ensures old(items) != [] ==>
                && r == Got(old(items)[0]) && items == old(items)[1..] && received == old(received) + [old(items)[0]]
      ensures old(items) == [] ==> items == [] && received == old(received)
      ensures old(items) == [] ==> r == if sendClosed then Eof else Blocked
      ensures accepted == old(accepted) && (r == Eof ==> received == accepted)
      ensures sendClosed == old(sendClosed) && recvClosed == old(recvClosed)
      ensures waiting == old(waiting) + if r == Blocked then 1 else 0
    {
      StartReceive();
      r := FinishReceive();
    }

    method CloseSend()
      requires Valid() && !sendClosed
      modifies this
      ensures Valid() && View() == Apply(old(View()), Action.CloseSend) && sendClosed && items == old(items)
    {
      StepInv(View(), Action.CloseSend);
      sendClosed := true;
    }

    method CloseRecv()
      requires Valid() && !recvClosed
      modifies this
      ensures Valid() && View() == Apply(old(View()), Action.CloseRecv) && recvClosed && items == old(items)
    {
      StepInv(View(), Action.CloseRecv);
      recvClosed := true;
    }
  }
}
