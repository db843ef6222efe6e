/** A growable circular buffer of distinct ids with an index of their slots,
    kept equal to a plain sequence without duplicates. */
module IdRings {
  const MIN_CAPACITY: nat := 16

  // ---------- the order, as a sequence ----------

  ghost predicate Distinct(s: seq<string>) {
    forall i, j :: 0 <= i < j < |s| ==> s[i] != s[j]
  }

  ghost predicate Proper(s: seq<string>) {
    Distinct(s) && "" !in s
  }

  /** Append, unless empty or already there. */
  function Pushed(s: seq<string>, id: string): seq<string> {
    if id == "" || id in s then s else s + [id]
  }

  function Without(s: seq<string>, id: string): (r: seq<string>)
    ensures forall x :: x in r <==> x in s && x != id
  {
    if s == [] then []
    else if s[0] == id then Without(s[1..], id)
    else [s[0]] + Without(s[1..], id)
  }

  lemma {:induction false} WithoutAbsent(s: seq<string>, id: string)
    requires id !in s
    ensures Without(s, id) == s
    decreases |s|
  {
    if s != [] {
      WithoutAbsent(s[1..], id);
    }
  }

  lemma {:induction false} WithoutAppend(s: seq<string>, x: string, id: string)
    ensures Without(s + [x], id) == if x == id then Without(s, id) else Without(s, id) + [x]
    decreases |s|
  {
    if s == [] {
      assert s + [x] == [x];
    } else {
      WithoutAppend(s[1..], x, id);
      assert (s + [x])[1..] == s[1..] + [x];
    }
  }

  // ---------- slots ----------

  /** The physical slot of the `i`-th live id. */
  function Slot(head: nat, i: nat, n: nat): nat
    requires n > 0
  {
    (head + i) % n
  }

  lemma SlotWraps(head: nat, i: nat, n: nat)
    requires n > 0 && head < n && i <= n
    ensures Slot(head, i, n) == if head + i < n then head + i else head + i - n
  {
    if head + i < n {
      assert (head + i) / n == 0;
    } else if head + i - n < n {
      assert (head + i) == n + (head + i - n);
      assert (head + i) / n == 1;
    }
  }

  lemma SlotsDiffer(head: nat, n: nat)
    requires n > 0 && head < n
    ensures forall i, j :: 0 <= i < j < n ==> Slot(head, i, n) != Slot(head, j, n)
    ensures forall i :: 0 <= i < n ==> Slot(head, i, n) < n
  {
    forall i, j | 0 <= i < j < n
      ensures Slot(head, i, n) != Slot(head, j, n)
    {
      SlotWraps(head, i, n);
      SlotWraps(head, j, n);
    }
  }

  /** The next head sees every later id one place nearer. */
  lemma SlotShift(head: nat, i: nat, n: nat)
    requires n > 0 && head < n && i + 1 <= n
    ensures Slot(Slot(head, 1, n), i, n) == Slot(head, i + 1, n)
  {
    SlotWraps(head, 1, n);
    SlotWraps(Slot(head, 1, n), i, n);
    SlotWraps(head, i + 1, n);
  }

  // ---------- the buffer and its index ----------

  /** The buffer holds the ids of `order` from `head` on, wrapping around, and the
      index maps each of them, and nothing else, to its slot. */
  ghost predicate RingOk(buf: seq<string>, head: nat, size: nat, index: map<string, nat>, order: seq<string>) {
    && head < |buf| && size <= |buf| && |order| == size && Proper(order)
    && (forall i :: 0 <= i < size ==> Slot(head, i, |buf|) < |buf| && buf[Slot(head, i, |buf|)] == order[i])
    && (forall id :: id in index <==> id in order)
    && (forall i :: 0 <= i < size ==> index[order[i]] == Slot(head, i, |buf|))
  }

  lemma PushOk(buf: seq<string>, head: nat, size: nat, index: map<string, nat>, order: seq<string>, id: string)
    requires RingOk(buf, head, size, index, order) && size < |buf| && id != "" && id !in order
    ensures var pos := Slot(head, size, |buf|);
            pos < |buf| && RingOk(buf[pos := id], head, size + 1, index[id := pos], order + [id])
  {
    SlotsDiffer(head, |buf|);
    var pos := Slot(head, size, |buf|);
    var order' := order + [id];
    assert Proper(order');
    forall i | 0 <= i < size + 1
      ensures buf[pos := id][Slot(head, i, |buf|)] == order'[i]
      ensures index[id := pos][order'[i]] == Slot(head, i, |buf|)
    {
      if i < size {
        assert order[i] != id;
      }
    }
  }

  lemma PopOk(buf: seq<string>, head: nat, size: nat, index: map<string, nat>, order: seq<string>)
    requires RingOk(buf, head, size, index, order) && size > 0
    ensures buf[head] == order[0]
    ensures RingOk(buf[head := ""], Slot(head, 1, |buf|), size - 1, index - {order[0]}, order[1..])
  {
    var n := |buf|;
    SlotWraps(head, 0, n);
    SlotWraps(head, 1, n);
    SlotsDiffer(head, n);
    forall i | 0 <= i < size - 1
      ensures Slot(Slot(head, 1, n), i, n) == Slot(head, i + 1, n) != head
    {
      SlotShift(head, i, n);
    }
    var rest := order[1..];
    forall i, j | 0 <= i < j < |rest|
      ensures rest[i] != rest[j]
    {
      assert order[i + 1] != order[j + 1];
    }
    forall i | 0 <= i < |rest|
      ensures rest[i] != order[0]
    {
    }
  }

  lemma EmptyOk(buf: seq<string>, head: nat, index: map<string, nat>, order: seq<string>)
    requires RingOk(buf, head, 0, index, order)
    ensures RingOk(buf, 0, 0, index, order)
  {
  }

  /** The first `i` ids but `id`, in the order the removal pushes them back. */
  ghost function PushedBack(vals: seq<string>, i: nat, id: string): seq<string>
    requires i <= |vals|
  {
    if i == 0 then []
    else if vals[i - 1] == id then PushedBack(vals, i - 1, id)
    else Pushed(PushedBack(vals, i - 1, id), vals[i - 1])
  }

  lemma {:induction false} PushedBackIs(vals: seq<string>, i: nat, id: string)
    requires i <= |vals| && Proper(vals)
    ensures PushedBack(vals, i, id) == Without(vals[..i], id)
    decreases i
  {
    if i > 0 {
      PushedBackIs(vals, i - 1, id);
      assert vals[..i] == vals[..i - 1] + [vals[i - 1]];
      WithoutAppend(vals[..i - 1], vals[i - 1], id);
    }
  }

  /** Copied to the front of a larger buffer, the ids keep their order. */
  lemma GrowOk(buf: seq<string>, index: map<string, nat>, order: seq<string>)
    requires |order| < |buf| && Proper(order) && order <= buf
    requires forall id :: id in index <==> id in order
    requires forall i :: 0 <= i < |order| ==> index[order[i]] == i
    ensures RingOk(buf, 0, |order|, index, order)
  {
    forall i | 0 <= i < |order|
      ensures Slot(0, i, |buf|) == i
    {
      SlotWraps(0, i, |buf|);
    }
  }

  class IdRing {
    var buf: array<string>
    var head: nat
    var size: nat
    var index: map<string, nat>
    /** The live ids, oldest first. */
    ghost var order: seq<string>

    ghost predicate Valid()
      reads this, buf
    {
      RingOk(buf[..], head, size, index, order)
    }

    constructor (capHint: int)
      ensures Valid() && fresh(buf) && order == [] && buf.Length == if capHint < 16 then 16 else capHint
    {
      var initial := if capHint < MIN_CAPACITY then MIN_CAPACITY else capHint;
      buf := new string[initial](_ => "");
      head, size, index, order := 0, 0, map[], [];
    }

    predicate Contains(id: string)
      reads this
    {
      id in index
    }

    /** The copy loop of the growth: the live ids from the front on, and their new index. */
    method CopyTo(newBuf: array<string>) returns (newIndex: map<string, nat>)
      requires Valid() && newBuf != buf && size < newBuf.Length
      modifies newBuf
      ensures order <= newBuf[..]
      ensures forall id :: id in newIndex <==> id in order
      ensures forall k :: 0 <= k < size ==> newIndex[order[k]] == k
    {
      newIndex := map[];
      var i := 0;
      while i < size
        invariant 0 <= i <= size && newBuf[..i] == order[..i]
        invariant forall id :: id in newIndex <==> id in order[..i]
        invariant forall k :: 0 <= k < i ==> newIndex[order[k]] == k
      {
        var oldPos := (head + i) % buf.Length;
        var id := buf[oldPos];
        assert oldPos == Slot(head, i, buf.Length) && id == buf[..][oldPos] == order[i];
        newBuf[i] := id;
        if id != "" {
          newIndex := newIndex[id := i];
        }
        i := i + 1;
        assert order[..i] == order[..i - 1] + [id];
      }
      assert order[..size] == order;
    }

    method EnsureCapacity(need: nat)
      requires Valid()
      modifies this`buf, this`head, this`index
      ensures Valid() && buf.Length >= need && (buf == old(buf) || fresh(buf))
      ensures if old(buf.Length) >= need then buf == old(buf) else buf.Length >= 2 * old(buf.Length) && buf.Length >= 16
    {
      if buf.Length >= need {
        return;
      }
      var newCap := buf.Length * 2;
      if newCap < need {
        newCap := need;
      }
      if newCap < MIN_CAPACITY {
        newCap := MIN_CAPACITY;
      }
      var newBuf := new string[newCap](_ => "");
      var newIndex := CopyTo(newBuf);
      GrowOk(newBuf[..], newIndex, order);
      buf, index, head := newBuf, newIndex, 0;
    }

    method PushBack(id: string)
      requires Valid()
      modifies this, buf
      ensures Valid() && order == Pushed(old(order), id)
      ensures order == if id == "" || id in old(order) then old(order) else old(order) + [id]
      ensures buf == old(buf) || fresh(buf)
    {
      if id == "" || Contains(id) {
        return;
      }
      EnsureCapacity(size + 1);
      PushOk(buf[..], head, size, index, order, id);
      var pos := (head + size) % buf.Length;
      buf[pos] := id;
      index := index[id := pos];
      size := size + 1;
      order := order + [id];
    }

    /** Takes the oldest id out of the buffer and the index and moves the head on. */
    method TakeFirst() returns (id: string)
      requires Valid() && size > 0
      modifies this, buf
      ensures Valid() && buf == old(buf) && id == old(order)[0] && order == old(order)[1..]
    {
      ghost var was, n := buf[..], buf.Length;
      PopOk(was, head, size, index, order);
      id := buf[head];
      index := index - {id};
      buf[head] := "";
      head := (head + 1) % buf.Length;
      size := size - 1;
      order := order[1..];
      assert buf[..] == was[old(head) := ""] && head == Slot(old(head), 1, n);
    }

    method PopFront() returns (id: string, ok: bool)
      requires Valid()
      modifies this, buf
      ensures Valid() && buf == old(buf) && ok == (old(order) != [])
      ensures ok ==> id == old(order)[0] && order == old(order)[1..]
      ensures ok && order == [] ==> head == 0
      ensures !ok ==> id == "" && order == old(order)
    {
      if size == 0 {
        return "", false;
      }
      id := TakeFirst();
      if size == 0 {
        EmptyOk(buf[..], head, index, order);
        head := 0;
      }
      ok := true;
    }

    method Values() returns (out: seq<string>)
      requires Valid()
      ensures out == order
    {
      out := [];
      var i := 0;
      while i < size
        invariant 0 <= i <= size && out == order[..i]
      {
        var pos := (head + i) % buf.Length;
        assert pos == Slot(head, i, buf.Length) && buf[..][pos] == order[i];
        if buf[pos] != "" {
          out := out + [buf[pos]];
        }
        i := i + 1;
      }
    }

    method Reset()
      requires Valid()
      modifies this, buf
      ensures Valid() && buf == old(buf) && order == []
    {
      var i := 0;
      while i < buf.Length
        invariant 0 <= i <= buf.Length
        modifies buf
      {
        buf[i] := "";
        i := i + 1;
      }
      head, size, index, order := 0, 0, map[], [];
    }

    method PushUnless(x: string, id: string)
      requires Valid()
      modifies this, buf
      ensures Valid() && order == if x == id then old(order) else Pushed(old(order), x)
      ensures buf == old(buf) || fresh(buf)
    {
      if x == id {
        return;
      }
      PushBack(x);
    }

    /** Pushes back all of `vals` but `id`. */
    method PushOthers(vals: seq<string>, id: string)
      requires Valid() && order == [] && Proper(vals)
      modifies this, buf
      ensures Valid() && order == Without(vals, id)
      ensures buf == old(buf) || fresh(buf)
    {
      var i := 0;
      while i < |vals|
        invariant 0 <= i <= |vals| && Valid() && order == PushedBack(vals, i, id)
        invariant buf == old(buf) || fresh(buf)
      {
        PushUnless(vals[i], id);
        i := i + 1;
      }
      PushedBackIs(vals, |vals|, id);
      assert vals[..|vals|] == vals;
    }

    method Remove(id: string) returns (removed: bool)
      requires Valid()
      modifies this, buf
      ensures Valid() && order == Without(old(order), id) && removed == (id in old(order))
      ensures buf == old(buf) || fresh(buf)
    {
      if !Contains(id) {
        WithoutAbsent(order, id);
        return false;
      }
      if size == 0 {
        return false;
      }
      var vals := Values();
      Reset();
      PushOthers(vals, id);
      removed := true;
    }
  }
}
