/** The short-term memory: an id ring that keeps insertion order beside a backing
    store, with expiry, capacity trimming and session tagging on top. */
module ShortTermMemories {
  import opened Wrappers
  import opened IdRings

  datatype Memory = Memory(content: string, topics: seq<string>, metadata: map<string, string>)

  datatype Item = Item(
    id: string, user: string, memory: Option<Memory>,
    created: Option<int>, updated: int, expires: Option<int>) {
    predicate IsExpired(now: int) {
      expires.Some? && now > expires.value
    }
  }

  datatype Key = Key(user: string, id: string)

  type Items = map<Key, Item>

  datatype ListOptions = ListOptions(limit: int, since: Option<int>, until: Option<int>, includeExpired: bool)

  datatype MemoryError = InvalidID | NotFound | StoreFailed | InvalidSessionID | StoreManagerNil

  // ---------- what the operations do, on values ----------

  /** The ids of `s` that are in `keep`, in order. */
  function Select(s: seq<string>, keep: set<string>): (r: seq<string>)
    ensures forall x :: x in r <==> x in s && x in keep
  {
    if s == [] then []
    else if s[0] in keep then [s[0]] + Select(s[1..], keep)
    else Select(s[1..], keep)
  }

  function IdSet(s: seq<string>): set<string> {
    set x | x in s
  }

  predicate Live(items: Items, user: string, id: string, now: int) {
    Key(user, id) in items && !items[Key(user, id)].IsExpired(now)
  }

  function LiveIds(order: seq<string>, items: Items, user: string, now: int): set<string> {
    set x | x in order && Live(items, user, x, now)
  }

  function WithoutKeys(items: Items, user: string, ids: set<string>): Items {
    map k | k in items && !(k.user == user && k.id in ids) :: items[k]
  }

  /** The items of other users than `user` are the same. */
  ghost predicate OthersKept(was: Items, items: Items, user: string) {
    forall k: Key :: k.user != user ==> (k in items <==> k in was) && (k in was ==> items[k] == was[k])
  }

  /** Nor does any item of `user` come in or change. */
  ghost predicate NothingNew(was: Items, items: Items) {
    forall k :: k in items ==> k in was && items[k] == was[k]
  }

  /** The order and the store after a cleanup at `now`. */
  function CleanOrder(order: seq<string>, items: Items, user: string, now: int): seq<string> {
    Select(order, LiveIds(order, items, user, now))
  }

  function CleanItems(order: seq<string>, items: Items, user: string, now: int): Items {
    WithoutKeys(items, user, IdSet(order) - LiveIds(order, items, user, now))
  }

  /** The last `n` ids. */
  function LastN(s: seq<string>, n: nat): seq<string> {
    if |s| <= n then s else s[|s| - n..]
  }

  function TrimOrder(order: seq<string>, capacity: int): seq<string> {
    if capacity <= 0 then order else LastN(order, capacity)
  }

  function TrimItems(order: seq<string>, items: Items, user: string, capacity: int): Items {
    if capacity <= 0 || |order| <= capacity then items
    else WithoutKeys(items, user, IdSet(order[..|order| - capacity]))
  }

  /** Each id of `ids` appended, unless it is there already. */
  function PushedAll(order: seq<string>, ids: seq<string>): seq<string>
    decreases |ids|
  {
    if ids == [] then order else PushedAll(Pushed(order, ids[0]), ids[1..])
  }

  function IdsOf(batch: seq<Item>): (r: seq<string>)
    ensures |r| == |batch| && forall i :: 0 <= i < |batch| ==> r[i] == batch[i].id
  {
    seq(|batch|, i requires 0 <= i < |batch| => batch[i].id)
  }

  function Stored(items: Items, batch: seq<Item>): Items
    decreases |batch|
  {
    if batch == [] then items else Stored(items[Key(batch[0].user, batch[0].id) := batch[0]], batch[1..])
  }

  /** Every item is stored under its own id and user. */
  ghost predicate Keyed(items: Items) {
    forall k :: k in items ==> items[k].id == k.id && items[k].user == k.user
  }

  // ---------- the two structures in step ----------

  /** The ids the store holds for `user`. */
  function OwnIds(items: Items, user: string): set<string> {
    set k | k in items && k.user == user :: k.id
  }

  /** The store never holds an id the ring does not know. */
  ghost predicate Covered(order: seq<string>, items: Items, user: string) {
    OwnIds(items, user) <= IdSet(order)
  }

  /** Ring and store hold the same ids. */
  ghost predicate InStep(order: seq<string>, items: Items, user: string) {
    OwnIds(items, user) == IdSet(order)
  }

  lemma OwnIdsIff(items: Items, user: string, id: string)
    ensures id in OwnIds(items, user) <==> Key(user, id) in items
  {
    if Key(user, id) in items {
      assert Key(user, id).id == id;
    }
  }

  lemma WithoutOne(items: Items, user: string, id: string)
    ensures WithoutKeys(items, user, {id}).Keys == items.Keys - {Key(user, id)}
    ensures NothingNew(items, WithoutKeys(items, user, {id}))
  {
  }

  lemma WithoutKeysOwn(items: Items, user: string, ids: set<string>)
    ensures OwnIds(WithoutKeys(items, user, ids), user) == OwnIds(items, user) - ids
  {
    forall id
      ensures id in OwnIds(WithoutKeys(items, user, ids), user) <==> id in OwnIds(items, user) - ids
    {
      OwnIdsIff(WithoutKeys(items, user, ids), user, id);
      OwnIdsIff(items, user, id);
    }
  }

  /** A cleanup brings ring and store in step and leaves nothing expired. */
  lemma CleanupRestores(order: seq<string>, items: Items, user: string, now: int)
    requires Covered(order, items, user)
    ensures var order' := CleanOrder(order, items, user, now);
            var items' := CleanItems(order, items, user, now);
            && InStep(order', items', user)
            && forall id :: id in order' ==> Key(user, id) in items' && !items'[Key(user, id)].IsExpired(now)
  {
    var live := LiveIds(order, items, user, now);
    WithoutKeysOwn(items, user, IdSet(order) - live);
    forall id
      ensures id in OwnIds(CleanItems(order, items, user, now), user) <==> id in IdSet(CleanOrder(order, items, user, now))
    {
      OwnIdsIff(items, user, id);
    }
  }

  /** No time of a known item is over. */
  ghost predicate NoneExpired(order: seq<string>, items: Items, user: string, now: int) {
    forall id :: id in order && Key(user, id) in items ==>
      items[Key(user, id)].expires.Some? ==> now <= items[Key(user, id)].expires.value
  }

  lemma CleanNotExpired(order: seq<string>, items: Items, user: string, now: int)
    ensures NoneExpired(CleanOrder(order, items, user, now), CleanItems(order, items, user, now), user, now)
  {
  }

  lemma CleanKeeps(order: seq<string>, items: Items, user: string, now: int)
    ensures var order', items' := CleanOrder(order, items, user, now), CleanItems(order, items, user, now);
            NoneExpired(order', items', user, now) && OthersKept(items, items', user) && NothingNew(items, items')
  {
    CleanNotExpired(order, items, user, now);
  }

  /** A second cleanup at the same time finds nothing to do. */
  lemma CleanupIdempotent(order: seq<string>, items: Items, user: string, now: int)
    requires Covered(order, items, user)
    ensures var order' := CleanOrder(order, items, user, now);
            var items' := CleanItems(order, items, user, now);
            CleanOrder(order', items', user, now) == order' && CleanItems(order', items', user, now) == items'
  {
    CleanupRestores(order, items, user, now);
    var order' := CleanOrder(order, items, user, now);
    var items' := CleanItems(order, items, user, now);
    assert LiveIds(order', items', user, now) == IdSet(order');
    SelectAll(order', IdSet(order'));
  }

  lemma {:induction false} SelectAll(s: seq<string>, keep: set<string>)
    requires forall x :: x in s ==> x in keep
    ensures Select(s, keep) == s
    decreases |s|
  {
    if s != [] {
      SelectAll(s[1..], keep);
    }
  }

  lemma {:induction false} SelectWithout(s: seq<string>, keep: set<string>, id: string)
    ensures Without(Select(s, keep), id) == Select(s, keep - {id})
    decreases |s|
  {
    if s != [] {
      SelectWithout(s[1..], keep, id);
      if s[0] in keep {
        assert ([s[0]] + Select(s[1..], keep))[1..] == Select(s[1..], keep);
      }
    }
  }

  lemma {:induction false} PushedAllContains(order: seq<string>, ids: seq<string>)
    requires "" !in ids
    ensures IdSet(PushedAll(order, ids)) == IdSet(order) + IdSet(ids)
    decreases |ids|
  {
    if ids != [] {
      PushedAllContains(Pushed(order, ids[0]), ids[1..]);
      assert IdSet(ids) == {ids[0]} + IdSet(ids[1..]);
      assert IdSet(Pushed(order, ids[0])) == IdSet(order) + {ids[0]};
    }
  }

  lemma {:induction false} StoredOwn(items: Items, batch: seq<Item>, user: string)
    ensures OwnIds(Stored(items, batch), user) == OwnIds(items, user) + set it | it in batch && it.user == user :: it.id
    decreases |batch|
  {
    if batch != [] {
      var it := batch[0];
      var items' := items[Key(it.user, it.id) := it];
      StoredOwn(items', batch[1..], user);
      forall id
        ensures id in OwnIds(items', user) <==> id in OwnIds(items, user) || (it.user == user && id == it.id)
      {
        OwnIdsIff(items', user, id);
        OwnIdsIff(items, user, id);
      }
      assert forall x :: x in batch <==> x == it || x in batch[1..];
    }
  }

  /** Trimming drops the same ids from both. */
  lemma TrimInStep(order: seq<string>, items: Items, user: string, capacity: int)
    requires Proper(order)
    ensures Covered(order, items, user) ==> Covered(TrimOrder(order, capacity), TrimItems(order, items, user, capacity), user)
    ensures InStep(order, items, user) ==> InStep(TrimOrder(order, capacity), TrimItems(order, items, user, capacity), user)
  {
    if capacity > 0 && |order| > capacity {
      var n := |order| - capacity;
      WithoutKeysOwn(items, user, IdSet(order[..n]));
      assert order == order[..n] + order[n..];
      forall x | x in order[n..]
        ensures x !in order[..n]
      {
        var j :| n <= j < |order| && order[j] == x;
      }
    }
  }

  /** A successful Add of the memory's own items: the new order is the last `capacity` of
      the live old order followed by the new ids, and the store holds exactly those ids. */
  lemma AddInStep(order: seq<string>, items: Items, user: string, now: int, batch: seq<Item>, capacity: int)
    requires Proper(order) && Covered(order, items, user)
    requires forall it :: it in batch ==> it.id != "" && it.user == user
    ensures var order1 := PushedAll(CleanOrder(order, items, user, now), IdsOf(batch));
            var items1 := Stored(CleanItems(order, items, user, now), batch);
            Proper(order1) && InStep(TrimOrder(order1, capacity), TrimItems(order1, items1, user, capacity), user)
  {
    var order0 := CleanOrder(order, items, user, now);
    var items0 := CleanItems(order, items, user, now);
    var order1 := PushedAll(order0, IdsOf(batch));
    var items1 := Stored(items0, batch);
    CleanupRestores(order, items, user, now);
    StoredOwn(items0, batch, user);
    PushedAllContains(order0, IdsOf(batch));
    assert (set it | it in batch && it.user == user :: it.id) == IdSet(IdsOf(batch)) by {
      forall x | x in IdsOf(batch)
        ensures x in set it | it in batch && it.user == user :: it.id
      {
        var i :| 0 <= i < |batch| && IdsOf(batch)[i] == x;
        assert batch[i] in batch;
      }
    }
    SelectProper(order, LiveIds(order, items, user, now));
    PushedAllProper(order0, IdsOf(batch));
    TrimInStep(order1, items1, user, capacity);
  }

  lemma {:induction false} SelectProper(s: seq<string>, keep: set<string>)
    requires Proper(s)
    ensures Proper(Select(s, keep))
    decreases |s|
  {
    if s != [] {
      assert forall i, j :: 0 <= i < j < |s[1..]| ==> s[1..][i] == s[i + 1] && s[1..][j] == s[j + 1];
      SelectProper(s[1..], keep);
      assert s[0] !in s[1..];
    }
  }

  lemma {:induction false} PushedAllProper(order: seq<string>, ids: seq<string>)
    requires Proper(order)
    ensures Proper(PushedAll(order, ids))
    decreases |ids|
  {
    if ids != [] {
      PushedAllProper(Pushed(order, ids[0]), ids[1..]);
    }
  }

  /** Whoever the items belong to, the ring goes on knowing every stored id. */
  lemma AddCovered(order: seq<string>, items: Items, user: string, batch: seq<Item>, capacity: int)
    requires Proper(order) && Covered(order, items, user)
    requires forall it :: it in batch ==> it.id != ""
    ensures var order1, items1 := PushedAll(order, IdsOf(batch)), Stored(items, batch);
            Covered(TrimOrder(order1, capacity), TrimItems(order1, items1, user, capacity), user)
  {
    StoredOwn(items, batch, user);
    PushedAllContains(order, IdsOf(batch));
    PushedAllProper(order, IdsOf(batch));
    forall it | it in batch
      ensures it.id in IdsOf(batch)
    {
      var i :| 0 <= i < |batch| && batch[i] == it;
      assert IdsOf(batch)[i] == it.id;
    }
    TrimInStep(PushedAll(order, IdsOf(batch)), Stored(items, batch), user, capacity);
  }

  /** An Add that fails at its `k`-th item has pushed that item's id but not stored it:
      the ring still knows every stored id. */
  lemma FailedAddCovered(order: seq<string>, items: Items, user: string, batch: seq<Item>, k: nat)
    requires k < |batch| && Covered(order, items, user)
    requires forall it :: it in batch ==> it.id != ""
    ensures Covered(PushedAll(order, IdsOf(batch[..k + 1])), Stored(items, batch[..k]), user)
  {
    StoredOwn(items, batch[..k], user);
    PushedAllContains(order, IdsOf(batch[..k + 1]));
    forall it | it in batch[..k]
      ensures it.id in IdsOf(batch[..k + 1])
    {
      var i :| 0 <= i < k && batch[i] == it;
      assert IdsOf(batch[..k + 1])[i] == it.id;
    }
  }

  /** What an Add makes of order and store when the store fails at item `failAt` of the
      batch; beyond the batch, nowhere. */
  function Added(order: seq<string>, items: Items, user: string, now: int, batch: seq<Item>, capacity: int, failAt: nat)
    : (seq<string>, Items)
  {
    var order0, items0 := CleanOrder(order, items, user, now), CleanItems(order, items, user, now);
    if failAt < |batch| then
      (PushedAll(order0, IdsOf(batch[..failAt + 1])), Stored(items0, batch[..failAt]))
    else
      var order1, items1 := PushedAll(order0, IdsOf(batch)), Stored(items0, batch);
      (TrimOrder(order1, capacity), TrimItems(order1, items1, user, capacity))
  }

  /** However an Add ends, the ring goes on knowing every stored id; ended
      well with the memory's own items, it knows no others. */
  lemma AddedCovered(order: seq<string>, items: Items, user: string, now: int, batch: seq<Item>, capacity: int, failAt: nat)
    requires Proper(order) && Covered(order, items, user)
    requires forall it :: it in batch ==> it.id != ""
    ensures var (order', items') := Added(order, items, user, now, batch, capacity, failAt);
            && Covered(order', items', user)
            && (failAt >= |batch| && (forall it :: it in batch ==> it.user == user) ==> InStep(order', items', user))
  {
    var order0, items0 := CleanOrder(order, items, user, now), CleanItems(order, items, user, now);
    CleanupRestores(order, items, user, now);
    SelectProper(order, LiveIds(order, items, user, now));
    if failAt < |batch| {
      FailedAddCovered(order0, items0, user, batch, failAt);
    } else {
      AddCovered(order0, items0, user, batch, capacity);
      if forall it :: it in batch ==> it.user == user {
        AddInStep(order, items, user, now, batch, capacity);
      }
    }
  }

  lemma {:induction false} PushedAllMore(order: seq<string>, ids: seq<string>, id: string)
    ensures PushedAll(order, ids + [id]) == Pushed(PushedAll(order, ids), id)
    decreases |ids|
  {
    if ids == [] {
      assert (ids + [id])[1..] == [];
    } else {
      PushedAllMore(Pushed(order, ids[0]), ids[1..], id);
      assert (ids + [id])[1..] == ids[1..] + [id];
    }
  }

  lemma {:induction false} StoredMore(items: Items, batch: seq<Item>, it: Item)
    ensures Stored(items, batch + [it]) == Stored(items, batch)[Key(it.user, it.id) := it]
    decreases |batch|
  {
    if batch == [] {
      assert (batch + [it])[1..] == [];
    } else {
      StoredMore(items[Key(batch[0].user, batch[0].id) := batch[0]], batch[1..], it);
      assert (batch + [it])[1..] == batch[1..] + [it];
    }
  }

  lemma WithoutKeysMore(items: Items, user: string, ids: set<string>, id: string)
    ensures WithoutKeys(WithoutKeys(items, user, ids), user, {id}) == WithoutKeys(items, user, ids + {id})
  {
  }

  /** The ids of `drop` deleted one after the other. */
  function DroppedOrder(order: seq<string>, drop: seq<string>): seq<string>
    decreases |drop|
  {
    if drop == [] then order else Without(DroppedOrder(order, drop[..|drop| - 1]), drop[|drop| - 1])
  }

  function DroppedItems(items: Items, user: string, drop: seq<string>): Items
    decreases |drop|
  {
    if drop == [] then items else WithoutKeys(DroppedItems(items, user, drop[..|drop| - 1]), user, {drop[|drop| - 1]})
  }

  lemma DroppedMore(order: seq<string>, items: Items, user: string, drop: seq<string>, i: nat)
    requires i < |drop|
    ensures DroppedOrder(order, drop[..i + 1]) == Without(DroppedOrder(order, drop[..i]), drop[i])
    ensures DroppedItems(items, user, drop[..i + 1]) == WithoutKeys(DroppedItems(items, user, drop[..i]), user, {drop[i]})
  {
    assert drop[..i + 1][..i] == drop[..i];
  }

  /** All at once: what remains is what is not in `drop`. */
  lemma {:induction false} DroppedAtOnce(order: seq<string>, items: Items, user: string, drop: seq<string>)
    ensures DroppedOrder(order, drop) == Select(order, IdSet(order) - IdSet(drop))
    ensures DroppedItems(items, user, drop) == WithoutKeys(items, user, IdSet(drop))
    decreases |drop|
  {
    if drop == [] {
      assert IdSet(drop) == {};
      SelectAll(order, IdSet(order) - IdSet(drop));
    } else {
      var n := |drop| - 1;
      var most := drop[..n];
      DroppedAtOnce(order, items, user, most);
      assert drop == most + [drop[n]];
      assert IdSet(drop) == IdSet(most) + {drop[n]};
      SelectWithout(order, IdSet(order) - IdSet(most), drop[n]);
      assert IdSet(order) - IdSet(drop) == IdSet(order) - IdSet(most) - {drop[n]};
      WithoutKeysMore(items, user, IdSet(most), drop[n]);
    }
  }

  lemma AllDropped(order: seq<string>, items: Items, user: string, drop: seq<string>, n: nat)
    requires n == |drop|
    ensures DroppedOrder(order, drop[..n]) == Select(order, IdSet(order) - IdSet(drop))
    ensures DroppedItems(items, user, drop[..n]) == WithoutKeys(items, user, IdSet(drop))
  {
    assert drop[..n] == drop;
    DroppedAtOnce(order, items, user, drop);
  }

  lemma TrimDone(order: seq<string>, items: Items, user: string, capacity: int, n: nat)
    requires capacity > 0 && n <= |order| && |order| - n <= capacity && (n > 0 ==> |order| - n >= capacity)
    ensures order[n..] == TrimOrder(order, capacity)
    ensures DroppedItems(items, user, order[..n]) == TrimItems(order, items, user, capacity)
  {
    DroppedAtOnce(order, items, user, order[..n]);
    if n == 0 {
      assert order[..n] == [];
    }
  }

  lemma ExpiredIsNotLive(vals: seq<string>, items: Items, user: string, now: int, expired: seq<string>)
    requires forall x :: x in expired <==> x in vals && !Live(items, user, x, now)
    ensures IdSet(vals) - IdSet(expired) == LiveIds(vals, items, user, now)
    ensures IdSet(expired) == IdSet(vals) - LiveIds(vals, items, user, now)
  {
  }

  lemma BatchMore(order: seq<string>, items: Items, batch: seq<Item>, i: nat)
    requires i < |batch|
    ensures PushedAll(order, IdsOf(batch[..i + 1])) == Pushed(PushedAll(order, IdsOf(batch[..i])), batch[i].id)
    ensures Stored(items, batch[..i + 1]) == Stored(items, batch[..i])[Key(batch[i].user, batch[i].id) := batch[i]]
  {
    PushedAllMore(order, IdsOf(batch[..i]), batch[i].id);
    StoredMore(items, batch[..i], batch[i]);
    assert batch[..i + 1] == batch[..i] + [batch[i]];
    assert IdsOf(batch[..i + 1]) == IdsOf(batch[..i]) + [batch[i].id];
  }

  // ---------- listing ----------

  predicate Matches(it: Item, opts: ListOptions, now: int) {
    && (opts.includeExpired || !it.IsExpired(now))
    && (opts.since.Some? ==> it.created.Some? && it.created.value >= opts.since.value)
    && (opts.until.Some? ==> it.created.None? || it.created.value <= opts.until.value)
  }

  /** The stored items of `order` that match, in order. */
  function Matching(order: seq<string>, items: Items, user: string, opts: ListOptions, now: int): seq<Item> {
    if order == [] then []
    else
      var rest := Matching(order[1..], items, user, opts, now);
      var key := Key(user, order[0]);
      if key in items && Matches(items[key], opts, now) then [items[key]] + rest else rest
  }

  function Newest(s: seq<Item>, limit: int): seq<Item> {
    if limit > 0 && |s| > limit then s[|s| - limit..] else s
  }

  /** `out` is the end of `all`, cut to a limit that is positive. */
  ghost predicate EndOf(out: seq<Item>, all: seq<Item>, limit: int) {
    |out| == (if 0 < limit < |all| then limit else |all|) && out == all[|all| - |out|..]
  }

  lemma {:induction false} MatchingMore(order: seq<string>, id: string, items: Items, user: string, opts: ListOptions, now: int)
    ensures Matching(order + [id], items, user, opts, now) ==
              Matching(order, items, user, opts, now)
              + if Key(user, id) in items && Matches(items[Key(user, id)], opts, now) then [items[Key(user, id)]] else []
    decreases |order|
  {
    if order == [] {
      assert (order + [id])[1..] == [];
    } else {
      MatchingMore(order[1..], id, items, user, opts, now);
      assert (order + [id])[1..] == order[1..] + [id];
    }
  }

  function MatchingIds(order: seq<string>, items: Items, user: string, opts: ListOptions, now: int): set<string> {
    set id | id in order && Key(user, id) in items && Matches(items[Key(user, id)], opts, now)
  }

  /** Created neither before `since` nor after `until`. */
  predicate InWindow(created: Option<int>, since: Option<int>, until: Option<int>) {
    && (since.Some? ==> created.Some? && since.value <= created.value)
    && (until.Some? && created.Some? ==> created.value <= until.value)
  }

  lemma MatchingIdsAre(order: seq<string>, items: Items, user: string, opts: ListOptions, now: int)
    requires NoneExpired(order, items, user, now)
    ensures forall id :: id in MatchingIds(order, items, user, opts, now) <==>
              && id in order && Key(user, id) in items
              && InWindow(items[Key(user, id)].created, opts.since, opts.until)
  {
  }

  /** A listing before its cut: the ids are those of the order whose items match, in
      the order's order, and each item is the one stored under its id. */
  lemma {:induction false} ListedInOrder(order: seq<string>, items: Items, user: string, opts: ListOptions, now: int)
    requires Keyed(items)
    ensures var listed := Matching(order, items, user, opts, now);
            && IdsOf(listed) == Select(order, MatchingIds(order, items, user, opts, now))
            && forall it :: it in listed ==> Key(user, it.id) in items && items[Key(user, it.id)] == it
    decreases |order|
  {
    if order != [] {
      var rest := order[1..];
      ListedInOrder(rest, items, user, opts, now);
      SelectSame(rest, MatchingIds(rest, items, user, opts, now), MatchingIds(order, items, user, opts, now));
      var key := Key(user, order[0]);
      if key in items && Matches(items[key], opts, now) {
        var tail := Matching(rest, items, user, opts, now);
        assert IdsOf([items[key]] + tail) == [order[0]] + IdsOf(tail);
      }
    }
  }

  lemma {:induction false} SelectSame(s: seq<string>, a: set<string>, b: set<string>)
    requires forall x :: x in s ==> (x in a <==> x in b)
    ensures Select(s, a) == Select(s, b)
    decreases |s|
  {
    if s != [] {
      SelectSame(s[1..], a, b);
    }
  }

  /** `all` are the stored items of `order` that were created in the window, in this order. */
  ghost predicate Lists(all: seq<Item>, order: seq<string>, items: Items, user: string, since: Option<int>, until: Option<int>) {
    && (forall it :: it in all ==> Key(user, it.id) in items && items[Key(user, it.id)] == it)
    && exists ids: set<string> ::
         && IdsOf(all) == Select(order, ids)
         && forall id :: id in ids <==>
              id in order && Key(user, id) in items && InWindow(items[Key(user, id)].created, since, until)
  }

  /** After a cleanup a listing has all of these before its cut. */
  lemma ListedExactly(order: seq<string>, items: Items, user: string, opts: ListOptions, now: int)
    requires Keyed(items) && NoneExpired(order, items, user, now)
    ensures Lists(Matching(order, items, user, opts, now), order, items, user, opts.since, opts.until)
  {
    ListedInOrder(order, items, user, opts, now);
    MatchingIdsAre(order, items, user, opts, now);
  }

  /** With nothing expired in the order, the option to include expired items changes nothing. */
  lemma {:induction false} ExpiredOptionMoot(order: seq<string>, items: Items, user: string, opts: ListOptions, now: int)
    requires forall id :: id in order && Key(user, id) in items ==> !items[Key(user, id)].IsExpired(now)
    ensures Matching(order, items, user, opts.(includeExpired := true), now)
         == Matching(order, items, user, opts.(includeExpired := false), now)
    decreases |order|
  {
    if order != [] {
      ExpiredOptionMoot(order[1..], items, user, opts, now);
    }
  }

  /** Hence a listing, which cleans up first, answers the same with it as without. */
  lemma ListIgnoresExpiredOption(order: seq<string>, items: Items, user: string, opts: ListOptions, now: int)
    ensures var order' := CleanOrder(order, items, user, now);
            var items' := CleanItems(order, items, user, now);
            Newest(Matching(order', items', user, opts.(includeExpired := true), now), opts.limit)
            == Newest(Matching(order', items', user, opts.(includeExpired := false), now), opts.limit)
  {
    ExpiredOptionMoot(CleanOrder(order, items, user, now), CleanItems(order, items, user, now), user, opts, now);
  }

  // ---------- the store and the memory ----------

  /** A store that behaves like a map; whether an Add fails is up to its caller's environment. */
  class MapStore {
    var items: Items

    ghost predicate Valid()
      reads this
    {
      Keyed(items)
    }

    constructor ()
      ensures Valid() && items == map[]
    {
      items := map[];
    }

    method Add(it: Item, fails: bool) returns (ok: bool)
      requires Valid()
      modifies this
      ensures Valid() && ok == !fails
      ensures items == if fails then old(items) else old(items)[Key(it.user, it.id) := it]
    {
      if fails {
        return false;
      }
      items := items[Key(it.user, it.id) := it];
      ok := true;
    }

    function Get(user: string, id: string): Option<Item>
      reads this
    {
      if Key(user, id) in items then Some(items[Key(user, id)]) else None
    }

    method Delete(user: string, id: string) returns (ok: bool)
      requires Valid()
      modifies this
      ensures Valid() && ok == (Key(user, id) in old(items))
      ensures items == WithoutKeys(old(items), user, {id})
    {
      ok := Key(user, id) in items;
      items := WithoutKeys(items, user, {id});
    }

    method Clear(user: string)
      requires Valid()
      modifies this
      ensures Valid()
      ensures items == map k | k in old(items) && k.user != user :: old(items)[k]
    {
      items := map k | k in items && k.user != user :: items[k];
    }
  }

  class ShortTermMemory {
    const userID: string
    const sessionID: string
    const ttl: int
    const capacity: int
    const store: MapStore
    const order: IdRing
    /** The id given to an item without one: a hash of its memory and user. */
    const generateID: (Memory, string) -> string

    ghost predicate Valid()
      reads order, order.buf, store
    {
      order.Valid() && store.Valid() && forall m, u :: generateID(m, u) != ""
    }

    /** The store never holds an id of this user that the ring does not know. */
    ghost predicate InCover()
      reads order, store
    {
      Covered(order.order, store.items, userID)
    }

    constructor (userID: string, sessionID: string, ttl: int, capacity: int, store: MapStore,
                 generateID: (Memory, string) -> string)
      requires store.Valid() && forall m, u :: generateID(m, u) != ""
      ensures Valid() && fresh(order) && fresh(order.buf) && order.order == [] && this.store == store
      ensures this.userID == userID && this.sessionID == sessionID && this.ttl == ttl && this.capacity == capacity
      ensures this.generateID == generateID
    {
      this.userID, this.sessionID, this.ttl, this.capacity, this.store := userID, sessionID, ttl, capacity, store;
      this.generateID := generateID;
      order := new IdRing(capacity);
    }

    function Prepared(item: Item, now: int): (it: Item)
      requires item.id == "" ==> item.memory.Some?
      reads {}
    {
      Item(
        if item.id == "" then generateID(item.memory.value, item.user) else item.id,
        item.user,
        if item.memory.None? then None
        else Some(item.memory.value.(metadata := item.memory.value.metadata["session_id" := sessionID])),
        if item.created.None? then Some(now) else item.created,
        now,
        if item.expires.None? && ttl > 0 then Some(now + ttl) else item.expires)
    }

    function PreparedAll(items: seq<Item>, now: int): (batch: seq<Item>)
      requires forall it :: it in items && it.id == "" ==> it.memory.Some?
      ensures |batch| == |items|
    {
      seq(|items|, i requires 0 <= i < |items| => Prepared(items[i], now))
    }

    /** Collects the ids that are missing from the store or expired. */
    method Expired(vals: seq<string>, now: int) returns (expired: seq<string>)
      ensures forall x :: x in expired <==> x in vals && !Live(store.items, userID, x, now)
    {
      expired := [];
      var i := 0;
      while i < |vals|
        invariant 0 <= i <= |vals|
        invariant forall x :: x in expired <==> x in vals[..i] && !Live(store.items, userID, x, now)
      {
        var item := store.Get(userID, vals[i]);
        if item.None? || item.value.IsExpired(now) {
          expired := expired + [vals[i]];
        }
        i := i + 1;
      }
      assert vals[..|vals|] == vals;
    }

    method DropOne(id: string)
      requires order.Valid() && store.Valid()
      modifies order, order.buf, store
      ensures order.Valid() && store.Valid() && (order.buf == old(order.buf) || fresh(order.buf))
      ensures order.order == Without(old(order.order), id)
      ensures store.items == WithoutKeys(old(store.items), userID, {id})
    {
      var _ := store.Delete(userID, id);
      var _ := order.Remove(id);
    }

    ghost predicate Dropped(was: seq<string>, items: Items, drop: seq<string>, i: nat)
      reads order, store
      requires i <= |drop|
    {
      order.order == DroppedOrder(was, drop[..i]) && store.items == DroppedItems(items, userID, drop[..i])
    }

    method DropNext(drop: seq<string>, i: nat, ghost was: seq<string>, ghost items: Items)
      requires order.Valid() && store.Valid() && i < |drop| && Dropped(was, items, drop, i)
      modifies order, order.buf, store
      ensures order.Valid() && store.Valid() && (order.buf == old(order.buf) || fresh(order.buf))
      ensures Dropped(was, items, drop, i + 1)
    {
      DroppedMore(was, items, userID, drop, i);
      DropOne(drop[i]);
    }

    /** Deletes each of `drop` from the store and removes it from the ring. */
    method DropAll(drop: seq<string>)
      requires order.Valid() && store.Valid()
      modifies order, order.buf, store
      ensures order.Valid() && store.Valid() && (order.buf == old(order.buf) || fresh(order.buf))
      ensures order.order == Select(old(order.order), IdSet(old(order.order)) - IdSet(drop))
      ensures store.items == WithoutKeys(old(store.items), userID, IdSet(drop))
    {
      ghost var vals, items := order.order, store.items;
      var i := 0;
      while i < |drop|
        invariant 0 <= i <= |drop| && order.Valid() && store.Valid() && (order.buf == old(order.buf) || fresh(order.buf))
        invariant Dropped(vals, items, drop, i)
      {
        DropNext(drop, i, vals, items);
        i := i + 1;
      }
      AllDropped(vals, items, userID, drop, i);
    }

    method CleanupExpired(now: int)
      requires order.Valid() && store.Valid()
      modifies order, order.buf, store
      ensures order.Valid() && store.Valid() && (order.buf == old(order.buf) || fresh(order.buf))
      ensures order.order == CleanOrder(old(order.order), old(store.items), userID, now)
      ensures store.items == CleanItems(old(order.order), old(store.items), userID, now)
      ensures old(InCover()) ==> InStep(order.order, store.items, userID)
      ensures NoneExpired(order.order, store.items, userID, now)
      ensures OthersKept(old(store.items), store.items, userID) && NothingNew(old(store.items), store.items)
    {
      CleanKeeps(order.order, store.items, userID, now);
      if Covered(order.order, store.items, userID) {
        CleanupRestores(order.order, store.items, userID, now);
      }
      var vals := order.Values();
      var expired := Expired(vals, now);
      ExpiredIsNotLive(vals, store.items, userID, now, expired);
      DropAll(expired);
    }

    method DropOldest() returns (ok: bool)
      requires order.Valid() && store.Valid()
      modifies order, order.buf, store
      ensures order.Valid() && store.Valid() && order.buf == old(order.buf) && ok == (old(order.order) != [])
      ensures ok ==> order.order == old(order.order)[1..]
      ensures ok ==> store.items == WithoutKeys(old(store.items), userID, {old(order.order)[0]})
    {
      var oldestID;
      oldestID, ok := order.PopFront();
      if ok {
        var _ := store.Delete(userID, oldestID);
      }
    }

    method Trim()
      requires order.Valid() && store.Valid()
      modifies order, order.buf, store
      ensures order.Valid() && store.Valid() && order.buf == old(order.buf)
      ensures order.order == TrimOrder(old(order.order), capacity)
      ensures store.items == TrimItems(old(order.order), old(store.items), userID, capacity)
      ensures OthersKept(old(store.items), store.items, userID) && NothingNew(old(store.items), store.items)
      ensures capacity > 0 ==> |order.order| == if |old(order.order)| <= capacity then |old(order.order)| else capacity
      ensures order.order == old(order.order)[|old(order.order)| - |order.order|..]
    {
      if capacity <= 0 {
        return;
      }
      ghost var was, items := order.order, store.items;
      ghost var n := 0;
      while order.size > capacity
        invariant order.Valid() && store.Valid() && order.buf == old(order.buf)
        invariant 0 <= n <= |was| && order.order == was[n..] && (n > 0 ==> |was| - n >= capacity)
        invariant store.items == DroppedItems(items, userID, was[..n])
        decreases order.size
      {
        DroppedMore(was, items, userID, was, n);
        var ok := DropOldest();
        if !ok {
          break;
        }
        n := n + 1;
      }
      TrimDone(was, items, userID, capacity, n);
    }

    /** One turn of the batch loop: the id is pushed before the item is stored. */
    method AddOne(it: Item, fails: bool) returns (ok: bool)
      requires order.Valid() && store.Valid()
      modifies order, order.buf, store
      ensures order.Valid() && store.Valid() && (order.buf == old(order.buf) || fresh(order.buf))
      ensures ok == !fails && order.order == Pushed(old(order.order), it.id)
      ensures store.items == if fails then old(store.items) else old(store.items)[Key(it.user, it.id) := it]
    {
      if !order.Contains(it.id) {
        order.PushBack(it.id);
      }
      ok := store.Add(it, fails);
    }

    /** The batch loop: up to the item, if any, at which the store fails. */
    method AddBatch(items: seq<Item>, now: int, failAt: nat) returns (ok: bool)
      requires order.Valid() && store.Valid() && forall it :: it in items && it.id == "" ==> it.memory.Some?
      modifies order, order.buf, store
      ensures order.Valid() && store.Valid() && (order.buf == old(order.buf) || fresh(order.buf)) && ok == (failAt >= |items|)
      ensures var batch := PreparedAll(items, now);
              if ok then
                store.items == Stored(old(store.items), batch) && order.order == PushedAll(old(order.order), IdsOf(batch))
              else
                && store.items == Stored(old(store.items), batch[..failAt])
                && order.order == PushedAll(old(order.order), IdsOf(batch[..failAt + 1]))
    {
      ghost var order0, items0 := order.order, store.items;
      ghost var batch := PreparedAll(items, now);
      var i := 0;
      while i < |items|
        invariant 0 <= i <= |items| && i <= failAt && order.Valid() && store.Valid() && (order.buf == old(order.buf) || fresh(order.buf))
        invariant order.order == PushedAll(order0, IdsOf(batch[..i]))
        invariant store.items == Stored(items0, batch[..i])
      {
        BatchMore(order0, items0, batch, i);
        var it := Prepared(items[i], now);
        assert it == batch[i];
        ok := AddOne(it, i == failAt);
        if !ok {
          return;
        }
        i := i + 1;
      }
      assert batch[..i] == batch;
      ok := true;
    }

    lemma PreparedOwn(items: seq<Item>, now: int)
      requires forall m, u :: generateID(m, u) != ""
      requires forall it :: it in items && it.id == "" ==> it.memory.Some?
      ensures forall it :: it in PreparedAll(items, now) ==> it.id != ""
      ensures (forall it :: it in items ==> it.user == userID) ==> forall it :: it in PreparedAll(items, now) ==> it.user == userID
    {
      forall it | it in PreparedAll(items, now)
        ensures it.id != "" && exists i :: 0 <= i < |items| && items[i].user == it.user
      {
        var i :| 0 <= i < |items| && PreparedAll(items, now)[i] == it;
        assert items[i].user == it.user && items[i] in items;
      }
    }

    /** An Add that fails trims nothing, and has already pushed the id of the item it fails at. */
    lemma FailedAdd(items: seq<Item>, now: int, failAt: nat, was: seq<string>, stored: Items)
      requires (forall m, u :: generateID(m, u) != "") && forall it :: it in items && it.id == "" ==> it.memory.Some?
      requires failAt < |items|
      ensures var (order', items') := Added(was, stored, userID, now, PreparedAll(items, now), capacity, failAt);
              CleanOrder(was, stored, userID, now) <= order' && IdGiven(this, items[failAt]) in order'
    {
      var order0, ids := CleanOrder(was, stored, userID, now), IdsOf(PreparedAll(items, now)[..failAt + 1]);
      PreparedOwn(items, now);
      PushedAllGrows(order0, ids);
      PushedAllContains(order0, ids);
      assert items[failAt] in items;
      assert ids[failAt] == IdGiven(this, items[failAt]) && ids[failAt] in IdSet(ids);
      assert ids[failAt] in IdSet(PushedAll(order0, ids));
    }

    /** `failAt` says at which item of the batch the store fails; beyond the batch, nowhere. */
    method Add(items: seq<Item>, now: int, failAt: nat) returns (err: Option<MemoryError>)
      requires Valid() && forall it :: it in items && it.id == "" ==> it.memory.Some?
      modifies order, order.buf, store
      ensures Valid() && (order.buf == old(order.buf) || fresh(order.buf))
      ensures err == if failAt < |items| then Some(StoreFailed) else None
      ensures (order.order, store.items)
              == Added(old(order.order), old(store.items), userID, now, PreparedAll(items, now), capacity, failAt)
      ensures err.Some? ==>
                && CleanOrder(old(order.order), old(store.items), userID, now) <= order.order
                && IdGiven(this, items[failAt]) in order.order
      ensures old(InCover()) ==> InCover()
      ensures old(InCover()) && err.None? && (forall it :: it in items ==> it.user == userID) ==>
                InStep(order.order, store.items, userID)
    {
      ghost var batch := PreparedAll(items, now);
      PreparedOwn(items, now);
      if failAt < |items| {
        FailedAdd(items, now, failAt, order.order, store.items);
      }
      if Covered(order.order, store.items, userID) {
        AddedCovered(order.order, store.items, userID, now, batch, capacity, failAt);
      }
      CleanupExpired(now);
      var ok := AddBatch(items, now, failAt);
      if !ok {
        return Some(StoreFailed);
      }
      Trim();
      err := None;
    }

    method Get(id: string, now: int) returns (r: Option<Item>, err: Option<MemoryError>)
      requires Valid()
      modifies order, order.buf, store
      ensures Valid() && (order.buf == old(order.buf) || fresh(order.buf))
      ensures id == "" ==> err == Some(InvalidID) && order.order == old(order.order) && store.items == old(store.items)
      ensures id != "" ==>
                && order.order == CleanOrder(old(order.order), old(store.items), userID, now)
                && store.items == CleanItems(old(order.order), old(store.items), userID, now)
                && r == store.Get(userID, id) && err == if r.None? then Some(NotFound) else None
      ensures id != "" && old(InCover()) ==> InStep(order.order, store.items, userID)
      ensures OthersKept(old(store.items), store.items, userID) && NothingNew(old(store.items), store.items)
      ensures id != "" && old(InCover()) ==> (r.Some? <==> id in old(order.order) && Live(old(store.items), userID, id, now))
    {
      if id == "" {
        return None, Some(InvalidID);
      }
      CleanupExpired(now);
      r := store.Get(userID, id);
      err := if r.None? then Some(NotFound) else None;
      ghost var was, items := old(order.order), old(store.items);
      if Covered(was, items, userID) {
        CleanupRestores(was, items, userID, now);
        OwnIdsIff(store.items, userID, id);
      }
    }

    method Collect(vals: seq<string>, opts: ListOptions, now: int) returns (out: seq<Item>)
      ensures out == Matching(vals, store.items, userID, opts, now)
    {
      out := [];
      var i := 0;
      while i < |vals|
        invariant 0 <= i <= |vals| && out == Matching(vals[..i], store.items, userID, opts, now)
      {
        MatchingMore(vals[..i], vals[i], store.items, userID, opts, now);
        assert vals[..i + 1] == vals[..i] + [vals[i]];
        var item := store.Get(userID, vals[i]);
        if item.Some? && Matches(item.value, opts, now) {
          out := out + [item.value];
        }
        i := i + 1;
      }
      assert vals[..|vals|] == vals;
    }

    method CollectAll(opts: ListOptions, now: int) returns (out: seq<Item>)
      requires order.Valid() && store.Valid() && NoneExpired(order.order, store.items, userID, now)
      ensures out == Matching(order.order, store.items, userID, opts, now)
      ensures Lists(out, order.order, store.items, userID, opts.since, opts.until)
    {
      ListedExactly(order.order, store.items, userID, opts, now);
      var vals := order.Values();
      out := Collect(vals, opts, now);
    }

    method Cut(all: seq<Item>, limit: int) returns (out: seq<Item>)
      ensures out == Newest(all, limit) && EndOf(out, all, limit)
    {
      out := all;
      if limit > 0 && |out| > limit {
        out := out[|out| - limit..];
      }
    }

    method List(opts: ListOptions, now: int) returns (out: seq<Item>)
      requires Valid()
      modifies order, order.buf, store
      ensures Valid() && (order.buf == old(order.buf) || fresh(order.buf))
      ensures order.order == CleanOrder(old(order.order), old(store.items), userID, now)
      ensures store.items == CleanItems(old(order.order), old(store.items), userID, now)
      ensures out == Newest(Matching(order.order, store.items, userID, opts, now), opts.limit)
      ensures EndOf(out, Matching(order.order, store.items, userID, opts, now), opts.limit)
      ensures Lists(Matching(order.order, store.items, userID, opts, now), order.order, store.items, userID, opts.since, opts.until)
      ensures old(InCover()) ==> InStep(order.order, store.items, userID)
      ensures OthersKept(old(store.items), store.items, userID) && NothingNew(old(store.items), store.items)
    {
      CleanupExpired(now);
      var all := CollectAll(opts, now);
      out := Cut(all, opts.limit);
    }

    method Delete(id: string) returns (err: Option<MemoryError>)
      requires Valid()
      modifies order, order.buf, store
      ensures Valid() && (order.buf == old(order.buf) || fresh(order.buf))
      ensures err == if id == "" then Some(InvalidID) else if Key(userID, id) !in old(store.items) then Some(NotFound) else None
      ensures err.Some? ==> order.order == old(order.order) && store.items == old(store.items)
      ensures err.None? ==>
                && order.order == Without(old(order.order), id)
                && store.items == WithoutKeys(old(store.items), userID, {id})
      ensures old(InCover()) ==> InCover()
      ensures err.None? ==> store.items.Keys == old(store.items).Keys - {Key(userID, id)} && NothingNew(old(store.items), store.items)
    {
      if id == "" {
        return Some(InvalidID);
      }
      ghost var items := store.items;
      var ok := store.Delete(userID, id);
      if !ok {
        assert store.items == items;
        return Some(NotFound);
      }
      var _ := order.Remove(id);
      WithoutKeysOwn(items, userID, {id});
      WithoutOne(items, userID, id);
      err := None;
    }

    method Clear()
      requires Valid()
      modifies order, order.buf, store
      ensures Valid() && (order.buf == old(order.buf) || fresh(order.buf))
      ensures order.order == [] && InStep(order.order, store.items, userID)
      ensures store.items == map k | k in old(store.items) && k.user != userID :: old(store.items)[k]
    {
      store.Clear(userID);
      order.Reset();
    }
  }

  /** The source's constructor function: a memory needs a session and a store. */
  method NewShortTermMemory(userID: string, sessionID: string, ttl: int, capacity: int, store: MapStore?,
                            generateID: (Memory, string) -> string)
    returns (m: ShortTermMemory?, err: Option<MemoryError>)
    requires (store != null ==> store.Valid()) && forall m, u :: generateID(m, u) != ""
    ensures err == if sessionID == "" then Some(InvalidSessionID) else if store == null then Some(StoreManagerNil) else None
    ensures m == null <==> err.Some?
    ensures m != null ==>
              && m.Valid() && fresh(m) && fresh(m.order) && fresh(m.order.buf) && m.order.order == []
              && m.store == store && m.userID == userID && m.sessionID == sessionID && m.ttl == ttl && m.capacity == capacity
  {
    if sessionID == "" {
      return null, Some(InvalidSessionID);
    }
    if store == null {
      return null, Some(StoreManagerNil);
    }
    m := new ShortTermMemory(userID, sessionID, ttl, capacity, store, generateID);
    err := None;
  }

  // ---------- what is added is found again ----------

  /** The id an item is kept under. */
  function IdGiven(m: ShortTermMemory, item: Item): string
    requires item.id == "" ==> item.memory.Some?
  {
    if item.id == "" then m.generateID(item.memory.value, item.user) else item.id
  }

  lemma {:induction false} StoredLast(items: Items, batch: seq<Item>, i: nat)
    requires i < |batch| && forall j :: i < j < |batch| ==> batch[j].user != batch[i].user || batch[j].id != batch[i].id
    ensures Key(batch[i].user, batch[i].id) in Stored(items, batch)
    ensures Stored(items, batch)[Key(batch[i].user, batch[i].id)] == batch[i]
    decreases |batch|
  {
    var n := |batch| - 1;
    assert batch == batch[..n] + [batch[n]];
    StoredMore(items, batch[..n], batch[n]);
    if i < n {
      StoredLast(items, batch[..n], i);
    }
  }

  lemma {:induction false} PushedAllGrows(order: seq<string>, ids: seq<string>)
    ensures order <= PushedAll(order, ids) && |PushedAll(order, ids)| <= |order| + |ids|
    decreases |ids|
  {
    if ids != [] {
      PushedAllGrows(Pushed(order, ids[0]), ids[1..]);
    }
  }

  /** A trim takes from both, or from neither. */
  lemma TrimmedAway(order: seq<string>, items: Items, user: string, capacity: int, id: string)
    requires Proper(order) && id in order && Key(user, id) in items
    ensures var items' := TrimItems(order, items, user, capacity);
            if id in TrimOrder(order, capacity) then Key(user, id) in items' && items'[Key(user, id)] == items[Key(user, id)]
            else Key(user, id) !in items'
    ensures capacity <= 0 || |order| <= capacity ==> id in TrimOrder(order, capacity)
    ensures capacity > 0 && id == order[|order| - 1] ==> id in TrimOrder(order, capacity)
  {
    if capacity > 0 && |order| > capacity {
      var n := |order| - capacity;
      assert order == order[..n] + order[n..];
      if id in order[n..] {
        var j :| n <= j < |order| && order[j] == id;
      }
    }
  }

  /** What a successful Add leaves of one item of its batch. */
  lemma AddedItem(order: seq<string>, items: Items, user: string, now: int, batch: seq<Item>, capacity: int, i: nat)
    requires Proper(order) && i < |batch| && batch[i].user == user && forall it :: it in batch ==> it.id != ""
    requires forall j :: i < j < |batch| ==> batch[j].user != user || batch[j].id != batch[i].id
    ensures var (order', items') := Added(order, items, user, now, batch, capacity, |batch|);
            var key := Key(user, batch[i].id);
            && (if key.id in order' then key in items' && items'[key] == batch[i] else key !in items')
            && (capacity <= 0 || |order| + |batch| <= capacity ==> key.id in order')
            && (i == |batch| - 1 && key.id !in order && (forall j :: 0 <= j < i ==> batch[j].id != key.id) ==> key.id in order')
  {
    var order0, items0 := CleanOrder(order, items, user, now), CleanItems(order, items, user, now);
    var ids := IdsOf(batch);
    var order1, items1 := PushedAll(order0, ids), Stored(items0, batch);
    SelectProper(order, LiveIds(order, items, user, now));
    SelectShorter(order, LiveIds(order, items, user, now));
    PushedAllProper(order0, ids);
    PushedAllContains(order0, ids);
    PushedAllGrows(order0, ids);
    assert ids[i] in IdSet(ids) && ids[i] in IdSet(order1);
    StoredLast(items0, batch, i);
    if i == |batch| - 1 && batch[i].id !in order && forall j :: 0 <= j < i ==> batch[j].id != batch[i].id {
      LastPushed(order0, ids);
    }
    TrimmedAway(order1, items1, user, capacity, batch[i].id);
  }

  lemma {:induction false} SelectShorter(s: seq<string>, keep: set<string>)
    ensures |Select(s, keep)| <= |s|
    decreases |s|
  {
    if s != [] {
      SelectShorter(s[1..], keep);
    }
  }

  /** A new id pushed last comes last. */
  lemma LastPushed(order: seq<string>, ids: seq<string>)
    requires ids != [] && "" !in ids && ids[|ids| - 1] !in order && ids[|ids| - 1] !in ids[..|ids| - 1]
    ensures var r := PushedAll(order, ids); r != [] && r[|r| - 1] == ids[|ids| - 1]
  {
    var n := |ids| - 1;
    assert ids == ids[..n] + [ids[n]];
    PushedAllMore(order, ids[..n], ids[n]);
    PushedAllContains(order, ids[..n]);
    assert ids[n] !in IdSet(order) + IdSet(ids[..n]) && ids[n] in ids;
    assert ids[n] !in IdSet(PushedAll(order, ids[..n]));
  }

  /** What a later cleanup leaves of an item that ring and store both hold, or neither. */
  lemma CleanedItem(order: seq<string>, items: Items, user: string, id: string, t: int)
    requires id in order <==> Key(user, id) in items
    ensures var key, items' := Key(user, id), CleanItems(order, items, user, t);
            && (key in items' <==> key in items && (items[key].expires.Some? ==> t <= items[key].expires.value))
            && (key in items' ==> items'[key] == items[key])
  {
  }

  /** `r` is what was given, with the session's tag and the two times. */
  ghost predicate AsGiven(m: ShortTermMemory, given: Item, now: int, r: Item)
    requires given.id == "" ==> given.memory.Some?
  {
    && r.id == (if given.id == "" then m.generateID(given.memory.value, given.user) else given.id)
    && r.user == given.user && r.updated == now
    && r.created == Some(if given.created.Some? then given.created.value else now)
    && r.memory.Some? == given.memory.Some?
    && (given.memory.Some? ==>
          && r.memory.value.content == given.memory.value.content && r.memory.value.topics == given.memory.value.topics
          && r.memory.value.metadata == given.memory.value.metadata["session_id" := m.sessionID])
  }

  lemma PreparedAsGiven(m: ShortTermMemory, items: seq<Item>, now: int, i: nat)
    requires i < |items| && forall it :: it in items && it.id == "" ==> it.memory.Some?
    ensures items[i] in items && AsGiven(m, items[i], now, m.PreparedAll(items, now)[i])
    ensures m.PreparedAll(items, now)[i].expires
            == if items[i].expires.Some? then items[i].expires else if m.ttl > 0 then Some(now + m.ttl) else None
  {
    assert m.PreparedAll(items, now)[i] == m.Prepared(items[i], now);
  }

  /** The batch loop's view of the same. */
  lemma AddedAsGiven(m: ShortTermMemory, items: seq<Item>, now: int, i: nat, order: seq<string>, stored: Items)
    requires (forall u, v :: m.generateID(u, v) != "") && forall it :: it in items && it.id == "" ==> it.memory.Some?
    requires Proper(order) && i < |items| && items[i].user == m.userID
    requires forall j :: i < j < |items| ==> items[j].user != m.userID || IdGiven(m, items[j]) != IdGiven(m, items[i])
    ensures var id, key := IdGiven(m, items[i]), Key(m.userID, IdGiven(m, items[i]));
            var (order', items') := Added(order, stored, m.userID, now, m.PreparedAll(items, now), m.capacity, |items|);
            && (if id in order' then key in items' && items'[key] == m.PreparedAll(items, now)[i] else key !in items')
            && (m.capacity <= 0 || |order| + |items| <= m.capacity ==> id in order')
            && (id !in order && i == |items| - 1 && (forall j :: 0 <= j < i ==> IdGiven(m, items[j]) != id) ==> id in order')
  {
    var batch := m.PreparedAll(items, now);
    m.PreparedOwn(items, now);
    forall j | 0 <= j < |items|
      ensures batch[j].id == IdGiven(m, items[j]) && batch[j].user == items[j].user
    {
      PreparedAsGiven(m, items, now, j);
    }
    AddedItem(order, stored, m.userID, now, batch, m.capacity, i);
  }

  /** Order and store after a successful Add at `now`, and the store after a cleanup at `t`. */
  ghost predicate Remembers(m: ShortTermMemory, given: Item, now: int, t: int, order: seq<string>, items: Items)
    requires given.id == "" ==> given.memory.Some?
  {
    var id, key, later := IdGiven(m, given), Key(m.userID, IdGiven(m, given)), CleanItems(order, items, m.userID, t);
    && id != ""
    && (key in later <==> && id in order
                          && (given.expires.Some? ==> t <= given.expires.value)
                          && (given.expires.None? && m.ttl > 0 ==> t <= now + m.ttl))
    && (key in later ==> AsGiven(m, given, now, later[key]))
  }

  lemma AddedRemembered(m: ShortTermMemory, items: seq<Item>, now: int, i: nat, t: int, order: seq<string>, stored: Items)
    requires (forall u, v :: m.generateID(u, v) != "") && forall it :: it in items && it.id == "" ==> it.memory.Some?
    requires Proper(order) && i < |items| && items[i].user == m.userID
    requires forall j :: i < j < |items| ==> items[j].user != m.userID || IdGiven(m, items[j]) != IdGiven(m, items[i])
    ensures var (order', items') := Added(order, stored, m.userID, now, m.PreparedAll(items, now), m.capacity, |items|);
            Remembers(m, items[i], now, t, order', items')
  {
    AddedAsGiven(m, items, now, i, order, stored);
    PreparedAsGiven(m, items, now, i);
    var (order', items') := Added(order, stored, m.userID, now, m.PreparedAll(items, now), m.capacity, |items|);
    CleanedItem(order', items', m.userID, IdGiven(m, items[i]), t);
  }

  /** The Add; `kept` says whether the item has outlived the trim. */
  method AddOwn(m: ShortTermMemory, items: seq<Item>, now: int, i: nat, ghost t: int) returns (kept: bool)
    requires m.Valid() && (forall it :: it in items && it.id == "" ==> it.memory.Some?)
    requires i < |items| && items[i].user == m.userID
    requires forall j :: i < j < |items| ==> items[j].user != m.userID || IdGiven(m, items[j]) != IdGiven(m, items[i])
    modifies m.order, m.order.buf, m.store
    ensures m.Valid() && (m.order.buf == old(m.order.buf) || fresh(m.order.buf))
    ensures kept <==> IdGiven(m, items[i]) in m.order.order
    ensures m.capacity <= 0 || |old(m.order.order)| + |items| <= m.capacity ==> kept
    ensures IdGiven(m, items[i]) !in old(m.order.order) && i == |items| - 1
            && (forall j :: 0 <= j < i ==> IdGiven(m, items[j]) != IdGiven(m, items[i]))
            ==> kept
    ensures Remembers(m, items[i], now, t, m.order.order, m.store.items)
  {
    AddedAsGiven(m, items, now, i, m.order.order, m.store.items);
    AddedRemembered(m, items, now, i, t, m.order.order, m.store.items);
    var err := m.Add(items, now, |items|);
    kept := m.order.Contains(IdGiven(m, items[i]));
  }

  /** Item `i` of a successful Add at `now`, one of the memory's own user: a Get of its id at `t` finds it, unless it
      was trimmed away, exactly until its time is over, and finds it with everything it was given. */
  method Recall(m: ShortTermMemory, items: seq<Item>, now: int, i: nat, t: int)
    returns (kept: bool, r: Option<Item>, err: Option<MemoryError>)
    requires m.Valid() && (forall it :: it in items && it.id == "" ==> it.memory.Some?)
    requires i < |items| && items[i].user == m.userID
    requires forall j :: i < j < |items| ==> items[j].user != m.userID || IdGiven(m, items[j]) != IdGiven(m, items[i])
    modifies m.order, m.order.buf, m.store
    ensures m.Valid()
    ensures m.capacity <= 0 || |old(m.order.order)| + |items| <= m.capacity ==> kept
    ensures IdGiven(m, items[i]) !in old(m.order.order) && i == |items| - 1
            && (forall j :: 0 <= j < i ==> IdGiven(m, items[j]) != IdGiven(m, items[i]))
            ==> kept
    ensures r.Some? <==> && kept
                         && (items[i].expires.Some? ==> t <= items[i].expires.value)
                         && (items[i].expires.None? && m.ttl > 0 ==> t <= now + m.ttl)
    ensures r.Some? ==> AsGiven(m, items[i], now, r.value)
    ensures err == if r.Some? then None else Some(NotFound)
  {
    kept := AddOwn(m, items, now, i, t);
    r, err := m.Get(IdGiven(m, items[i]), t);
  }
}
