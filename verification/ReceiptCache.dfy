/** The receipt cache: an object store with an index on the access time, kept at
    most MAX_ENTRIES large by a deletion cursor, against a plain recency list. */
module ReceiptCache {
  import opened Common

  const MAX_ENTRIES := 50

  datatype Entry<D> = Entry(data: D, accessedAt: int, cachedAt: int)
  type Store<D> = map<string, Entry<D>>

  // ── The order of the index ────────────────────────────────────────────────

  /** The place of a character in the order of UTF-16 code units, in which the characters
      beyond the basic plane, written with surrogates, come before the last ones within it. */
  function Place(c: char): int {
    var n := c as int;
    if n < 0xD800 then n else if n >= 0x1_0000 then n - 0x1_0000 + 0xD800 else n + 0x11_0000
  }

  /** The UTF-16 code units of a character. */
  function Units(c: char): seq<int> {
    var n := c as int;
    if n < 0x1_0000 then [n] else [0xD800 + (n - 0x1_0000) / 0x400, 0xDC00 + (n - 0x1_0000) % 0x400]
  }

  /** Places compare as the code units do: by the first that differs. */
  lemma PlaceIsUnitOrder(c: char, d: char)
    ensures Place(c) < Place(d) <==>
              Units(c)[0] < Units(d)[0] || (Units(c)[0] == Units(d)[0] && |Units(c)| == |Units(d)| == 2 && Units(c)[1] < Units(d)[1])
  {
    var m, n := c as int, d as int;
    if m >= 0x1_0000 && n >= 0x1_0000 {
      var x, y := m - 0x1_0000, n - 0x1_0000;
      assert x == 0x400 * (x / 0x400) + x % 0x400 && y == 0x400 * (y / 0x400) + y % 0x400;
    }
  }

  lemma PlaceInjective(c: char, d: char)
    ensures Place(c) == Place(d) <==> c == d
  {
  }

  /** Strings compare by their first differing character, a prefix being smaller. */
  predicate Before(a: string, b: string) {
    b != [] && (a == [] || Place(a[0]) < Place(b[0]) || (a[0] == b[0] && Before(a[1..], b[1..])))
  }

  /** `a` is a proper prefix of `b`, or smaller at the k-th character, the first that differs. */
  predicate SmallerAt(a: string, b: string, k: nat) {
    && k <= |a| && k < |b| && a[..k] == b[..k]
    && (k == |a| || Place(a[k]) < Place(b[k]))
  }

  lemma {:induction false} BeforeMeans(a: string, b: string)
    ensures Before(a, b) <==> exists k :: 0 <= k <= |a| && SmallerAt(a, b, k)
  {
    forall k | 0 < k <= |a| && SmallerAt(a, b, k) ensures b != [] && a[0] == b[0] {
      assert a[..k][0] == b[..k][0];
    }
    if b != [] && a != [] && a[0] == b[0] {
      BeforeMeans(a[1..], b[1..]);
      if Before(a[1..], b[1..]) {
        var k :| 0 <= k <= |a[1..]| && SmallerAt(a[1..], b[1..], k);
        assert a[..k + 1] == [a[0]] + a[1..][..k] && b[..k + 1] == [b[0]] + b[1..][..k];
        assert SmallerAt(a, b, k + 1);
      }
      if k :| 0 <= k <= |a| && SmallerAt(a, b, k) {
        assert k > 0 && a[1..][..k - 1] == a[..k][1..] && b[1..][..k - 1] == b[..k][1..];
        assert SmallerAt(a[1..], b[1..], k - 1);
      }
    } else if b != [] && Before(a, b) {
      assert a[..0] == b[..0] && SmallerAt(a, b, 0);
    }
  }

  lemma {:induction false} BeforeIsTotal(a: string, b: string)
    ensures a == b || Before(a, b) || Before(b, a)
  {
    if a != [] && b != [] {
      PlaceInjective(a[0], b[0]);
    }
    if a != [] && b != [] && a[0] == b[0] {
      BeforeIsTotal(a[1..], b[1..]);
      assert a == [a[0]] + a[1..] && b == [b[0]] + b[1..];
    }
  }

  lemma {:induction false} BeforeIsStrict(a: string, b: string, c: string)
    ensures !Before(a, a)
    ensures Before(a, b) && Before(b, c) ==> Before(a, c)
    decreases |a| + |b| + |c|
  {
    if a != [] {
      if b != [] && c != [] {
        BeforeIsStrict(a[1..], b[1..], c[1..]);
      } else {
        BeforeIsStrict(a[1..], [], []);
      }
    }
  }

  datatype Position = Position(time: int, id: string)

  /** The index key of a record: its access time, then its primary key. */
  predicate Less(p: Position, q: Position) {
    p.time < q.time || (p.time == q.time && Before(p.id, q.id))
  }

  lemma LessIsTotal(p: Position, q: Position)
    ensures p == q || Less(p, q) || Less(q, p)
  {
    BeforeIsTotal(p.id, q.id);
  }

  lemma LessIsStrict(p: Position, q: Position, r: Position)
    ensures !Less(p, p)
    ensures Less(p, q) && Less(q, r) ==> Less(p, r)
  {
    BeforeIsStrict(p.id, q.id, r.id);
  }

  function At<D>(store: Store<D>, id: string): Position
    requires id in store
  {
    Position(store[id].accessedAt, id)
  }

  // ── Eviction ──────────────────────────────────────────────────────────────

  ghost function Above<D>(store: Store<D>, id: string): set<string>
    requires id in store
  {
    set k | k in store && Less(At(store, id), At(store, k))
  }

  /** The records that fewer than 50 others come after in the index. */
  ghost function Newest<D>(store: Store<D>): Store<D> {
    map k | k in store && |Above(store, k)| < 50 :: store[k]
  }

  ghost predicate IsFirst<D>(store: Store<D>, from: Option<Position>, id: string) {
    && id in store
    && (from.Some? ==> Less(from.value, At(store, id)))
    && forall k :: k in store && k != id && (from.None? || Less(from.value, At(store, k))) ==> Less(At(store, id), At(store, k))
  }

  ghost predicate IsLast<D>(store: Store<D>, from: Option<Position>, id: string) {
    && id in store
    && (from.Some? ==> Less(At(store, id), from.value))
    && forall k :: k in store && k != id && (from.None? || Less(At(store, k), from.value)) ==> Less(At(store, k), At(store, id))
  }

  lemma SubsetSize<T>(a: set<T>, b: set<T>)
    requires a <= b
    ensures |a| <= |b|
  {
    assert b == a + (b - a);
  }

  /** Removing a lower part of the index so that MAX_ENTRIES remain leaves exactly the newest. */
  lemma UpperPartIsNewest<D>(store: Store<D>, kept: Store<D>)
    requires forall k :: k in kept ==> k in store && kept[k] == store[k]
    requires |kept| == MAX_ENTRIES
    requires forall r, k :: r in store && r !in kept && k in kept ==> Less(At(store, r), At(store, k))
    ensures kept == Newest(store)
  {
    forall k | k in store
      ensures k in kept <==> |Above(store, k)| < MAX_ENTRIES
    {
      if k in kept {
        forall j | j in Above(store, k) ensures j in kept.Keys - {k} {
          LessIsStrict(At(store, k), At(store, j), At(store, k));
        }
        SubsetSize(Above(store, k), kept.Keys - {k});
        assert |kept.Keys| == MAX_ENTRIES;
      } else {
        SubsetSize(kept.Keys, Above(store, k));
        assert |kept.Keys| == MAX_ENTRIES;
      }
    }
  }

  lemma SmallIsNewest<D>(store: Store<D>)
    requires |store| <= MAX_ENTRIES
    ensures Newest(store) == store
  {
    forall k | k in store ensures |Above(store, k)| < MAX_ENTRIES {
      LessIsStrict(At(store, k), At(store, k), At(store, k));
      SubsetSize(Above(store, k), store.Keys - {k});
      assert |store.Keys| == |store|;
    }
  }

  class Cache<D(==)> {
    var store: Store<D>

    constructor ()
      ensures store == map[]
    {
      store := map[];
    }

    /** The next record of an ascending cursor standing at `from`. */
    method Next(from: Option<Position>) returns (r: Option<string>)
      ensures r.Some? ==> IsFirst(store, from, r.value)
      ensures r.None? ==> forall k :: k in store ==> from.Some? && !Less(from.value, At(store, k))
    {
      var rest := store.Keys;
      r := None;
      while rest != {}
        invariant rest <= store.Keys
        invariant r.Some? ==> r.value in store && (from.Some? ==> Less(from.value, At(store, r.value)))
        invariant forall k :: k in store && k !in rest && (from.None? || Less(from.value, At(store, k))) ==>
                    r.Some? && (k == r.value || Less(At(store, r.value), At(store, k)))
        decreases rest
      {
        var k :| k in rest;
        rest := rest - {k};
        var best := r;
        if (from.None? || Less(from.value, At(store, k))) && (r.None? || Less(At(store, k), At(store, r.value))) {
          r := Some(k);
        }
        forall j | j in store && j !in rest && (from.None? || Less(from.value, At(store, j)))
          ensures r.Some? && (j == r.value || Less(At(store, r.value), At(store, j)))
        {
          if best.Some? {
            LessIsTotal(At(store, k), At(store, best.value));
            LessIsStrict(At(store, k), At(store, best.value), At(store, j));
          }
        }
      }
    }

    /** The next record of a descending cursor standing at `from`. */
    method Previous(from: Option<Position>) returns (r: Option<string>)
      ensures r.Some? ==> IsLast(store, from, r.value)
      ensures r.None? ==> forall k :: k in store ==> from.Some? && !Less(At(store, k), from.value)
    {
      var rest := store.Keys;
      r := None;
      while rest != {}
        invariant rest <= store.Keys
        invariant r.Some? ==> r.value in store && (from.Some? ==> Less(At(store, r.value), from.value))
        invariant forall k :: k in store && k !in rest && (from.None? || Less(At(store, k), from.value)) ==>
                    r.Some? && (k == r.value || Less(At(store, k), At(store, r.value)))
        decreases rest
      {
        var k :| k in rest;
        rest := rest - {k};
        var best := r;
        if (from.None? || Less(At(store, k), from.value)) && (r.None? || Less(At(store, r.value), At(store, k))) {
          r := Some(k);
        }
        forall j | j in store && j !in rest && (from.None? || Less(At(store, j), from.value))
          ensures r.Some? && (j == r.value || Less(At(store, j), At(store, r.value)))
        {
          if best.Some? {
            LessIsTotal(At(store, k), At(store, best.value));
            LessIsStrict(At(store, j), At(store, best.value), At(store, k));
          }
        }
      }
    }

    /** Deletes from the old end of the index until MAX_ENTRIES are left: from a store of
        any size and with any access times, exactly the newest records survive. */
    method EvictIfNeeded()
      modifies this
      ensures store == Newest(old(store))
      ensures |store| == Min(|old(store)|, 50)
    {
      hide Less;
      var count := |store|;
      if count <= MAX_ENTRIES {
        SmallIsNewest(store);
        return;
      }
      var toEvict := count - MAX_ENTRIES;
      var evicted := 0;
      var cursor := Next(None);
      ghost var was := store;
      while cursor.Some? && evicted < toEvict
        invariant 0 <= evicted <= toEvict && |store| == count - evicted
        invariant forall k :: k in store ==> k in was && store[k] == was[k]
        invariant forall r, k :: r in was && r !in store && k in store ==> Less(At(was, r), At(was, k))
        invariant cursor.Some? ==> cursor.value in store
        invariant cursor.Some? ==> forall k :: k in store && k != cursor.value ==> Less(At(store, cursor.value), At(store, k))
        invariant cursor.None? ==> store == map[]
        decreases toEvict - evicted
      {
        var position := At(store, cursor.value);
        ghost var full := store;
        store := store - {cursor.value};
        assert |full.Keys| == |full| && store.Keys == full.Keys - {cursor.value} && |store.Keys| == |store|;
        evicted := evicted + 1;
        var next := Next(Some(position));
        assert forall k :: k in store ==> Less(position, At(store, k));
        assert next.None? ==> store.Keys == {};
        cursor := next;
      }
      assert evicted == toEvict;
      UpperPartIsNewest(was, store);
    }

    method Get(id: string, now: int) returns (r: Option<(D, int)>)
      modifies this
      ensures r == Hit(old(store), id) && store == Touched(old(store), id, now)
    {
      if id !in store {
        return None;
      }
      var entry := store[id].(accessedAt := now);
      store := store[id := entry];
      return Some((entry.data, entry.cachedAt));
    }

    method Set(id: string, data: D, now: int)
      modifies this
      ensures store == Newest(old(store)[id := Entry(data, now, now)])
    {
      store := store[id := Entry(data, now, now)];
      EvictIfNeeded();
    }

    method Delete(id: string)
      modifies this
      ensures store == old(store) - {id}
    {
      store := store - {id};
    }

    method Clear()
      modifies this
      ensures store == map[]
    {
      store := map[];
    }

    method Size() returns (n: nat)
      ensures n == |store|
    {
      n := |store|;
    }

    /** All order ids, the most recently accessed first. */
    method Keys() returns (keys: seq<string>)
      ensures Descending(store, keys)
    {
      hide Less;
      keys := [];
      var cursor := Previous(None);
      ghost var left := store.Keys;
      while cursor.Some?
        invariant forall k :: k in left <==> k in store && k !in keys
        invariant forall i :: 0 <= i < |keys| ==> keys[i] in store
        invariant forall i, j :: 0 <= i < j < |keys| ==> Less(At(store, keys[j]), At(store, keys[i]))
        invariant forall i, k :: 0 <= i < |keys| && k in left ==> Less(At(store, k), At(store, keys[i]))
        invariant cursor.Some? ==> cursor.value in left
        invariant cursor.Some? ==> forall k :: k in left && k != cursor.value ==> Less(At(store, k), At(store, cursor.value))
        invariant cursor.None? ==> left == {}
        decreases left
      {
        var id := cursor.value;
        keys := keys + [id];
        left := left - {id};
        LessIsStrict(At(store, id), At(store, id), At(store, id));
        cursor := Previous(Some(At(store, id)));
        forall k | k in store ensures k in left <==> Less(At(store, k), At(store, id)) {
          if k in keys && k != id {
            LessIsStrict(At(store, k), At(store, id), At(store, k));
          }
        }
      }
    }
  }

  ghost predicate Descending<D>(store: Store<D>, keys: seq<string>) {
    && (forall k :: k in keys <==> k in store)
    && (forall i, j :: 0 <= i < j < |keys| ==> Less(At(store, keys[j]), At(store, keys[i])))
  }

  function Hit<D>(store: Store<D>, id: string): Option<(D, int)> {
    if id in store then Some((store[id].data, store[id].cachedAt)) else None
  }

  function Touched<D>(store: Store<D>, id: string, now: int): Store<D> {
    if id in store then store[id := store[id].(accessedAt := now)] else store
  }

  // ── The recency list the cache implements ─────────────────────────────────

  datatype Item<D> = Item(id: string, data: D, cachedAt: int)

  function Without<D>(list: seq<Item<D>>, id: string): seq<Item<D>> {
    if list == [] then []
    else (if list[0].id == id then [] else [list[0]]) + Without(list[1..], id)
  }

  function Find<D>(list: seq<Item<D>>, id: string): Option<Item<D>> {
    if list == [] then None else if list[0].id == id then Some(list[0]) else Find(list[1..], id)
  }

  /** An access moves the item to the front. */
  function Used<D>(list: seq<Item<D>>, id: string): seq<Item<D>> {
    match Find(list, id)
    case None => list
    case Some(item) => [item] + Without(list, id)
  }

  /** A new item goes to the front and the list is cut. */
  function Stored<D>(list: seq<Item<D>>, item: Item<D>): seq<Item<D>> {
    var longer := [item] + Without(list, item.id);
    if |longer| > 50 then longer[..50] else longer
  }

  ghost predicate Held<D>(store: Store<D>, item: Item<D>, last: int) {
    && item.id in store && store[item.id].data == item.data
    && store[item.id].cachedAt == item.cachedAt && store[item.id].accessedAt <= last
  }

  ghost predicate Sorted<D>(store: Store<D>, list: seq<Item<D>>, last: int) {
    && (forall i :: 0 <= i < |list| ==> Held(store, list[i], last))
    && forall i, j :: 0 <= i < j < |list| ==> store[list[j].id].accessedAt < store[list[i].id].accessedAt
  }

  /** The store holds exactly the listed items, accessed in the listed order, none after `last`. */
  ghost predicate Represents<D>(store: Store<D>, list: seq<Item<D>>, last: int) {
    Sorted(store, list, last) && forall k :: k in store ==> Find(list, k).Some?
  }

  lemma {:induction false} FindIndex<D>(list: seq<Item<D>>, id: string) returns (i: nat)
    requires Find(list, id).Some?
    ensures i < |list| && list[i] == Find(list, id).value && list[i].id == id
  {
    if list[0].id == id {
      i := 0;
    } else {
      var j := FindIndex(list[1..], id);
      i := j + 1;
    }
  }

  lemma {:induction false} FindPresent<D>(list: seq<Item<D>>, i: nat)
    requires i < |list|
    ensures Find(list, list[i].id).Some?
  {
    if i > 0 {
      FindPresent(list[1..], i - 1);
      assert list[1..][i - 1] == list[i];
    }
  }

  lemma {:induction false} NothingToRemove<D>(list: seq<Item<D>>, id: string)
    requires forall i :: 0 <= i < |list| ==> list[i].id != id
    ensures Without(list, id) == list
  {
    if list != [] {
      NothingToRemove(list[1..], id);
    }
  }

  /** Removing an id keeps the other items in order. */
  lemma {:induction false} WithoutRepresents<D>(store: Store<D>, list: seq<Item<D>>, last: int, id: string)
    requires Represents(store, list, last)
    ensures Represents(store - {id}, Without(list, id), last)
    ensures id !in store ==> Without(list, id) == list
  {
    WithoutSorted(store, list, last, id);
    if id !in store {
      NothingToRemove(list, id);
    }
    forall k | k in store - {id} ensures Find(Without(list, id), k).Some? {
      WithoutFind(list, id, k);
    }
  }

  lemma {:induction false} WithoutFind<D>(list: seq<Item<D>>, id: string, k: string)
    requires k != id
    ensures Find(Without(list, id), k) == Find(list, k)
  {
    if list != [] {
      WithoutFind(list[1..], id, k);
      if list[0].id != id {
        assert Without(list, id)[1..] == Without(list[1..], id);
      } else {
        assert Without(list, id) == Without(list[1..], id);
      }
    }
  }

  lemma {:induction false} WithoutMembers<D>(list: seq<Item<D>>, id: string)
    ensures forall x :: x in Without(list, id) ==> x in list && x.id != id
  {
    if list != [] {
      WithoutMembers(list[1..], id);
    }
  }

  lemma TailSorted<D>(store: Store<D>, list: seq<Item<D>>, last: int)
    requires Sorted(store, list, last) && list != []
    ensures Sorted(store, list[1..], last)
    ensures forall x :: x in list[1..] ==> x.id in store && store[x.id].accessedAt < store[list[0].id].accessedAt
  {
    var tail := list[1..];
    assert forall i :: 0 <= i < |tail| ==> tail[i] == list[i + 1];
  }

  lemma FrontSorted<D>(store: Store<D>, first: Item<D>, rest: seq<Item<D>>, last: int)
    requires Sorted(store, rest, last) && Held(store, first, last)
    requires forall x :: x in rest ==> x.id in store && store[x.id].accessedAt < store[first.id].accessedAt
    ensures Sorted(store, [first] + rest, last)
  {
  }

  lemma {:induction false} WithoutSorted<D>(store: Store<D>, list: seq<Item<D>>, last: int, id: string)
    requires Sorted(store, list, last)
    ensures Sorted(store - {id}, Without(list, id), last)
  {
    if list != [] {
      var rest := Without(list[1..], id);
      TailSorted(store, list, last);
      WithoutSorted(store, list[1..], last, id);
      WithoutMembers(list[1..], id);
      if list[0].id != id {
        FrontSorted(store - {id}, list[0], rest, last);
      } else {
        assert Without(list, id) == rest;
      }
    }
  }

  lemma FrontRepresents<D>(store: Store<D>, list: seq<Item<D>>, last: int, item: Item<D>, now: int)
    requires Represents(store, list, last) && last < now && item.id !in store
    ensures Represents(store[item.id := Entry(item.data, now, item.cachedAt)], [item] + list, now)
  {
    var longer := [item] + list;
    assert longer[1..] == list;
    assert forall i :: 1 <= i < |longer| ==> longer[i] == list[i - 1];
  }

  lemma HitAgrees<D>(store: Store<D>, list: seq<Item<D>>, last: int, id: string)
    requires Represents(store, list, last)
    ensures Hit(store, id) == match Find(list, id) case None => None case Some(item) => Some((item.data, item.cachedAt))
  {
    if Find(list, id).Some? {
      var i := FindIndex(list, id);
    }
  }

  lemma LaterRepresents<D>(store: Store<D>, list: seq<Item<D>>, last: int, now: int)
    requires Represents(store, list, last) && last <= now
    ensures Represents(store, list, now)
  {
  }

  lemma GetRefines<D>(store: Store<D>, list: seq<Item<D>>, last: int, id: string, now: int)
    requires Represents(store, list, last) && last < now
    ensures Represents(Touched(store, id, now), Used(list, id), now)
  {
    if Find(list, id).Some? {
      var i := FindIndex(list, id);
      assert Held(store, list[i], last);
      WithoutRepresents(store, list, last, id);
      FrontRepresents(store - {id}, Without(list, id), last, list[i], now);
      assert Touched(store, id, now) == (store - {id})[id := Entry(list[i].data, now, list[i].cachedAt)];
    } else {
      LaterRepresents(store, list, last, now);
    }
  }

  /** Cutting the list where the newest records end. */
  lemma CutRepresents<D>(store: Store<D>, list: seq<Item<D>>, last: int)
    requires Represents(store, list, last)
    ensures Represents(Newest(store), if |list| > MAX_ENTRIES then list[..MAX_ENTRIES] else list, last)
  {
    ListSize(store, list, last);
    if |list| <= MAX_ENTRIES {
      SmallIsNewest(store);
    } else {
      var cut := list[..MAX_ENTRIES];
      var kept := map k | k in store && Find(cut, k).Some? :: store[k];
      forall i | 0 <= i < |cut| ensures cut[i].id in kept {
        FindPresent(cut, i);
      }
      assert Represents(kept, cut, last);
      ListSize(kept, cut, last);
      forall r, k | r in store && r !in kept && k in kept ensures Less(At(store, r), At(store, k)) {
        var i := FindIndex(list, r);
        var j := FindIndex(cut, k);
        assert forall n :: 0 <= n < |cut| ==> cut[n] == list[n] && cut[n].id in kept;
        assert i >= MAX_ENTRIES;
        assert cut[j] == list[j];
      }
      UpperPartIsNewest(store, kept);
    }
  }

  lemma {:induction false} ListSize<D>(store: Store<D>, list: seq<Item<D>>, last: int)
    requires Represents(store, list, last)
    ensures |store| == |list|
  {
    assert |store| == |store.Keys|;
    if list == [] {
      assert forall k :: k in store ==> Find(list, k).Some?;
      assert store.Keys == {};
    } else {
      var front := list[..|list| - 1];
      var id := list[|list| - 1].id;
      var smaller := store - {id};
      assert forall i :: 0 <= i < |front| ==> front[i] == list[i] && front[i].id != id;
      forall k | k in smaller ensures Find(front, k).Some? {
        var i := FindIndex(list, k);
        assert front[i] == list[i];
        FindPresent(front, i);
      }
      ListSize(smaller, front, last);
      assert smaller.Keys == store.Keys - {id};
      assert |smaller| == |smaller.Keys|;
    }
  }

  lemma SetRefines<D>(store: Store<D>, list: seq<Item<D>>, last: int, id: string, data: D, now: int)
    requires Represents(store, list, last) && last < now
    ensures Represents(Newest(store[id := Entry(data, now, now)]), Stored(list, Item(id, data, now)), now)
  {
    var item := Item(id, data, now);
    WithoutRepresents(store, list, last, id);
    FrontRepresents(store - {id}, Without(list, id), last, item, now);
    assert store[id := Entry(data, now, now)] == (store - {id})[id := Entry(data, now, now)];
    CutRepresents(store[id := Entry(data, now, now)], [item] + Without(list, id), now);
  }

  function Ids<D>(list: seq<Item<D>>): seq<string> {
    seq(|list|, i requires 0 <= i < |list| => list[i].id)
  }

  lemma ListDescending<D>(store: Store<D>, list: seq<Item<D>>, last: int)
    requires Represents(store, list, last)
    ensures Descending(store, Ids(list))
  {
    forall k | k in store ensures k in Ids(list) {
      var i := FindIndex(list, k);
      assert Ids(list)[i] == k;
    }
  }

  lemma FirstIsGreatest<D>(store: Store<D>, a: seq<string>, b: seq<string>)
    requires Descending(store, a) && Descending(store, b) && a != []
    ensures b != [] && a[0] == b[0]
  {
    assert a[0] in b;
    var j :| 0 <= j < |b| && b[j] == a[0];
    assert b[0] in a;
    var i :| 0 <= i < |a| && a[i] == b[0];
    LessIsStrict(At(store, a[0]), At(store, b[0]), At(store, a[0]));
  }

  lemma RestDescending<D>(store: Store<D>, a: seq<string>)
    requires Descending(store, a) && a != []
    ensures Descending(store - {a[0]}, a[1..])
  {
    var rest := a[1..];
    LessIsStrict(At(store, a[0]), At(store, a[0]), At(store, a[0]));
    forall k | k in rest ensures k in store && k != a[0] {
      var j :| 0 <= j < |rest| && rest[j] == k;
      assert a[j + 1] == k;
    }
    forall k | k in store && k != a[0] ensures k in rest {
      var j :| 0 <= j < |a| && a[j] == k;
      assert rest[j - 1] == k;
    }
  }

  lemma NothingListed<D>(store: Store<D>, a: seq<string>)
    requires Descending(store, a)
    ensures a == [] <==> store == map[]
  {
    assert a != [] ==> a[0] in a;
    assert a == [] ==> store.Keys == {};
  }

  /** There is one descending listing of a store. */
  lemma {:induction false} DescendingUnique<D>(store: Store<D>, a: seq<string>, b: seq<string>)
    requires Descending(store, a) && Descending(store, b)
    ensures a == b
    decreases |a|
  {
    if a == [] {
      NothingListed(store, a);
      NothingListed(store, b);
    } else {
      FirstIsGreatest(store, a, b);
      RestDescending(store, a);
      RestDescending(store, b);
      DescendingUnique(store - {a[0]}, a[1..], b[1..]);
    }
  }

  // ── What the recency list is for ──────────────────────────────────────────

  lemma {:induction false} WithoutFinds<D>(list: seq<Item<D>>, id: string, k: string)
    ensures Find(Without(list, id), k) == if k == id then None else Find(list, k)
  {
    if list != [] {
      var rest := Without(list[1..], id);
      WithoutFinds(list[1..], id, k);
      assert [] + rest == rest && ([list[0]] + rest)[1..] == rest;
    }
  }

  lemma {:induction false} PrefixFinds<D>(list: seq<Item<D>>, n: nat, k: string)
    requires n <= |list|
    ensures Find(list[..n], k).None? || Find(list[..n], k) == Find(list, k)
  {
    if n > 0 {
      PrefixFinds(list[1..], n - 1, k);
      assert list[..n][1..] == list[1..][..n - 1];
    }
  }

  /** Lookups after one more operation: what was stored is found with its data and time until
      it is deleted, an access changes no answer, and storing can only make others miss, and
      only in a list of 50. */
  lemma LookupsAfter<D>(list: seq<Item<D>>, op: Op<D>, now: int, k: string)
    ensures var was, found := Answer(list, GetOp(k)), Answer(ListAfter(list, op, now), GetOp(k));
      match op
      case GetOp(_) => found == was
      case SetOp(id, data) => if k == id then found == Some((data, now)) else found == was || (found.None? && |list| >= 50)
      case DeleteOp(id) => found == if k == id then None else was
      case ClearOp => found.None?
  {
    match op
    case GetOp(id) =>
      WithoutFinds(list, id, k);
      FoundHasId(list, id);
      if Find(list, id).Some? {
        assert Used(list, id)[1..] == Without(list, id);
      }
    case SetOp(id, data) =>
      WithoutFinds(list, id, k);
      WithoutShortens(list, id);
      var longer := [Item(id, data, now)] + Without(list, id);
      assert longer[1..] == Without(list, id);
      if |longer| > 50 {
        PrefixFinds(longer, 50, k);
      }
    case DeleteOp(id) => WithoutFinds(list, id, k);
    case ClearOp =>
  }

  lemma {:induction false} FoundHasId<D>(list: seq<Item<D>>, id: string)
    ensures Find(list, id).Some? ==> Find(list, id).value.id == id
  {
    if list != [] && list[0].id != id {
      FoundHasId(list[1..], id);
    }
  }

  lemma {:induction false} WithoutShortens<D>(list: seq<Item<D>>, id: string)
    ensures |Without(list, id)| <= |list|
  {
    if list != [] {
      WithoutShortens(list[1..], id);
    }
  }

  /** The item used or stored last comes first and the others keep their order; storing keeps
      at most 50. */
  lemma FrontAfter<D>(list: seq<Item<D>>, op: Op<D>, now: int)
    ensures |ListAfter(list, op, now)| <= if op.SetOp? then 50 else |list| + 1
    ensures (op.GetOp? && Find(list, op.id).Some?) || op.SetOp? ==>
              var after := ListAfter(list, op, now);
              after != [] && after[0].id == op.id && after[1..] <= Without(list, op.id)
  {
    if !op.ClearOp? {
      WithoutShortens(list, op.id);
      FoundHasId(list, op.id);
    }
  }

  // ── Whole sequences of operations ─────────────────────────────────────────

  datatype Op<D> = GetOp(id: string) | SetOp(id: string, data: D) | DeleteOp(id: string) | ClearOp

  ghost function StoreAfter<D>(store: Store<D>, op: Op<D>, now: int): Store<D> {
    match op
    case GetOp(id) => Touched(store, id, now)
    case SetOp(id, data) => Newest(store[id := Entry(data, now, now)])
    case DeleteOp(id) => store - {id}
    case ClearOp => map[]
  }

  function ListAfter<D>(list: seq<Item<D>>, op: Op<D>, now: int): seq<Item<D>> {
    match op
    case GetOp(id) => Used(list, id)
    case SetOp(id, data) => Stored(list, Item(id, data, now))
    case DeleteOp(id) => Without(list, id)
    case ClearOp => []
  }

  ghost function StoreRun<D>(ops: seq<Op<D>>, times: seq<int>): Store<D>
    requires |ops| == |times|
  {
    if ops == [] then map[]
    else StoreAfter(StoreRun(ops[..|ops| - 1], times[..|times| - 1]), ops[|ops| - 1], times[|times| - 1])
  }

  function ListRun<D>(ops: seq<Op<D>>, times: seq<int>): seq<Item<D>>
    requires |ops| == |times|
  {
    if ops == [] then []
    else ListAfter(ListRun(ops[..|ops| - 1], times[..|times| - 1]), ops[|ops| - 1], times[|times| - 1])
  }

  /** From an empty cache and with a strictly increasing clock, after any sequence of
      operations the store is the recency list: same hits, same data, same `keys()`. */
  lemma {:induction false} RunRefines<D>(ops: seq<Op<D>>, times: seq<int>)
    requires |ops| == |times| && forall i, j :: 0 <= i < j < |times| ==> times[i] < times[j]
    ensures Represents(StoreRun(ops, times), ListRun(ops, times), if times == [] then 0 else times[|times| - 1])
  {
    if ops != [] {
      var ops', times' := ops[..|ops| - 1], times[..|times| - 1];
      var op, now := ops[|ops| - 1], times[|times| - 1];
      RunRefines(ops', times');
      var store, list := StoreRun(ops', times'), ListRun(ops', times');
      var last := if times' == [] then now - 1 else times'[|times'| - 1];
      assert Represents(store, list, last);
      match op
      case GetOp(id) => GetRefines(store, list, last, id, now);
      case SetOp(id, data) => SetRefines(store, list, last, id, data, now);
      case DeleteOp(id) => WithoutRepresents(store, list, last, id);
      case ClearOp =>
    }
  }

  lemma CacheIsRecencyList<D>(ops: seq<Op<D>>, times: seq<int>, id: string, keys: seq<string>)
    requires |ops| == |times| && forall i, j :: 0 <= i < j < |times| ==> times[i] < times[j]
    requires Descending(StoreRun(ops, times), keys)
    ensures Hit(StoreRun(ops, times), id)
         == match Find(ListRun(ops, times), id) case None => None case Some(item) => Some((item.data, item.cachedAt))
    ensures keys == Ids(ListRun(ops, times))
  {
    RunRefines(ops, times);
    var last := if times == [] then 0 else times[|times| - 1];
    HitAgrees(StoreRun(ops, times), ListRun(ops, times), last, id);
    ListDescending(StoreRun(ops, times), ListRun(ops, times), last);
    DescendingUnique(StoreRun(ops, times), keys, Ids(ListRun(ops, times)));
  }

  /** What a lookup in the recency list finds. */
  function Answer<D>(list: seq<Item<D>>, op: Op<D>): Option<(D, int)> {
    if !op.GetOp? then None else
    match Find(list, op.id) case None => None case Some(item) => Some((item.data, item.cachedAt))
  }

  /** One operation on a cache that represents a list: it answers as the list does and
      represents the list after the same operation. */
  method Perform<D(==)>(cache: Cache<D>, op: Op<D>, now: int, ghost list: seq<Item<D>>, ghost last: int)
    returns (answer: Option<(D, int)>)
    requires Represents(cache.store, list, last) && last < now
    modifies cache
    ensures Represents(cache.store, ListAfter(list, op, now), now) && answer == Answer(list, op)
  {
    answer := None;
    match op
    case GetOp(id) =>
      HitAgrees(cache.store, list, last, id);
      GetRefines(cache.store, list, last, id, now);
      answer := cache.Get(id, now);
    case SetOp(id, data) =>
      SetRefines(cache.store, list, last, id, data, now);
      cache.Set(id, data, now);
    case DeleteOp(id) =>
      WithoutRepresents(cache.store, list, last, id);
      cache.Delete(id);
    case ClearOp =>
      cache.Clear();
  }

  /** Each answer is what the list after the operations before it gives. */
  ghost predicate Agree<D>(answers: seq<Option<(D, int)>>, ops: seq<Op<D>>, times: seq<int>)
    requires |answers| <= |ops| == |times|
  {
    forall i :: 0 <= i < |answers| ==> answers[i] == Answer(ListRun(ops[..i], times[..i]), ops[i])
  }

  lemma RunStep<D>(ops: seq<Op<D>>, times: seq<int>, i: nat)
    requires |ops| == |times| && i < |ops|
    ensures ListRun(ops[..i + 1], times[..i + 1]) == ListAfter(ListRun(ops[..i], times[..i]), ops[i], times[i])
  {
    assert ops[..i + 1][..i] == ops[..i] && times[..i + 1][..i] == times[..i];
  }

  /** The next operation of a sequence, on a cache that represents the list so far. */
  method PerformNext<D(==)>(cache: Cache<D>, ops: seq<Op<D>>, times: seq<int>, answers: seq<Option<(D, int)>>, ghost last: int)
    returns (more: seq<Option<(D, int)>>)
    requires |answers| < |ops| == |times| && last < times[|answers|] && Agree(answers, ops, times)
    requires Represents(cache.store, ListRun(ops[..|answers|], times[..|answers|]), last)
    modifies cache
    ensures |more| == |answers| + 1 && Agree(more, ops, times)
    ensures Represents(cache.store, ListRun(ops[..|more|], times[..|more|]), times[|answers|])
  {
    hide ListAfter, Represents;
    var i := |answers|;
    RunStep(ops, times, i);
    var answer := Perform(cache, ops[i], times[i], ListRun(ops[..i], times[..i]), last);
    more := answers + [answer];
  }

  /** A cache used from empty with an increasing clock answers every lookup as the recency
      list does, and lists the same ids in the same order. */
  method Drive<D(==)>(ops: seq<Op<D>>, times: seq<int>)
    returns (answers: seq<Option<(D, int)>>, keys: seq<string>, size: nat)
    requires |ops| == |times| && forall i, j :: 0 <= i < j < |times| ==> times[i] < times[j]
    ensures |answers| == |ops| && Agree(answers, ops, times)
    ensures keys == Ids(ListRun(ops, times)) && size == |ListRun(ops, times)|
  {
    var cache := new Cache<D>();
    answers := [];
    ghost var last := if times == [] then 0 else times[0] - 1;
    while |answers| < |ops|
      invariant |answers| <= |ops| && Agree(answers, ops, times)
      invariant Represents(cache.store, ListRun(ops[..|answers|], times[..|answers|]), last)
      invariant |answers| < |times| ==> last < times[|answers|]
      decreases |ops| - |answers|
    {
      ghost var i := |answers|;
      answers := PerformNext(cache, ops, times, answers, last);
      last := times[i];
    }
    assert ops[..|ops|] == ops && times[..|times|] == times;
    keys, size := Report(cache, ListRun(ops, times), last);
  }

  /** What `keys` and `size` tell of a cache that represents a list. */
  method Report<D(==)>(cache: Cache<D>, ghost list: seq<Item<D>>, ghost last: int) returns (keys: seq<string>, size: nat)
    requires Represents(cache.store, list, last)
    ensures keys == Ids(list) && size == |list|
  {
    keys := cache.Keys();
    size := cache.Size();
    ListSize(cache.store, list, last);
    ListDescending(cache.store, list, last);
    DescendingUnique(cache.store, keys, Ids(list));
  }
}
