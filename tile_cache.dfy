/**
 * The least-recently-used bookkeeping shared by the map-tile and terrain-tile
 * caches: a dictionary from tile to payload plus an order list whose front is
 * the oldest entry and whose back is the most recently used one.
 */
module TileCache {
  import opened Tiles

  predicate NoDup<T(==)>(s: seq<T>)
  {
    forall i, j :: 0 <= i < j < |s| ==> s[i] != s[j]
  }

  /** The order list names exactly the cached tiles, each once. */
  ghost predicate Lru<V>(cache: map<TileCoordinate, V>, order: seq<TileCoordinate>)
  {
    NoDup(order) && (forall t :: t in order <==> t in cache)
  }

  /** Position of the first occurrence of `t` (`firstIndex(of:)`). */
  function FirstIndex<T(==)>(s: seq<T>, t: T): (i: nat)
    requires t in s
    ensures i < |s| && s[i] == t && t !in s[..i]
  {
    if s[0] == t then 0 else 1 + FirstIndex(s[1..], t)
  }

  /** `remove(at: firstIndex(of: t))`. */
  function RemoveFirst<T(==)>(s: seq<T>, t: T): (r: seq<T>)
    requires t in s
    ensures r == s[..FirstIndex(s, t)] + s[FirstIndex(s, t) + 1..]
  {
    if s[0] == t then s[1..] else [s[0]] + RemoveFirst(s[1..], t)
  }

  /** A cache hit: the tile moves to the back, if the order list has it. */
  function Touch(order: seq<TileCoordinate>, t: TileCoordinate): seq<TileCoordinate>
  {
    if t in order then RemoveFirst(order, t) + [t] else order
  }

  /** How many entries eviction drops from the front. */
  function Dropped(order: seq<TileCoordinate>, max: nat): nat
  {
    if |order| > max then |order| - max else 0
  }

  /** The eviction loop: remove the oldest entry while more than `max` remain. */
  function Evict<V>(cache: map<TileCoordinate, V>, order: seq<TileCoordinate>, max: nat): (r: (map<TileCoordinate, V>, seq<TileCoordinate>))
    decreases |order|
  {
    if |order| <= max then (cache, order)
    else Evict(cache - {order[0]}, order[1..], max)
  }

  /** A completed download: cache it, append it, evict. */
  function Store<V>(cache: map<TileCoordinate, V>, order: seq<TileCoordinate>, t: TileCoordinate, v: V, max: nat): (map<TileCoordinate, V>, seq<TileCoordinate>)
  {
    Evict(cache[t := v], order + [t], max)
  }

  /** A hit moves the tile to the back and leaves the others in their relative order. */
  lemma TouchMovesToBack(order: seq<TileCoordinate>, t: TileCoordinate)
    requires t in order
    ensures var i := FirstIndex(order, t);
      Touch(order, t) == order[..i] + order[i + 1..] + [t]
    ensures |Touch(order, t)| == |order| && multiset(Touch(order, t)) == multiset(order)
  {
    MoveToBackMultiset(order, FirstIndex(order, t));
  }

  lemma MoveToBackMultiset<T>(order: seq<T>, i: nat)
    requires i < |order|
    ensures multiset(order[..i] + order[i + 1..] + [order[i]]) == multiset(order)
  {
    assert order == order[..i] + [order[i]] + order[i + 1..];
  }

  /** Touching keeps the order list an exact, duplicate-free listing of the cache. */
  lemma TouchKeepsLru<V>(cache: map<TileCoordinate, V>, order: seq<TileCoordinate>, t: TileCoordinate)
    requires Lru(cache, order)
    ensures Lru(cache, Touch(order, t))
  {
    if t in order {
      var i := FirstIndex(order, t);
      assert Touch(order, t) == order[..i] + order[i + 1..] + [order[i]];
      MoveToBackNoDup(order, i);
      forall x
        ensures x in Touch(order, t) <==> x in order
      {
        MoveToBackMembers(order, i, x);
      }
    }
  }

  lemma MoveToBackMembers<T>(order: seq<T>, i: nat, x: T)
    requires i < |order|
    ensures x in order[..i] + order[i + 1..] + [order[i]] <==> x in order
  {
    assert order == order[..i] + [order[i]] + order[i + 1..];
  }

  /** Moving one entry of a duplicate-free list to its back keeps it duplicate-free. */
  lemma MoveToBackNoDup<T>(order: seq<T>, i: nat)
    requires i < |order| && NoDup(order)
    ensures NoDup(order[..i] + order[i + 1..] + [order[i]])
  {
    var rest := order[..i] + order[i + 1..];
    var r := rest + [order[i]];
    forall a, b | 0 <= a < b < |r|
      ensures r[a] != r[b]
    {
      var a' := if a < i then a else a + 1;
      assert r[a] == order[a'];
      if b == |r| - 1 {
        assert r[b] == order[i] && a' != i;
      } else {
        var b' := if b < i then b else b + 1;
        assert r[b] == order[b'] && a' < b';
      }
    }
  }

  /** Eviction keeps the newest `max` entries and drops from the cache exactly what it drops from the order. */
  lemma {:induction false} EvictKeepsNewest<V>(cache: map<TileCoordinate, V>, order: seq<TileCoordinate>, max: nat)
    ensures var (c, o) := Evict(cache, order, max);
      o == order[Dropped(order, max)..] &&
      (forall t :: t in c <==> t in cache && t !in order[..Dropped(order, max)]) &&
      (forall t :: t in c ==> c[t] == cache[t])
    decreases |order|
  {
    if |order| > max {
      EvictKeepsNewest(cache - {order[0]}, order[1..], max);
      var d := Dropped(order, max);
      assert order[1..][Dropped(order[1..], max)..] == order[d..];
      assert order[..d] == [order[0]] + order[1..][..Dropped(order[1..], max)];
    }
  }

  /** Eviction leaves at most `max` entries and keeps the cache and order in step. */
  lemma EvictKeepsLru<V>(cache: map<TileCoordinate, V>, order: seq<TileCoordinate>, max: nat)
    requires Lru(cache, order)
    ensures var (c, o) := Evict(cache, order, max);
      Lru(c, o) && |o| <= max && |o| == (if |order| <= max then |order| else max)
  {
    EvictKeepsNewest(cache, order, max);
    var (c, o) := Evict(cache, order, max);
    var d := Dropped(order, max);
    assert order == order[..d] + o;
    forall a, b | 0 <= a < b < |o|
      ensures o[a] != o[b]
    {
      assert o[a] == order[d + a] && o[b] == order[d + b];
    }
  }

  /** Storing a tile that is not yet cached keeps the LRU invariant and the size bound; the tile ends up cached. */
  lemma StoreKeepsLru<V>(cache: map<TileCoordinate, V>, order: seq<TileCoordinate>, t: TileCoordinate, v: V, max: nat)
    requires Lru(cache, order) && t !in cache
    ensures var (c, o) := Store(cache, order, t, v, max);
      Lru(c, o) && |o| <= max && (max > 0 ==> t in c && c[t] == v && o[|o| - 1] == t)
  {
    var c1 := cache[t := v];
    var o1 := order + [t];
    forall a, b | 0 <= a < b < |o1|
      ensures o1[a] != o1[b]
    {
      if b == |order| { assert o1[a] == order[a]; }
    }
    assert Lru(c1, o1);
    EvictKeepsLru(c1, o1, max);
    EvictKeepsNewest(c1, o1, max);
    if max > 0 {
      var d := Dropped(o1, max);
      assert o1[d..][|o1| - d - 1] == t;
      var (c, o) := Evict(c1, o1, max);
      assert t in o;
    }
  }

  /**
   * A completion for a tile that is already cached (a second download for it
   * started after the cache was cleared) lists the tile twice in the order
   * list, so the order no longer matches the cache.
   */
  lemma StoreCachedDuplicates<V>(cache: map<TileCoordinate, V>, order: seq<TileCoordinate>, t: TileCoordinate, v: V, max: nat)
    requires Lru(cache, order) && t in cache && |order| < max
    ensures !Lru(Store(cache, order, t, v, max).0, Store(cache, order, t, v, max).1)
  {
    var o1 := order + [t];
    assert Evict(cache[t := v], o1, max) == (cache[t := v], o1);
    var i :| 0 <= i < |order| && order[i] == t;
    assert o1[i] == o1[|order|];
  }

  /** The eviction loop, proved against `Evict`. */
  method EvictOldest<V>(cache: map<TileCoordinate, V>, order: seq<TileCoordinate>, max: nat) returns (c: map<TileCoordinate, V>, o: seq<TileCoordinate>)
    ensures (c, o) == Evict(cache, order, max)
  {
    c, o := cache, order;
    while |o| > max
      invariant Evict(c, o, max) == Evict(cache, order, max)
      decreases |o|
    {
      var evicted := o[0];
      o := o[1..];
      c := c - {evicted};
    }
  }
}
