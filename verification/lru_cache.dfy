/**
 * The entity cache of an agent (internal/agent/cache/entitycache/lru.go): an LRU with negative entries that
 * loads what it misses.  The LRU of the library it builds on is a recency sequence with a map; the eviction
 * callback runs for an entry that the capacity pushes out and for one that is removed, not for one that is
 * overwritten.  Clock readings and the loader's answers are parameters.
 */
module LruCaches {
  import opened Options
  import opened Sequences

  /** A cached value, or the note that the source has none, good until `expireAt`. */
  datatype Entry<V> = Present(value: V) | Missing(expireAt: int)

  // ---------------------------------------------------------------------------------------------
  // The library's LRU
  // ---------------------------------------------------------------------------------------------

  /** The keys from the least to the most recently used one. */
  datatype Lru<K, V> = Lru(capacity: nat, order: seq<K>, items: map<K, Entry<V>>)

  ghost predicate WellFormed<K(!new), V>(l: Lru<K, V>) {
    && 0 < l.capacity
    && |l.order| <= l.capacity
    && Distinct(l.order)
    && forall k :: k in l.order <==> k in l.items
  }

  function Drop<K(==)>(s: seq<K>, k: K): seq<K> {
    if s == [] then [] else if s[0] == k then s[1..] else [s[0]] + Drop(s[1..], k)
  }

  lemma {:induction false} DropKeeps<K(!new)>(s: seq<K>, k: K)
    requires Distinct(s)
    ensures Distinct(Drop(s, k)) && |Drop(s, k)| == |s| - (if k in s then 1 else 0)
    ensures forall x :: x in Drop(s, k) <==> x in s && x != k
  {
    if s != [] {
      assert s == [s[0]] + s[1..];
      var rest := Drop(s[1..], k);
      if s[0] == k {
        assert k !in s[1..];
      } else {
        DropKeeps(s[1..], k);
        assert s[0] !in s[1..];
        assert Drop(s, k) == [s[0]] + rest;
        assert forall x :: x in [s[0]] + rest <==> x == s[0] || x in rest;
      }
    }
  }

  /** The result of putting an entry in, with the entry the capacity pushed out. */
  datatype Added<K, V> = Added(lru: Lru<K, V>, evicted: Option<Entry<V>>)

  function Add<K(==), V>(l: Lru<K, V>, k: K, e: Entry<V>): Added<K, V> {
    if k in l.items then Added(Lru(l.capacity, Drop(l.order, k) + [k], l.items[k := e]), None)
    else
      var order, items := l.order + [k], l.items[k := e];
      if |order| <= l.capacity then Added(Lru(l.capacity, order, items), None)
      else if order[0] in items then
        Added(Lru(l.capacity, order[1..], items - {order[0]}), Some(items[order[0]]))
      else Added(Lru(l.capacity, order[1..], items), None)
  }

  /** Reading an entry makes it the most recently used one. */
  function Touch<K(==), V>(l: Lru<K, V>, k: K): Lru<K, V> {
    if k in l.items then l.(order := Drop(l.order, k) + [k]) else l
  }

  function Remove<K(==), V>(l: Lru<K, V>, k: K): Lru<K, V> {
    if k in l.items then l.(order := Drop(l.order, k), items := l.items - {k}) else l
  }

  lemma {:induction false} TouchKeeps<K(!new), V>(l: Lru<K, V>, k: K)
    requires WellFormed(l)
    ensures WellFormed(Touch(l, k)) && Touch(l, k).items == l.items
  {
    DropKeeps(l.order, k);
  }

  lemma {:induction false} RemoveKeeps<K(!new), V>(l: Lru<K, V>, k: K)
    requires WellFormed(l)
    ensures WellFormed(Remove(l, k)) && Remove(l, k).items == l.items - {k}
  {
    DropKeeps(l.order, k);
    assert k !in l.items ==> l.items - {k} == l.items;
  }

  lemma {:induction false} TailOf<K(!new)>(s: seq<K>, k: K)
    requires Distinct(s) && k !in s
    ensures var grown := s + [k];
      Distinct(grown) && Distinct(grown[1..]) && forall x :: x in grown[1..] <==> x in grown && x != grown[0]
  {
    var grown := s + [k];
    assert grown == [grown[0]] + grown[1..];
  }

  /** The least recently used entry makes room for a new key in a full cache. */
  lemma {:induction false} PushesOut<K(!new), V>(l: Lru<K, V>, k: K, e: Entry<V>)
    requires WellFormed(l) && k !in l.items && |l.order| == l.capacity
    ensures var a := Add(l, k, e);
      && WellFormed(a.lru) && a.lru.order == l.order[1..] + [k]
      && l.order[0] in l.items && a.evicted == Some(l.items[l.order[0]])
      && a.lru.items == l.items[k := e] - {l.order[0]}
  {
    var grown := l.order + [k];
    TailOf(l.order, k);
    assert l.order[0] in l.order && grown[0] == l.order[0];
    assert grown[1..] == l.order[1..] + [k];
    assert forall x :: x in grown <==> x in l.items[k := e];
  }

  /** An entry goes out exactly when the key is new and the cache full: the least recently used one. */
  lemma {:induction false} AddKeeps<K(!new), V>(l: Lru<K, V>, k: K, e: Entry<V>)
    requires WellFormed(l)
    ensures var a := Add(l, k, e);
      && WellFormed(a.lru) && a.lru.capacity == l.capacity
      && a.lru.order[|a.lru.order| - 1] == k
      && (a.evicted.Some? <==> k !in l.items && |l.order| == l.capacity)
      && (a.evicted.None? ==> a.lru.items == l.items[k := e])
      && (a.evicted.Some? ==> l.order != [] && l.order[0] != k && l.order[0] in l.items
                              && a.evicted.value == l.items[l.order[0]]
                              && a.lru.items == l.items[k := e] - {l.order[0]})
  {
    hide Drop;
    if k in l.items {
      DropKeeps(l.order, k);
    } else if |l.order| == l.capacity {
      hide WellFormed;
      PushesOut(l, k, e);
    }
  }

  lemma {:induction false} SizeIsLength<K(!new), V>(l: Lru<K, V>)
    requires WellFormed(l)
    ensures |l.items| == |l.order| <= l.capacity
  {
    DistinctSize(l.order);
    assert Elements(l.order) == l.items.Keys;
  }

  // ---------------------------------------------------------------------------------------------
  // The cache on values
  // ---------------------------------------------------------------------------------------------

  datatype Stats = Stats(hits: int, misses: int, evictions: int, negativeHits: int, loadErrors: int, invalidations: int)

  datatype Cache<K, V> = Cache(lru: Lru<K, V>, stats: Stats)

  /** What the loader says to a miss, if there is a loader. */
  datatype Load<V> = NoLoader | Loaded(value: V) | Absent | Failed

  datatype Answer<V> = Hit(value: V) | NotFound | Nothing | LoadError

  /** The new cache and the values the eviction callback is given. */
  datatype Change<K, V> = Change(cache: Cache<K, V>, fired: seq<V>)

  function Fired<V>(e: Option<Entry<V>>): seq<V> {
    if e.Some? && e.value.Present? then [e.value.value] else []
  }

  function Stored<K(==), V>(c: Cache<K, V>, k: K, e: Entry<V>): Change<K, V> {
    var a := Add(c.lru, k, e);
    Change(Cache(a.lru, if a.evicted.Some? then c.stats.(evictions := c.stats.evictions + 1) else c.stats),
      Fired(a.evicted))
  }

  function AfterAbsent<K(==), V>(c: Cache<K, V>, k: K, ttl: int, now: int): Change<K, V> {
    if ttl <= 0 then Change(c, []) else Stored(c, k, Missing(now + ttl))
  }

  function AfterLoad<K(==), V>(c: Cache<K, V>, k: K, ttl: int, now: int, load: Load<V>): (Change<K, V>, Answer<V>) {
    match load
    case NoLoader => (Change(c, []), Nothing)
    case Loaded(v) => (Stored(c, k, Present(v)), Hit(v))
    case Absent => (AfterAbsent(c, k, ttl, now), NotFound)
    case Failed => (Change(c.(stats := c.stats.(loadErrors := c.stats.loadErrors + 1)), []), LoadError)
  }

  /** `now` is the clock when the entry is looked at, `later` when a negative one is stored. */
  function Got<K(==), V>(c: Cache<K, V>, k: K, ttl: int, now: int, later: int, load: Load<V>)
      : (Change<K, V>, Answer<V>) {
    var l := Touch(c.lru, k);
    if k in l.items && l.items[k].Present? then
      (Change(Cache(l, c.stats.(hits := c.stats.hits + 1)), []), Hit(l.items[k].value))
    else if k in l.items && now < l.items[k].expireAt then
      (Change(Cache(l, c.stats.(negativeHits := c.stats.negativeHits + 1)), []), NotFound)
    else
      AfterLoad(Cache(Remove(l, k), c.stats.(misses := c.stats.misses + 1)), k, ttl, later, load)
  }

  function Deleted<K(==), V>(c: Cache<K, V>, k: K): Change<K, V> {
    Change(Cache(Remove(c.lru, k), c.stats.(invalidations := c.stats.invalidations + 1)),
      Fired(if k in c.lru.items then Some(c.lru.items[k]) else None))
  }

  datatype Action<V> = ActionSet(value: V) | ActionDelete

  /** A pushed change is applied only to a key that is cached. */
  function Applied<K(==), V>(c: Cache<K, V>, action: Action<V>, k: K): Change<K, V> {
    match action
    case ActionSet(v) => if k in c.lru.items then Stored(c, k, Present(v)) else Change(c, [])
    case ActionDelete => Deleted(c, k)
  }

  // ---------------------------------------------------------------------------------------------
  // The cache as it runs
  // ---------------------------------------------------------------------------------------------

  class LruCache<K(==), V> {
    const negativeTtl: int
    var cache: Lru<K, V>
    var hits: int
    var misses: int
    var evictions: int
    var negativeHits: int
    var loadErrors: int
    var invalidations: int

    ghost function State(): Cache<K, V>
      reads this
    {
      Cache(cache, Stats(hits, misses, evictions, negativeHits, loadErrors, invalidations))
    }

    constructor (capacity: nat, negativeTtl: int)
      requires capacity > 0
      ensures this.negativeTtl == negativeTtl
      ensures State() == Cache(Lru(capacity, [], map[]), Stats(0, 0, 0, 0, 0, 0))
    {
      this.negativeTtl := negativeTtl;
      cache := Lru(capacity, [], map[]);
      hits, misses, evictions, negativeHits, loadErrors, invalidations := 0, 0, 0, 0, 0, 0;
    }

    /** The library's Add, with the eviction counter and the callback of this cache. */
    method Put(key: K, e: Entry<V>) returns (fired: seq<V>)
      modifies this
      ensures Change(State(), fired) == Stored(old(State()), key, e)
    {
      var a := Add(cache, key, e);
      cache := a.lru;
      if a.evicted.Some? {
        evictions := evictions + 1;
      }
      fired := Fired(a.evicted);
    }

    method Peek(key: K) returns (v: Option<V>)
      ensures v == if key in cache.items && cache.items[key].Present? then Some(cache.items[key].value) else None
    {
      if key !in cache.items || cache.items[key].Missing? {
        return None;
      }
      v := Some(cache.items[key].value);
    }

    method Get(key: K, now: int, later: int, load: Load<V>) returns (answer: Answer<V>, fired: seq<V>)
      modifies this
      ensures (Change(State(), fired), answer) == Got(old(State()), key, negativeTtl, now, later, load)
    {
      hide Add, Remove, Touch;
      var known := key in Touch(cache, key).items;
      cache := Touch(cache, key);
      if known {
        var e := cache.items[key];
        if e.Missing? {
          if now >= e.expireAt {
            cache := Remove(cache, key);
          } else {
            negativeHits := negativeHits + 1;
            return NotFound, [];
          }
        } else {
          hits := hits + 1;
          return Hit(e.value), [];
        }
      } else {
        RemoveNothing(cache, key);
      }
      misses := misses + 1;
      if load.NoLoader? {
        return Nothing, [];
      }
      answer, fired := LoadAndStore(key, later, load);
    }

    method LoadAndStore(key: K, now: int, load: Load<V>) returns (answer: Answer<V>, fired: seq<V>)
      requires !load.NoLoader?
      modifies this
      ensures (Change(State(), fired), answer) == AfterLoad(old(State()), key, negativeTtl, now, load)
    {
      match load
      case Absent =>
        fired := StoreNegative(key, now);
        answer := NotFound;
      case Failed =>
        loadErrors := loadErrors + 1;
        answer, fired := LoadError, [];
      case Loaded(v) =>
        fired := Put(key, Present(v));
        answer := Hit(v);
    }

    method StoreNegative(key: K, now: int) returns (fired: seq<V>)
      modifies this
      ensures Change(State(), fired) == AfterAbsent(old(State()), key, negativeTtl, now)
    {
      if negativeTtl <= 0 {
        return [];
      }
      fired := Put(key, Missing(now + negativeTtl));
    }

    method Apply(action: Action<V>, key: K) returns (fired: seq<V>)
      modifies this
      ensures Change(State(), fired) == Applied(old(State()), action, key)
    {
      fired := [];
      match action
      case ActionSet(v) =>
        if key in cache.items {
          fired := Put(key, Present(v));
        }
      case ActionDelete =>
        fired := Delete(key);
    }

    method Set(key: K, value: V) returns (fired: seq<V>)
      modifies this
      ensures Change(State(), fired) == Stored(old(State()), key, Present(value))
    {
      fired := Put(key, Present(value));
    }

    method Delete(key: K) returns (fired: seq<V>)
      modifies this
      ensures Change(State(), fired) == Deleted(old(State()), key)
    {
      invalidations := invalidations + 1;
      fired := Fired(if key in cache.items then Some(cache.items[key]) else None);
      cache := Remove(cache, key);
    }
  }

  /** A capacity that is not positive is refused at once. */
  method NewLruCache<K(==), V>(capacity: int, negativeTtl: int) returns (c: Option<LruCache<K, V>>)
    ensures c.None? <==> capacity <= 0
    ensures c.Some? ==>
      && fresh(c.value) && c.value.negativeTtl == negativeTtl
      && c.value.State() == Cache(Lru(capacity, [], map[]), Stats(0, 0, 0, 0, 0, 0))
  {
    if capacity <= 0 {
      return None;
    }
    var cache := new LruCache<K, V>(capacity, negativeTtl);
    c := Some(cache);
  }

  lemma {:induction false} RemoveNothing<K, V>(l: Lru<K, V>, k: K)
    ensures k !in l.items ==> Remove(l, k) == l
  {
  }
}
