/**
 * An entity cache beside the master's table, when every change of the master is pushed to the cache before
 * anything else happens and a load is one step (internal/agent/cache/entitycache/lru.go:94-185).
 */
module CacheCoherence {
  import opened Options
  import opened Sequences
  import opened LruCaches

  datatype Event<K, V> =
    | MasterSet(key: K, value: V)
    | MasterDelete(key: K)
    | Lookup(key: K, now: int, later: int, fails: bool)
    | FullSync(key: K)
    | Evict(key: K)

  datatype World<K, V> = World(master: map<K, V>, cache: Cache<K, V>)

  function LoadFrom<K, V>(master: map<K, V>, key: K, fails: bool): Load<V> {
    if fails then Failed else if key in master then Loaded(master[key]) else Absent
  }

  function Step<K(==), V>(ttl: int, w: World<K, V>, e: Event<K, V>): World<K, V> {
    match e
    case MasterSet(k, v) => World(w.master[k := v], Applied(w.cache, ActionSet(v), k).cache)
    case MasterDelete(k) => World(w.master - {k}, Applied(w.cache, ActionDelete, k).cache)
    case Lookup(k, now, later, fails) =>
      w.(cache := Got(w.cache, k, ttl, now, later, LoadFrom(w.master, k, fails)).0.cache)
    case FullSync(k) => if k in w.master then w.(cache := Stored(w.cache, k, Present(w.master[k])).cache) else w
    case Evict(k) => w.(cache := Deleted(w.cache, k).cache)
  }

  function Run<K(==), V>(capacity: nat, ttl: int, events: seq<Event<K, V>>): World<K, V> {
    if events == [] then World(map[], Cache(Lru(capacity, [], map[]), Stats(0, 0, 0, 0, 0, 0)))
    else Step(ttl, Run(capacity, ttl, events[..|events| - 1]), events[|events| - 1])
  }

  /** Cached values are the master's, and a negative entry is for a key the master does not have. */
  ghost predicate Agrees<K(!new), V>(items: map<K, Entry<V>>, master: map<K, V>) {
    forall k | k in items ::
      if items[k].Present? then k in master && master[k] == items[k].value else k !in master
  }

  ghost predicate Coherent<K(!new), V>(w: World<K, V>) {
    WellFormed(w.cache.lru) && Agrees(w.cache.lru.items, w.master)
  }

  lemma {:induction false} StoredAgrees<K(!new), V>(
    c: Cache<K, V>, k: K, e: Entry<V>, master: map<K, V>, now: map<K, V>)
    requires WellFormed(c.lru) && Agrees(c.lru.items, master)
    requires forall x | x != k :: x in now <==> x in master
    requires forall x | x != k && x in master :: now[x] == master[x]
    requires if e.Present? then k in now && now[k] == e.value else k !in now
    ensures var after := Stored(c, k, e).cache;
      WellFormed(after.lru) && after.lru.capacity == c.lru.capacity && Agrees(after.lru.items, now)
  {
    hide Add, WellFormed;
    AddKeeps(c.lru, k, e);
  }

  lemma {:induction false} RemovedAgrees<K(!new), V>(l: Lru<K, V>, k: K, master: map<K, V>)
    requires WellFormed(l) && Agrees(l.items, master)
    ensures WellFormed(Remove(l, k)) && Agrees(Remove(l, k).items, master)
    ensures Agrees(Remove(l, k).items, master - {k})
  {
    hide Remove, WellFormed;
    RemoveKeeps(l, k);
  }

  lemma {:induction false} GotAgrees<K(!new), V>(c: Cache<K, V>, k: K, ttl: int, now: int, later: int, fails: bool,
                                                 master: map<K, V>)
    requires WellFormed(c.lru) && Agrees(c.lru.items, master)
    ensures var after := Got(c, k, ttl, now, later, LoadFrom(master, k, fails)).0.cache;
      WellFormed(after.lru) && Agrees(after.lru.items, master)
  {
    hide Add, Remove, Touch, WellFormed;
    TouchKeeps(c.lru, k);
    var l := Touch(c.lru, k);
    if k in l.items && (l.items[k].Present? || now < l.items[k].expireAt) {
    } else {
      RemovedAgrees(l, k, master);
      var missed := Cache(Remove(l, k), c.stats.(misses := c.stats.misses + 1));
      if !fails {
        var e := if k in master then Present(master[k]) else Missing(later + ttl);
        StoredAgrees(missed, k, e, master, master);
      }
    }
  }

  lemma {:induction false} StepCoherent<K(!new), V>(ttl: int, w: World<K, V>, e: Event<K, V>)
    requires Coherent(w)
    ensures Coherent(Step(ttl, w, e))
  {
    hide Add, Remove, Stored, Got, WellFormed;
    match e
    case MasterSet(k, v) =>
      if k in w.cache.lru.items {
        StoredAgrees(w.cache, k, Present(v), w.master, w.master[k := v]);
      }
    case MasterDelete(k) => RemovedAgrees(w.cache.lru, k, w.master);
    case Lookup(k, now, later, fails) => GotAgrees(w.cache, k, ttl, now, later, fails, w.master);
    case FullSync(k) =>
      if k in w.master {
        StoredAgrees(w.cache, k, Present(w.master[k]), w.master, w.master);
      }
    case Evict(k) => RemovedAgrees(w.cache.lru, k, w.master);
  }

  lemma {:induction false} RunCoherent<K(!new), V>(capacity: nat, ttl: int, events: seq<Event<K, V>>)
    requires capacity > 0
    ensures Coherent(Run(capacity, ttl, events))
    decreases |events|
  {
    if events != [] {
      hide Step, Coherent;
      RunCoherent(capacity, ttl, events[..|events| - 1]);
      StepCoherent(ttl, Run(capacity, ttl, events[..|events| - 1]), events[|events| - 1]);
    }
  }

  /** The cache answers from what it holds: a value, or a negative entry that is still good. */
  predicate Fresh<K, V>(c: Cache<K, V>, k: K, now: int) {
    k in c.lru.items && (c.lru.items[k].Present? || now < c.lru.items[k].expireAt)
  }

  function Truth<K, V>(master: map<K, V>, k: K): Answer<V> {
    if k in master then Hit(master[k]) else NotFound
  }

  /**
   * After any run, for every capacity, lifetime of negative entries and clock, a lookup gives the master's
   * current answer; only a load that is needed and fails gives none.
   */
  lemma {:induction false} LookupIsCurrent<K(!new), V>(capacity: nat, ttl: int, events: seq<Event<K, V>>,
                                                       k: K, now: int, later: int, fails: bool)
    requires capacity > 0
    ensures var w := Run(capacity, ttl, events);
      Got(w.cache, k, ttl, now, later, LoadFrom(w.master, k, fails)).1
        == if fails && !Fresh(w.cache, k, now) then LoadError else Truth(w.master, k)
  {
    hide Run, Remove, Touch, WellFormed, Stored;
    RunCoherent(capacity, ttl, events);
    TouchKeeps(Run(capacity, ttl, events).cache.lru, k);
  }

  lemma {:induction false} StepCapacity<K(!new), V>(ttl: int, w: World<K, V>, e: Event<K, V>)
    ensures Step(ttl, w, e).cache.lru.capacity == w.cache.lru.capacity
  {
  }

  /** The cache never holds more entries than its capacity, negative ones included. */
  lemma {:induction false} SizeBounded<K(!new), V>(capacity: nat, ttl: int, events: seq<Event<K, V>>)
    requires capacity > 0
    ensures |Run(capacity, ttl, events).cache.lru.items| <= capacity
  {
    hide Run;
    RunCoherent(capacity, ttl, events);
    CapacityStays(capacity, ttl, events);
    SizeIsLength(Run(capacity, ttl, events).cache.lru);
  }

  lemma {:induction false} CapacityStays<K(!new), V>(capacity: nat, ttl: int, events: seq<Event<K, V>>)
    ensures Run(capacity, ttl, events).cache.lru.capacity == capacity
    decreases |events|
  {
    if events != [] {
      hide Step;
      CapacityStays(capacity, ttl, events[..|events| - 1]);
      StepCapacity(ttl, Run(capacity, ttl, events[..|events| - 1]), events[|events| - 1]);
    }
  }

  // ---------------------------------------------------------------------------------------------
  // Counters
  // ---------------------------------------------------------------------------------------------

  function Lookups<K, V>(events: seq<Event<K, V>>): nat {
    if events == [] then 0
    else Lookups(events[..|events| - 1]) + if events[|events| - 1].Lookup? then 1 else 0
  }

  function Removals<K, V>(events: seq<Event<K, V>>): nat {
    if events == [] then 0
    else Removals(events[..|events| - 1])
         + if events[|events| - 1].MasterDelete? || events[|events| - 1].Evict? then 1 else 0
  }

  /** An eviction is counted exactly when a new entry does not make the cache larger. */
  lemma {:induction false} EvictionsBalance<K(!new), V>(c: Cache<K, V>, k: K, e: Entry<V>)
    requires WellFormed(c.lru)
    ensures var after := Stored(c, k, e).cache;
      |after.lru.items| + after.stats.evictions
        == |c.lru.items| + c.stats.evictions + if k in c.lru.items then 0 else 1
  {
    hide Add;
    AddKeeps(c.lru, k, e);
    SizeIsLength(c.lru);
    SizeIsLength(Add(c.lru, k, e).lru);
    if k in c.lru.items {
      assert c.lru.items[k := e].Keys == c.lru.items.Keys;
    } else {
      assert c.lru.items[k := e].Keys == c.lru.items.Keys + {k};
      if c.lru.order != [] {
        assert (c.lru.items[k := e] - {c.lru.order[0]}).Keys == c.lru.items.Keys + {k} - {c.lru.order[0]};
      }
    }
  }

  lemma {:induction false} StepCounts<K(!new), V>(ttl: int, w: World<K, V>, e: Event<K, V>)
    ensures var a, b := w.cache.stats, Step(ttl, w, e).cache.stats;
      && b.hits + b.misses + b.negativeHits == a.hits + a.misses + a.negativeHits + (if e.Lookup? then 1 else 0)
      && b.invalidations == a.invalidations + (if e.MasterDelete? || e.Evict? then 1 else 0)
      && 0 <= b.loadErrors - a.loadErrors <= b.misses - a.misses
  {
    hide Add, Remove, Touch;
  }

  /** Every lookup is counted once: as a hit, a miss or a negative hit. */
  lemma {:induction false} LookupsAreCounted<K(!new), V>(capacity: nat, ttl: int, events: seq<Event<K, V>>)
    ensures var s := Run(capacity, ttl, events).cache.stats;
      && s.hits + s.misses + s.negativeHits == Lookups(events)
      && s.invalidations == Removals(events)
      && 0 <= s.loadErrors <= s.misses
    decreases |events|
  {
    if events != [] {
      hide Step;
      LookupsAreCounted(capacity, ttl, events[..|events| - 1]);
      StepCounts(ttl, Run(capacity, ttl, events[..|events| - 1]), events[|events| - 1]);
    }
  }
}
