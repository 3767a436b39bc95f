/**
 * Which entry a full cache gives up (internal/agent/cache/entitycache/lru.go:94-185): over every run the keys are
 * in the order of their last use, and what goes out is the one that was used least recently.
 */
module CacheRecency {
  import opened Options
  import opened Sequences
  import opened LruCaches
  import opened CacheCoherence

  // ---------------------------------------------------------------------------------------------
  // Uses
  // ---------------------------------------------------------------------------------------------

  /** The key an event uses: a lookup always, a write when it puts something into the cache. */
  function UseOf<K(==), V>(w: World<K, V>, e: Event<K, V>): seq<K> {
    match e
    case Lookup(k, _, _, _) => [k]
    case MasterSet(k, _) => if k in w.cache.lru.items then [k] else []
    case FullSync(k) => if k in w.master then [k] else []
    case _ => []
  }

  function Uses<K(==), V>(capacity: nat, ttl: int, events: seq<Event<K, V>>): seq<K> {
    if events == [] then []
    else
      var n := |events| - 1;
      Uses(capacity, ttl, events[..n]) + UseOf(Run(capacity, ttl, events[..n]), events[n])
  }

  /** When a key was last used, or -1. */
  function LastUse<K(==)>(uses: seq<K>, k: K): int {
    if uses == [] then -1
    else if uses[|uses| - 1] == k then |uses| - 1
    else LastUse(uses[..|uses| - 1], k)
  }

  ghost predicate ByLastUse<K>(order: seq<K>, uses: seq<K>) {
    forall i, j | 0 <= i < j < |order| :: LastUse(uses, order[i]) < LastUse(uses, order[j])
  }

  lemma {:induction false} UsedNow<K>(uses: seq<K>, k: K)
    ensures LastUse(uses + [k], k) == |uses|
    ensures forall x | x != k :: LastUse(uses + [k], x) == LastUse(uses, x)
    ensures forall x :: LastUse(uses, x) < |uses|
    decreases |uses|
  {
    assert (uses + [k])[..|uses|] == uses;
    forall x
      ensures LastUse(uses, x) < |uses|
    {
      BeforeNow(uses, x);
    }
  }

  lemma {:induction false} BeforeNow<K>(uses: seq<K>, k: K)
    ensures LastUse(uses, k) < |uses|
    decreases |uses|
  {
    if uses != [] {
      BeforeNow(uses[..|uses| - 1], k);
    }
  }

  // ---------------------------------------------------------------------------------------------
  // The order
  // ---------------------------------------------------------------------------------------------

  lemma {:induction false} DropsAt<K(!new)>(s: seq<K>, k: K) returns (i: nat)
    requires k in s
    ensures i < |s| && s[i] == k && Drop(s, k) == s[..i] + s[i + 1..]
  {
    if s[0] == k {
      i := 0;
      assert s[..0] + s[1..] == s[1..];
    } else {
      var rest := s[1..];
      assert s == [s[0]] + rest;
      var j := DropsAt(rest, k);
      i := j + 1;
      PartsBehind(s[0], rest, j);
    }
  }

  lemma {:induction false} PartsBehind<T>(x: T, rest: seq<T>, j: nat)
    requires j < |rest|
    ensures var s := [x] + rest; s[..j + 1] + s[j + 2..] == [x] + (rest[..j] + rest[j + 1..])
  {
  }

  lemma {:induction false} DropsNothing<K(!new)>(s: seq<K>, k: K)
    requires k !in s
    ensures Drop(s, k) == s
  {
    if s != [] {
      assert s == [s[0]] + s[1..];
      DropsNothing(s[1..], k);
    }
  }

  /** What using a key can make of the order: it goes last, or out, and the first may have to go. */
  ghost predicate Reordered<K>(before: seq<K>, k: K, after: seq<K>) {
    var others := Drop(before, k);
    after == others || after == others + [k] || (k !in before && before != [] && after == (others + [k])[1..])
  }

  lemma {:induction false} OthersByUse<K(!new)>(order: seq<K>, uses: seq<K>, k: K)
    requires Distinct(order) && ByLastUse(order, uses)
    ensures ByLastUse(Drop(order, k), uses) && k !in Drop(order, k)
  {
    hide Drop, LastUse;
    DropKeeps(order, k);
    if k !in order {
      DropsNothing(order, k);
    } else {
      var i := DropsAt(order, k);
      var others := order[..i] + order[i + 1..];
      assert forall j | 0 <= j < |others| :: others[j] == order[if j < i then j else j + 1];
    }
  }

  lemma {:induction false} ReorderedByUse<K(!new)>(order: seq<K>, uses: seq<K>, k: K, after: seq<K>)
    requires Distinct(order) && ByLastUse(order, uses) && Reordered(order, k, after)
    ensures ByLastUse(after, uses + [k])
  {
    hide Drop, LastUse;
    OthersByUse(order, uses, k);
    UsedNow(uses, k);
    var others := Drop(order, k);
    assert ByLastUse(others, uses + [k]) by {
      assert forall i | 0 <= i < |others| :: others[i] in others;
    }
    var grown := others + [k];
    assert ByLastUse(grown, uses + [k]) by {
      assert forall i | 0 <= i < |others| :: grown[i] == others[i] && others[i] in others;
    }
    assert after == grown[1..] ==> forall i | 0 <= i < |after| :: after[i] == grown[i + 1];
  }

  lemma {:induction false} StoredReorders<K(!new), V>(c: Cache<K, V>, k: K, e: Entry<V>)
    requires WellFormed(c.lru)
    ensures Reordered(c.lru.order, k, Stored(c, k, e).cache.lru.order)
  {
    hide Drop;
    if k !in c.lru.order {
      DropsNothing(c.lru.order, k);
    }
  }

  lemma {:induction false} RemovedReorders<K(!new), V>(c: Cache<K, V>, k: K)
    requires WellFormed(c.lru)
    ensures Remove(c.lru, k).order == Drop(c.lru.order, k)
  {
    hide Drop;
    if k !in c.lru.order {
      DropsNothing(c.lru.order, k);
    }
  }

  /** A lookup that is no hit takes the key out before it may come in again. */
  lemma {:induction false} MissReorders<K(!new), V>(l: Lru<K, V>, k: K)
    requires WellFormed(l)
    ensures Drop(Touch(l, k).order, k) == Drop(l.order, k) && k !in Drop(l.order, k)
    ensures WellFormed(Remove(Touch(l, k), k)) && Remove(Touch(l, k), k).order == Drop(l.order, k)
  {
    TouchKeeps(l, k);
    RemoveKeeps(Touch(l, k), k);
    DropKeeps(l.order, k);
    hide WellFormed;
    if k in l.items {
      DropsLast(Drop(l.order, k), k);
    } else if k !in l.order {
      DropsNothing(l.order, k);
    }
    assert k in l.items <==> k in l.order by { InBoth(l, k); }
  }

  lemma {:induction false} InBoth<K(!new), V>(l: Lru<K, V>, k: K)
    requires WellFormed(l)
    ensures k in l.items <==> k in l.order
  {
  }

  lemma {:induction false} DropsLast<K(!new)>(s: seq<K>, k: K)
    requires k !in s
    ensures Drop(s + [k], k) == s
  {
    if s == [] {
      assert [k][1..] == [] && [] + [k] == [k];
    } else {
      assert s == [s[0]] + s[1..];
      DropsLast(s[1..], k);
      assert (s + [k])[0] == s[0] && (s + [k])[1..] == s[1..] + [k];
    }
  }

  lemma {:induction false} GotReorders<K(!new), V>(c: Cache<K, V>, k: K, ttl: int, now: int, later: int, load: Load<V>)
    requires WellFormed(c.lru)
    ensures Reordered(c.lru.order, k, Got(c, k, ttl, now, later, load).0.cache.lru.order)
  {
    var l := Touch(c.lru, k);
    TouchKeeps(c.lru, k);
    InBoth(c.lru, k);
    if k in l.items && (l.items[k].Present? || now < l.items[k].expireAt) {
    } else {
      MissReorders(c.lru, k);
      var missed := Cache(Remove(l, k), c.stats.(misses := c.stats.misses + 1));
      LoadReorders(missed, c.lru.order, k, ttl, later, load);
    }
  }

  /** A load puts the key last, if it puts it in. */
  lemma {:induction false} LoadReorders<K(!new), V>(c: Cache<K, V>, before: seq<K>, k: K, ttl: int, now: int,
                                                    load: Load<V>)
    requires WellFormed(c.lru) && c.lru.order == Drop(before, k) && k !in c.lru.order
    requires |c.lru.order| == c.lru.capacity ==> k !in before
    ensures Reordered(before, k, AfterLoad(c, k, ttl, now, load).0.cache.lru.order)
  {
  }

  // ---------------------------------------------------------------------------------------------
  // Over runs
  // ---------------------------------------------------------------------------------------------

  lemma {:induction false} StepByLastUse<K(!new), V>(ttl: int, w: World<K, V>, e: Event<K, V>, uses: seq<K>)
    requires WellFormed(w.cache.lru) && ByLastUse(w.cache.lru.order, uses)
    ensures ByLastUse(Step(ttl, w, e).cache.lru.order, uses + UseOf(w, e))
  {
    hide ByLastUse, Reordered, Got, Stored, Remove, Drop;
    var order := w.cache.lru.order;
    assert UseOf(w, e) == [] ==> uses + UseOf(w, e) == uses;
    OrderDistinct(w.cache.lru);
    match e
    case MasterSet(k, v) =>
      if k in w.cache.lru.items {
        StoredReorders(w.cache, k, Present(v));
        ReorderedByUse(order, uses, k, Stored(w.cache, k, Present(v)).cache.lru.order);
      }
    case MasterDelete(k) => RemovedReorders(w.cache, k); OthersByUse(order, uses, k);
    case Lookup(k, now, later, fails) =>
      var load := LoadFrom(w.master, k, fails);
      GotReorders(w.cache, k, ttl, now, later, load);
      ReorderedByUse(order, uses, k, Got(w.cache, k, ttl, now, later, load).0.cache.lru.order);
    case FullSync(k) =>
      if k in w.master {
        StoredReorders(w.cache, k, Present(w.master[k]));
        ReorderedByUse(order, uses, k, Stored(w.cache, k, Present(w.master[k])).cache.lru.order);
      }
    case Evict(k) => RemovedReorders(w.cache, k); OthersByUse(order, uses, k);
  }

  lemma {:induction false} OrderDistinct<K(!new), V>(l: Lru<K, V>)
    requires WellFormed(l)
    ensures Distinct(l.order)
  {
  }

  lemma {:induction false} RunByLastUse<K(!new), V>(capacity: nat, ttl: int, events: seq<Event<K, V>>)
    requires capacity > 0
    ensures ByLastUse(Run(capacity, ttl, events).cache.lru.order, Uses(capacity, ttl, events))
    decreases |events|
  {
    if events != [] {
      hide Step, UseOf, ByLastUse, Coherent;
      var n := |events| - 1;
      RunByLastUse(capacity, ttl, events[..n]);
      RunCoherent(capacity, ttl, events[..n]);
      CoherentForm(Run(capacity, ttl, events[..n]));
      StepByLastUse(ttl, Run(capacity, ttl, events[..n]), events[n], Uses(capacity, ttl, events[..n]));
    }
  }

  lemma {:induction false} CoherentForm<K(!new), V>(w: World<K, V>)
    requires Coherent(w)
    ensures WellFormed(w.cache.lru)
  {
  }

  /** An entry that goes out for another key is the first of a full cache. */
  lemma {:induction false} GoneIsFirst<K(!new), V>(ttl: int, w: World<K, V>, e: Event<K, V>, x: K)
    requires WellFormed(w.cache.lru) && x != e.key
    requires x in w.cache.lru.items && x !in Step(ttl, w, e).cache.lru.items
    ensures var l := w.cache.lru; |l.order| == l.capacity && l.order[0] == x
  {
    hide WellFormed, Add, Remove, Touch;
    var c := w.cache;
    match e
    case MasterSet(k, v) => AddKeeps(c.lru, k, Present(v));
    case MasterDelete(k) => RemoveKeeps(c.lru, k);
    case Lookup(k, now, later, fails) => GotGone(c, k, ttl, now, later, LoadFrom(w.master, k, fails), x);
    case FullSync(k) => if k in w.master { AddKeeps(c.lru, k, Present(w.master[k])); }
    case Evict(k) => RemoveKeeps(c.lru, k);
  }

  lemma {:induction false} GotGone<K(!new), V>(c: Cache<K, V>, k: K, ttl: int, now: int, later: int, load: Load<V>,
                                                x: K)
    requires WellFormed(c.lru) && x != k
    requires x in c.lru.items && x !in Got(c, k, ttl, now, later, load).0.cache.lru.items
    ensures |c.lru.order| == c.lru.capacity && c.lru.order[0] == x
  {
    hide WellFormed, Add, Drop;
    TouchKeeps(c.lru, k);
    MissReorders(c.lru, k);
    RemoveKeeps(Touch(c.lru, k), k);
    var missed := Remove(Touch(c.lru, k), k);
    assert x in missed.items;
    AddKeeps(missed, k, Missing(later + ttl));
    if load.Loaded? { AddKeeps(missed, k, Present(load.value)); }
    Shorter(c.lru, k);
  }

  lemma {:induction false} Shorter<K(!new), V>(l: Lru<K, V>, k: K)
    requires WellFormed(l)
    ensures |Drop(l.order, k)| == l.capacity ==> Drop(l.order, k) == l.order
  {
    DropKeeps(l.order, k);
    if k !in l.order {
      DropsNothing(l.order, k);
    }
  }

  /** After any run, an entry that has to go for another key was used before every other one. */
  lemma {:induction false} EvictsLeastRecent<K(!new), V>(capacity: nat, ttl: int, events: seq<Event<K, V>>,
                                                         e: Event<K, V>, x: K, y: K)
    requires capacity > 0 && x != e.key && x != y
    requires var w := Run(capacity, ttl, events);
      x in w.cache.lru.items && y in w.cache.lru.items && x !in Step(ttl, w, e).cache.lru.items
    ensures var uses := Uses(capacity, ttl, events); LastUse(uses, x) < LastUse(uses, y)
  {
    hide Run, Uses, Step, Coherent, LastUse;
    var w := Run(capacity, ttl, events);
    RunCoherent(capacity, ttl, events);
    CoherentForm(w);
    GoneIsFirst(ttl, w, e, x);
    RunByLastUse(capacity, ttl, events);
    InBoth(w.cache.lru, y);
    var j :| 0 <= j < |w.cache.lru.order| && w.cache.lru.order[j] == y;
  }

  // ---------------------------------------------------------------------------------------------
  // Negative entries
  // ---------------------------------------------------------------------------------------------

  /** What a lookup answers that has to ask the loader. */
  function Asked<V>(load: Load<V>): Answer<V> {
    match load
    case NoLoader => Nothing
    case Loaded(v) => Hit(v)
    case Absent => NotFound
    case Failed => LoadError
  }

  /**
   * A key that the loader did not know at some time is answered from the note for exactly the lifetime of
   * negative entries after that; then, and always when there is no lifetime, the loader is asked again.
   */
  lemma {:induction false} NoteLasts<K(!new), V>(c: Cache<K, V>, k: K, ttl: int, now: int, noted: int,
                                                 again: int, later: int, load: Load<V>)
    requires WellFormed(c.lru) && !Fresh(c, k, now)
    ensures var after := Got(c, k, ttl, now, noted, Absent).0.cache;
      var (change, answer) := Got(after, k, ttl, again, later, load);
      if ttl > 0 && again < noted + ttl then
        answer == NotFound && change.cache.stats == after.stats.(negativeHits := after.stats.negativeHits + 1)
      else answer == Asked(load) && change.cache.stats.misses == after.stats.misses + 1
  {
    hide WellFormed, Touch, Remove, Add;
    TouchKeeps(c.lru, k);
    var l := Touch(c.lru, k);
    RemoveKeeps(l, k);
    AddKeeps(Remove(l, k), k, Missing(noted + ttl));
    var after := Got(c, k, ttl, now, noted, Absent).0.cache;
    TouchKeeps(after.lru, k);
  }

  /** A lookup counts one thing: a hit for a value, a negative hit for a note that is good, and else a miss. */
  lemma {:induction false} LookupCounts<K(!new), V>(c: Cache<K, V>, k: K, ttl: int, now: int, later: int, load: Load<V>)
    ensures var a, b := c.stats, Got(c, k, ttl, now, later, load).0.cache.stats;
      var held := k in c.lru.items;
      && b.hits == a.hits + (if held && c.lru.items[k].Present? then 1 else 0)
      && b.negativeHits == a.negativeHits + (if held && !c.lru.items[k].Present? && Fresh(c, k, now) then 1 else 0)
      && b.misses == a.misses + (if Fresh(c, k, now) then 0 else 1)
      && b.loadErrors == a.loadErrors + (if !Fresh(c, k, now) && load.Failed? then 1 else 0)
      && b.invalidations == a.invalidations
  {
    hide Add, Remove, Drop;
  }
}
