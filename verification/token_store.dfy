/**
 * The token store of an agent (internal/agent/cache/store_token.go): the cache by API key and an index from
 * token ids to keys, which the eviction callback keeps in step (internal/agent/cache/store.go:170-191).
 */
module TokenStores {
  import opened Options
  import opened LruCaches

  /** `rest` stands for the columns that are only carried along. */
  datatype Token = Token(id: nat, key: string, rest: int)

  type Index = map<nat, string>

  datatype Tokens = Tokens(primary: Cache<string, Token>, byId: Index)

  /** What fetching a token by id gives; the wiring of the store passes no fetcher. */
  datatype Fetch = NoFetcher | FetchFailed | FetchedNothing | Fetched(token: Token)

  // ---------------------------------------------------------------------------------------------
  // The store on values
  // ---------------------------------------------------------------------------------------------

  /** The eviction callback, once for each token it is given. */
  function Unindexed(byId: Index, fired: seq<Token>): Index {
    if fired == [] then byId else Unindexed(byId - {fired[0].id}, fired[1..])
  }

  function After(s: Tokens, c: Change<string, Token>): Tokens {
    Tokens(c.cache, Unindexed(s.byId, c.fired))
  }

  function WithToken(s: Tokens, t: Token): Tokens {
    var after := After(s, Stored(s.primary, t.key, Present(t)));
    after.(byId := after.byId[t.id := t.key])
  }

  function Peeked(c: Cache<string, Token>, key: string): Option<Token> {
    if key in c.lru.items && c.lru.items[key].Present? then Some(c.lru.items[key].value) else None
  }

  /** The index without the id of the token at a key. */
  function Forgotten(s: Tokens, key: string): Index {
    var cached := Peeked(s.primary, key);
    if cached.Some? then s.byId - {cached.value.id} else s.byId
  }

  function WithoutKey(s: Tokens, key: string): Tokens {
    After(s.(byId := Forgotten(s, key)), Deleted(s.primary, key))
  }

  function WithoutId(s: Tokens, id: nat): Tokens {
    if id !in s.byId then s
    else
      var after := After(s, Deleted(s.primary, s.byId[id]));
      after.(byId := after.byId - {id})
  }

  function Fallback(s: Tokens, fetch: Fetch): (Tokens, Answer<Token>) {
    match fetch
    case NoFetcher => (s, Nothing)
    case FetchFailed => (s, LoadError)
    case FetchedNothing => (s, Nothing)
    case Fetched(t) => (WithToken(s, t), Hit(t))
  }

  function GotByKey(s: Tokens, key: string, ttl: int, now: int, later: int, load: Load<Token>)
      : (Tokens, Answer<Token>) {
    var (c, answer) := Got(s.primary, key, ttl, now, later, load);
    (After(s, c), answer)
  }

  function GotById(s: Tokens, id: nat, ttl: int, now: int, later: int, load: Load<Token>, fetch: Fetch)
      : (Tokens, Answer<Token>)
  {
    if id !in s.byId then Fallback(s, fetch)
    else
      var (after, answer) := GotByKey(s, s.byId[id], ttl, now, later, load);
      if answer.Nothing? then Fallback(after.(byId := after.byId - {id}), fetch) else (after, answer)
  }

  datatype Push = PushSet | PushDelete

  function Pushed(s: Tokens, push: Push, t: Token): Tokens {
    match push
    case PushSet => After(s, Applied(s.primary, ActionSet(t), t.key))
    case PushDelete =>
      var after := After(s, Applied(s.primary, ActionDelete, t.key));
      after.(byId := after.byId - {t.id})
  }

  // ---------------------------------------------------------------------------------------------
  // The store as it runs
  // ---------------------------------------------------------------------------------------------

  class TokenStore {
    const primary: LruCache<string, Token>
    var byId: Index

    ghost function State(): Tokens
      reads this, primary
    {
      Tokens(primary.State(), byId)
    }

    constructor (capacity: nat, negativeTtl: int)
      requires capacity > 0
      ensures fresh(primary) && primary.negativeTtl == negativeTtl
      ensures State() == Tokens(Cache(Lru(capacity, [], map[]), Stats(0, 0, 0, 0, 0, 0)), map[])
    {
      primary := new LruCache(capacity, negativeTtl);
      byId := map[];
    }

    method OnEvict(fired: seq<Token>)
      modifies this
      ensures byId == Unindexed(old(byId), fired)
    {
      var i := 0;
      while i < |fired|
        invariant 0 <= i <= |fired|
        invariant Unindexed(byId, fired[i..]) == Unindexed(old(byId), fired)
      {
        assert fired[i..][1..] == fired[i + 1..];
        byId := byId - {fired[i].id};
        i := i + 1;
      }
    }

    method Set(t: Token)
      modifies this, primary
      ensures State() == WithToken(old(State()), t)
    {
      hide Stored;
      var fired := primary.Set(t.key, t);
      OnEvict(fired);
      byId := byId[t.id := t.key];
    }

    method Delete(key: string)
      modifies this, primary
      ensures State() == WithoutKey(old(State()), key)
    {
      hide Deleted;
      var found := primary.Peek(key);
      if found.Some? {
        byId := byId - {found.value.id};
      }
      var fired := primary.Delete(key);
      OnEvict(fired);
    }

    method DeleteById(id: nat)
      modifies this, primary
      ensures State() == WithoutId(old(State()), id)
    {
      hide Deleted;
      if id in byId {
        var fired := primary.Delete(byId[id]);
        OnEvict(fired);
        byId := byId - {id};
      }
    }

    method Get(key: string, now: int, later: int, load: Load<Token>) returns (answer: Answer<Token>)
      modifies this, primary
      ensures (State(), answer) == GotByKey(old(State()), key, primary.negativeTtl, now, later, load)
    {
      hide Got;
      var fired;
      answer, fired := primary.Get(key, now, later, load);
      OnEvict(fired);
    }

    method GetById(id: nat, now: int, later: int, load: Load<Token>, fetch: Fetch) returns (answer: Answer<Token>)
      modifies this, primary
      ensures (State(), answer) == GotById(old(State()), id, primary.negativeTtl, now, later, load, fetch)
    {
      hide GotByKey, Fallback;
      if id !in byId {
        answer := FallbackById(fetch);
        return;
      }
      answer := Get(byId[id], now, later, load);
      if !answer.Nothing? {
        return;
      }
      byId := byId - {id};
      answer := FallbackById(fetch);
    }

    method FallbackById(fetch: Fetch) returns (answer: Answer<Token>)
      modifies this, primary
      ensures (State(), answer) == Fallback(old(State()), fetch)
    {
      hide WithToken;
      match fetch
      case NoFetcher => answer := Nothing;
      case FetchFailed => answer := LoadError;
      case FetchedNothing => answer := Nothing;
      case Fetched(t) =>
        Set(t);
        answer := Hit(t);
    }

    method Apply(push: Push, t: Token)
      modifies this, primary
      ensures State() == Pushed(old(State()), push, t)
    {
      hide Applied;
      match push
      case PushSet =>
        var fired := primary.Apply(ActionSet(t), t.key);
        OnEvict(fired);
      case PushDelete =>
        var fired := primary.Apply(ActionDelete, t.key);
        OnEvict(fired);
        byId := byId - {t.id};
    }
  }

  // ---------------------------------------------------------------------------------------------
  // The index
  // ---------------------------------------------------------------------------------------------

  /** Every indexed id leads to a cached token with that id. */
  ghost predicate Leads(items: map<string, Entry<Token>>, byId: Index) {
    forall id | id in byId ::
      byId[id] in items && items[byId[id]].Present? && items[byId[id]].value.id == id
  }

  ghost predicate Sound(s: Tokens) {
    WellFormed(s.primary.lru) && Leads(s.primary.lru.items, s.byId)
  }

  /** An entry that goes takes its id along. */
  lemma {:induction false} GoneIsUnindexed(items: map<string, Entry<Token>>, byId: Index, key: string)
    requires Leads(items, byId)
    ensures Leads(items - {key}, Unindexed(byId, Fired(if key in items then Some(items[key]) else None)))
  {
    if key in items && items[key].Present? {
      var t := items[key].value;
      assert Unindexed(byId, [t]) == Unindexed(byId - {t.id}, []);
    }
  }

  /** No other id is indexed at the token's key. */
  ghost predicate OwnsKey(byId: Index, t: Token) {
    forall id | id in byId && byId[id] == t.key :: id == t.id
  }

  /** Storing a token keeps the index sound exactly when no other id leads to its key. */
  lemma {:induction false} StoredLeads(c: Cache<string, Token>, byId: Index, t: Token)
    requires WellFormed(c.lru) && Leads(c.lru.items, byId)
    ensures var change := Stored(c, t.key, Present(t));
      var after := Unindexed(byId, change.fired);
      && WellFormed(change.cache.lru)
      && t.key in change.cache.lru.items && change.cache.lru.items[t.key] == Present(t)
      && (Leads(change.cache.lru.items, after) <==> OwnsKey(byId, t))
      && (Leads(change.cache.lru.items, after[t.id := t.key]) <==> OwnsKey(byId, t))
  {
    hide Add, WellFormed;
    AddKeeps(c.lru, t.key, Present(t));
    var a := Add(c.lru, t.key, Present(t));
    if a.evicted.Some? {
      assert OwnsKey(byId, t);
      GoneIsUnindexed(c.lru.items, byId, c.lru.order[0]);
      var items, after := c.lru.items - {c.lru.order[0]}, Unindexed(byId, Fired(a.evicted));
      assert a.lru.items == items[t.key := Present(t)];
    } else {
      assert Unindexed(byId, []) == byId;
      if !OwnsKey(byId, t) {
        var id :| id in byId && byId[id] == t.key && id != t.id;
        assert !Leads(a.lru.items, byId);
        assert byId[t.id := t.key][id] == t.key;
      }
    }
  }

  lemma {:induction false} SetKeepsSound(s: Tokens, t: Token)
    requires Sound(s)
    ensures Sound(WithToken(s, t)) <==> OwnsKey(s.byId, t)
  {
    hide Stored, WellFormed, Leads;
    StoredLeads(s.primary, s.byId, t);
  }

  /** A pushed token does the same, where its key is cached at all. */
  lemma {:induction false} PushKeepsSound(s: Tokens, push: Push, t: Token)
    requires Sound(s)
    ensures Sound(Pushed(s, push, t)) <==> push.PushDelete? || OwnsKey(s.byId, t)
  {
    hide Stored, WellFormed;
    match push
    case PushSet =>
      if t.key in s.primary.lru.items {
        StoredLeads(s.primary, s.byId, t);
      } else {
        assert OwnsKey(s.byId, t);
      }
    case PushDelete => DeletedIsSound(s, t.key);
  }

  lemma {:induction false} DeletedIsSound(s: Tokens, key: string)
    requires Sound(s)
    ensures Sound(After(s, Deleted(s.primary, key)))
  {
    hide WellFormed, Leads, Remove, Unindexed;
    RemoveKeeps(s.primary.lru, key);
    GoneIsUnindexed(s.primary.lru.items, s.byId, key);
  }

  lemma {:induction false} FewerIdsLead(items: map<string, Entry<Token>>, byId: Index, id: nat)
    requires Leads(items, byId)
    ensures Leads(items, byId - {id})
  {
  }

  /** Removing a token, by key or by id, keeps the index sound, and what was removed is gone. */
  lemma {:induction false} DeleteKeepsSound(s: Tokens, key: string, id: nat)
    requires Sound(s)
    ensures Sound(WithoutKey(s, key)) && Sound(WithoutId(s, id))
    ensures key !in WithoutKey(s, key).primary.lru.items && id !in WithoutId(s, id).byId
  {
    RemoveKeeps(s.primary.lru, key);
    hide WellFormed, Leads, Remove, Unindexed;
    if Peeked(s.primary, key).Some? {
      FewerIdsLead(s.primary.lru.items, s.byId, Peeked(s.primary, key).value.id);
    }
    DeletedIsSound(s.(byId := Forgotten(s, key)), key);
    if id in s.byId {
      DeletedIsSound(s, s.byId[id]);
      var after := After(s, Deleted(s.primary, s.byId[id]));
      FewerIdsLead(after.primary.lru.items, after.byId, id);
    }
  }

  /** An entry at a key no id leads to. */
  lemma {:induction false} StoredElsewhere(c: Cache<string, Token>, byId: Index, key: string, e: Entry<Token>)
    requires WellFormed(c.lru) && Leads(c.lru.items, byId)
    requires forall id | id in byId :: byId[id] != key
    ensures var change := Stored(c, key, e);
      WellFormed(change.cache.lru) && Leads(change.cache.lru.items, Unindexed(byId, change.fired))
  {
    hide Add, WellFormed;
    AddKeeps(c.lru, key, e);
    var a := Add(c.lru, key, e);
    if a.evicted.Some? {
      GoneIsUnindexed(c.lru.items, byId, c.lru.order[0]);
      FewerUnindexed(byId, Fired(a.evicted));
      assert a.lru.items == (c.lru.items - {c.lru.order[0]})[key := e];
    }
  }

  lemma {:induction false} FewerUnindexed(byId: Index, fired: seq<Token>)
    ensures forall id | id in Unindexed(byId, fired) :: id in byId && Unindexed(byId, fired)[id] == byId[id]
    decreases |fired|
  {
    if fired != [] {
      FewerUnindexed(byId - {fired[0].id}, fired[1..]);
    }
  }

  /** A key without a token is indexed by no id. */
  lemma {:induction false} MissIsUnindexed(items: map<string, Entry<Token>>, byId: Index, key: string)
    requires Leads(items, byId) && (key in items ==> items[key].Missing?)
    ensures Leads(items - {key}, byId) && forall id | id in byId :: byId[id] != key
  {
  }

  lemma {:induction false} LoadedLeads(c: Cache<string, Token>, byId: Index, key: string, ttl: int, now: int,
                                       load: Load<Token>)
    requires WellFormed(c.lru) && Leads(c.lru.items, byId)
    requires forall id | id in byId :: byId[id] != key
    ensures var change := AfterLoad(c, key, ttl, now, load).0;
      WellFormed(change.cache.lru) && Leads(change.cache.lru.items, Unindexed(byId, change.fired))
  {
    hide Stored, WellFormed, Leads;
    match load
    case NoLoader =>
    case Loaded(t) => StoredElsewhere(c, byId, key, Present(t));
    case Absent => StoredElsewhere(c, byId, key, Missing(now + ttl));
    case Failed =>
  }

  /** Loading by key never puts a wrong entry behind an indexed id, whatever token the loader gives. */
  lemma {:induction false} GetKeepsSound(s: Tokens, key: string, ttl: int, now: int, later: int, load: Load<Token>)
    requires Sound(s)
    ensures Sound(GotByKey(s, key, ttl, now, later, load).0)
  {
    hide Stored, WellFormed, Leads, Touch, Remove;
    TouchKeeps(s.primary.lru, key);
    var l := Touch(s.primary.lru, key);
    if key in l.items && (l.items[key].Present? || now < l.items[key].expireAt) {
    } else {
      RemoveKeeps(l, key);
      MissIsUnindexed(l.items, s.byId, key);
      var missed := Cache(Remove(l, key), s.primary.stats.(misses := s.primary.stats.misses + 1));
      LoadedLeads(missed, s.byId, key, ttl, later, load);
    }
  }

  // ---------------------------------------------------------------------------------------------
  // What the operations do to the cached tokens
  // ---------------------------------------------------------------------------------------------

  /** What a lookup of a key that is not cached answers. */
  function Loader(load: Load<Token>): Answer<Token> {
    match load
    case NoLoader => Nothing
    case Loaded(t) => Hit(t)
    case Absent => NotFound
    case Failed => LoadError
  }

  /** The ids that go with the entry at a key. */
  ghost function IdsAt(s: Tokens, key: string): set<nat> {
    var items := s.primary.lru.items;
    if key in items && items[key].Present? then {items[key].value.id} else {}
  }

  /**
   * After a pushed delete the token's key is not cached and its id is not indexed, nor the id of what was
   * cached there; nothing else changes, and the next lookup by that key asks the loader.
   */
  lemma {:induction false} PushedDelete(s: Tokens, t: Token, ttl: int, now: int, later: int, load: Load<Token>)
    requires WellFormed(s.primary.lru)
    ensures var d := Pushed(s, PushDelete, t);
      && d.primary.lru.items == s.primary.lru.items - {t.key}
      && d.byId == s.byId - ({t.id} + IdsAt(s, t.key))
      && GotByKey(d, t.key, ttl, now, later, load).1 == Loader(load)
  {
    hide WellFormed, Remove, Stored, Touch;
    RemoveKeeps(s.primary.lru, t.key);
    var d := Pushed(s, PushDelete, t);
    TouchKeeps(d.primary.lru, t.key);
    UnindexedAt(s, t.key);
  }

  lemma {:induction false} UnindexedAt(s: Tokens, key: string)
    ensures Unindexed(s.byId, Fired(if key in s.primary.lru.items then Some(s.primary.lru.items[key]) else None))
      == s.byId - IdsAt(s, key)
  {
    if IdsAt(s, key) != {} {
      var id := s.primary.lru.items[key].value.id;
      assert Unindexed(s.byId - {id}, []) == s.byId - {id};
    }
  }

  /** After a pushed set a key that was cached holds the token; a store without the key is unchanged. */
  lemma {:induction false} PushedSet(s: Tokens, t: Token)
    requires WellFormed(s.primary.lru)
    ensures var p := Pushed(s, PushSet, t);
      && p.byId == s.byId
      && (t.key !in s.primary.lru.items ==> p == s)
      && (t.key in s.primary.lru.items ==> p.primary.lru.items == s.primary.lru.items[t.key := Present(t)])
  {
    hide WellFormed, Add;
    AddKeeps(s.primary.lru, t.key, Present(t));
    assert Unindexed(s.byId, []) == s.byId;
  }

  /** After a set the token is cached at its key and its id leads there; no other entry changes, but one may go. */
  lemma {:induction false} SetMeaning(s: Tokens, t: Token)
    requires WellFormed(s.primary.lru)
    ensures var d := WithToken(s, t);
      && t.key in d.primary.lru.items && d.primary.lru.items[t.key] == Present(t)
      && t.id in d.byId && d.byId[t.id] == t.key
      && (forall k | k in d.primary.lru.items && k != t.key ::
            k in s.primary.lru.items && d.primary.lru.items[k] == s.primary.lru.items[k])
      && (t.key in s.primary.lru.items || |s.primary.lru.order| < s.primary.lru.capacity ==>
            d.primary.lru.items == s.primary.lru.items[t.key := Present(t)] && d.byId == s.byId[t.id := t.key])
  {
    hide WellFormed, Add;
    AddKeeps(s.primary.lru, t.key, Present(t));
    OrderFits(s.primary.lru);
    assert Unindexed(s.byId, []) == s.byId;
  }

  lemma {:induction false} OrderFits(l: Lru<string, Token>)
    requires WellFormed(l)
    ensures |l.order| <= l.capacity
  {
  }

  /**
   * A lookup by an id that is not indexed, or by one whose key has nothing to answer, asks the fetcher: what it
   * fetches is stored and returned, its failure is passed on, and otherwise there is nothing.
   */
  lemma {:induction false} LookupById(s: Tokens, id: nat, ttl: int, now: int, later: int, load: Load<Token>,
                                      fetch: Fetch)
    ensures var (after, answer) := GotById(s, id, ttl, now, later, load, fetch);
      if id in s.byId && !GotByKey(s, s.byId[id], ttl, now, later, load).1.Nothing? then
        (after, answer) == GotByKey(s, s.byId[id], ttl, now, later, load)
      else
        var asked := if id in s.byId then GotByKey(s, s.byId[id], ttl, now, later, load).0 else s;
        var before := asked.(byId := asked.byId - {id});
        if fetch.Fetched? then answer == Hit(fetch.token) && after == WithToken(before, fetch.token)
        else after == before && answer == if fetch.FetchFailed? then LoadError else Nothing
  {
    hide GotByKey, WithToken;
    assert id !in s.byId ==> s.byId - {id} == s.byId;
  }

  /** Removing by key or by id takes out one key with its id; what is not there changes nothing. */
  lemma {:induction false} Removed(s: Tokens, key: string, id: nat)
    requires WellFormed(s.primary.lru)
    ensures var d := WithoutKey(s, key);
      d.primary.lru.items == s.primary.lru.items - {key} && d.byId == s.byId - IdsAt(s, key)
    ensures id !in s.byId ==> WithoutId(s, id) == s
    ensures id in s.byId ==> var d := WithoutId(s, id);
      && d.primary.lru.items == s.primary.lru.items - {s.byId[id]}
      && d.byId == s.byId - ({id} + IdsAt(s, s.byId[id]))
  {
    hide WellFormed, Remove;
    RemoveKeeps(s.primary.lru, key);
    UnindexedAt(s.(byId := Forgotten(s, key)), key);
    if id in s.byId {
      RemoveKeeps(s.primary.lru, s.byId[id]);
      UnindexedAt(s, s.byId[id]);
    }
  }

  // ---------------------------------------------------------------------------------------------
  // Runs
  // ---------------------------------------------------------------------------------------------

  datatype Op =
    | Set(token: Token)
    | Delete(key: string)
    | DeleteById(id: nat)
    | Apply(push: Push, token: Token)
    | Get(key: string, now: int, later: int, load: Load<Token>)
    | GetById(id: nat, now: int, later: int, load: Load<Token>, fetch: Fetch)

  function Step(s: Tokens, ttl: int, op: Op): Tokens {
    match op
    case Set(t) => WithToken(s, t)
    case Delete(key) => WithoutKey(s, key)
    case DeleteById(id) => WithoutId(s, id)
    case Apply(push, t) => Pushed(s, push, t)
    case Get(key, now, later, load) => GotByKey(s, key, ttl, now, later, load).0
    case GetById(id, now, later, load, fetch) => GotById(s, id, ttl, now, later, load, fetch).0
  }

  function Run(capacity: nat, ttl: int, ops: seq<Op>): Tokens {
    if ops == [] then Tokens(Cache(Lru(capacity, [], map[]), Stats(0, 0, 0, 0, 0, 0)), map[])
    else Step(Run(capacity, ttl, ops[..|ops| - 1]), ttl, ops[|ops| - 1])
  }

  /** The token an operation brings, other than by loading a key. */
  function Brought(op: Op): Option<Token> {
    match op
    case Set(t) => Some(t)
    case Apply(PushSet, t) => Some(t)
    case GetById(_, _, _, _, Fetched(t)) => Some(t)
    case _ => None
  }

  /** A key is the key of one token only. */
  ghost predicate OneIdPerKey(ops: seq<Op>, idOf: string -> nat) {
    forall op | op in ops && Brought(op).Some? :: Brought(op).value.id == idOf(Brought(op).value.key)
  }

  ghost predicate IndexedAs(byId: Index, idOf: string -> nat) {
    forall id | id in byId :: id == idOf(byId[id])
  }

  /** In a sound state a lookup by an indexed id is a hit for that id, without a load or a fetch. */
  lemma {:induction false} IndexedIdHits(s: Tokens, id: nat, ttl: int, now: int, later: int, load: Load<Token>,
                                         fetch: Fetch)
    requires Sound(s) && id in s.byId
    ensures var (after, answer) := GotById(s, id, ttl, now, later, load, fetch);
      && answer == Hit(s.primary.lru.items[s.byId[id]].value) && answer.value.id == id
      && Sound(after) && after.byId == s.byId && after.primary.lru.items == s.primary.lru.items
      && after.primary.stats == s.primary.stats.(hits := s.primary.stats.hits + 1)
  {
    hide WellFormed, Touch, Remove;
    TouchKeeps(s.primary.lru, s.byId[id]);
    assert Unindexed(s.byId, []) == s.byId;
  }

  lemma {:induction false} StepSound(s: Tokens, ttl: int, op: Op, idOf: string -> nat)
    requires Sound(s) && IndexedAs(s.byId, idOf)
    requires Brought(op).Some? ==> Brought(op).value.id == idOf(Brought(op).value.key)
    ensures Sound(Step(s, ttl, op)) && IndexedAs(Step(s, ttl, op).byId, idOf)
  {
    hide Sound, Got, Stored, Deleted, Applied, Unindexed;
    match op
    case Set(t) => SetKeepsSound(s, t);
      FewerUnindexed(s.byId, Stored(s.primary, t.key, Present(t)).fired);
    case Delete(key) => DeleteKeepsSound(s, key, 0);
      FewerUnindexed(Forgotten(s, key), Deleted(s.primary, key).fired);
    case DeleteById(id) => DeleteKeepsSound(s, "", id);
      if id in s.byId { FewerUnindexed(s.byId, Deleted(s.primary, s.byId[id]).fired); }
    case Apply(push, t) => PushKeepsSound(s, push, t);
      FewerUnindexed(s.byId, Applied(s.primary, if push.PushSet? then ActionSet(t) else ActionDelete, t.key).fired);
    case Get(key, now, later, load) => GetKeepsSound(s, key, ttl, now, later, load);
      FewerUnindexed(s.byId, Got(s.primary, key, ttl, now, later, load).0.fired);
    case GetById(id, now, later, load, fetch) =>
      if id in s.byId {
        IndexedIdHits(s, id, ttl, now, later, load, fetch);
      } else if fetch.Fetched? {
        SetKeepsSound(s, fetch.token);
        FewerUnindexed(s.byId, Stored(s.primary, fetch.token.key, Present(fetch.token)).fired);
      }
  }

  /** After any run in which no key ever stands for two ids, the index is sound. */
  lemma {:induction false} RunSound(capacity: nat, ttl: int, ops: seq<Op>, idOf: string -> nat)
    requires capacity > 0 && OneIdPerKey(ops, idOf)
    ensures Sound(Run(capacity, ttl, ops)) && IndexedAs(Run(capacity, ttl, ops).byId, idOf)
    decreases |ops|
  {
    if ops != [] {
      hide Step, Sound, IndexedAs;
      var n := |ops| - 1;
      RunSound(capacity, ttl, ops[..n], idOf);
      StepSound(Run(capacity, ttl, ops[..n]), ttl, ops[n], idOf);
    }
  }

  /** A token that was set is found by its key and by its id, until something else happens. */
  lemma {:induction false} SetThenGet(s: Tokens, t: Token, ttl: int, now: int, later: int, load: Load<Token>,
                                      fetch: Fetch)
    requires Sound(s) && OwnsKey(s.byId, t)
    ensures GotByKey(WithToken(s, t), t.key, ttl, now, later, load).1 == Hit(t)
    ensures GotById(WithToken(s, t), t.id, ttl, now, later, load, fetch).1 == Hit(t)
  {
    hide Stored, WellFormed, Leads, Touch, Remove, Unindexed;
    var after := WithToken(s, t);
    StoredLeads(s.primary, s.byId, t);
    TouchKeeps(after.primary.lru, t.key);
    IndexedIdHits(after, t.id, ttl, now, later, load, fetch);
  }

  // ---------------------------------------------------------------------------------------------
  // Size
  // ---------------------------------------------------------------------------------------------

  lemma {:induction false} IndexFits(items: map<string, Entry<Token>>, byId: Index)
    requires Leads(items, byId)
    ensures |byId| <= |items|
    decreases |byId|
  {
    if byId != map[] {
      var id :| id in byId;
      var fewer := byId - {id};
      assert fewer.Keys == byId.Keys - {id};
      assert (items - {byId[id]}).Keys == items.Keys - {byId[id]};
      IndexFits(items - {byId[id]}, fewer);
    }
  }

  /** A sound index is never larger than the cache it leads to. */
  lemma {:induction false} IndexBounded(s: Tokens)
    requires Sound(s)
    ensures |s.byId| <= |s.primary.lru.items| <= s.primary.lru.capacity
  {
    SizeIsLength(s.primary.lru);
    IndexFits(s.primary.lru.items, s.byId);
  }

  lemma {:induction false} StepCapacity(s: Tokens, ttl: int, op: Op)
    ensures Step(s, ttl, op).primary.lru.capacity == s.primary.lru.capacity
  {
    hide Unindexed, Drop, Fired;
    match op
    case GetById(id, now, later, load, fetch) =>
      if id in s.byId {
        KeyCapacity(s, s.byId[id], ttl, now, later, load);
        hide GotByKey;
      }
    case Get(key, now, later, load) => KeyCapacity(s, key, ttl, now, later, load);
    case _ =>
  }

  lemma {:induction false} KeyCapacity(s: Tokens, key: string, ttl: int, now: int, later: int, load: Load<Token>)
    ensures GotByKey(s, key, ttl, now, later, load).0.primary.lru.capacity == s.primary.lru.capacity
  {
    hide Unindexed, Drop, Fired;
  }

  lemma {:induction false} RunIndexBounded(capacity: nat, ttl: int, ops: seq<Op>, idOf: string -> nat)
    requires capacity > 0 && OneIdPerKey(ops, idOf)
    ensures |Run(capacity, ttl, ops).byId| <= capacity
  {
    hide Run, Sound;
    RunSound(capacity, ttl, ops, idOf);
    IndexBounded(Run(capacity, ttl, ops));
    RunCapacity(capacity, ttl, ops);
  }

  lemma {:induction false} RunCapacity(capacity: nat, ttl: int, ops: seq<Op>)
    ensures Run(capacity, ttl, ops).primary.lru.capacity == capacity
    decreases |ops|
  {
    if ops != [] {
      hide Step;
      RunCapacity(capacity, ttl, ops[..|ops| - 1]);
      StepCapacity(Run(capacity, ttl, ops[..|ops| - 1]), ttl, ops[|ops| - 1]);
    }
  }

  // ---------------------------------------------------------------------------------------------
  // Deleting by id
  // ---------------------------------------------------------------------------------------------

  predicate Holds(s: Tokens, key: string, id: nat) {
    Peeked(s.primary, key).Some? && Peeked(s.primary, key).value.id == id
  }

  /** Deleting by id removes the token at the indexed key only; one that was loaded by key stays cached. */
  lemma {:induction false} DeleteByIdLeaves(s: Tokens, id: nat, key: string)
    requires Sound(s)
    ensures Holds(WithoutId(s, id), key, id) <==> Holds(s, key, id) && !(id in s.byId && s.byId[id] == key)
  {
    hide WellFormed, Remove;
    if id in s.byId {
      RemoveKeeps(s.primary.lru, s.byId[id]);
    }
  }

  /** A token that was loaded by key is not indexed, so deleting it by id leaves it cached. */
  lemma {:induction false} LoadedTokenStays(capacity: nat, ttl: int, t: Token)
    requires capacity > 0
    ensures var ops := [Get(t.key, 0, 0, Loaded(t)), DeleteById(t.id)];
      Holds(Run(capacity, ttl, ops), t.key, t.id)
  {
    var first := Get(t.key, 0, 0, Loaded(t));
    var ops := [first, DeleteById(t.id)];
    assert ops[..1] == [first] && [first][..0] == [];
    var s := Run(capacity, ttl, [first]);
    assert Run(capacity, ttl, []).byId == map[];
    assert s == Step(Run(capacity, ttl, []), ttl, first);
    assert s.byId == map[];
    assert Run(capacity, ttl, ops) == Step(s, ttl, DeleteById(t.id));
  }
}
