/**
 * The route index of an agent (internal/agent/cache/route_index.go): stored routes grouped by source, each
 * group sorted by its stored priority, and the four tiers in which a request is matched
 * (internal/models/agent_route.go:17-33).  Groups are collected in the order a map is iterated in, which is
 * arbitrary.
 */
module RouteIndexes {
  import opened Options

  datatype Source = Token | Channel | Other

  datatype Route = Route(id: nat, source: Source, sourceId: nat, model: string, agentId: string, agentTag: string,
                         priority: int)

  type Groups = map<nat, seq<Route>>

  function CalcPriority(r: Route): int {
    match r.source
    case Token => if r.model != "" then 100 else 90
    case Channel => if r.model != "" then 80 else 70
    case Other => 0
  }

  // ---------------------------------------------------------------------------------------------
  // Sorting
  // ---------------------------------------------------------------------------------------------

  ghost predicate Descending(s: seq<Route>) {
    forall i, j | 0 <= i < j < |s| :: s[i].priority >= s[j].priority
  }

  lemma {:induction false} SwapPermutes<T>(s: seq<T>, i: nat, j: nat)
    requires i < |s| && j < |s|
    ensures multiset(s[i := s[j]][j := s[i]]) == multiset(s)
  {
  }

  /** The first i routes are in place. */
  ghost predicate SortedUpTo(s: seq<Route>, i: int) {
    forall p, q | 0 <= p < i && p < q < |s| :: s[p].priority >= s[q].priority
  }

  /** Route i is not below those before j. */
  ghost predicate TopOf(s: seq<Route>, i: nat, j: int)
    requires i < |s|
  {
    forall q | i < q < j && q < |s| :: s[i].priority >= s[q].priority
  }

  lemma {:induction false} SwapKeeps(s: seq<Route>, i: nat, j: nat)
    requires i < j < |s| && SortedUpTo(s, i) && TopOf(s, i, j) && s[j].priority > s[i].priority
    ensures var t := s[i := s[j]][j := s[i]];
      SortedUpTo(t, i) && TopOf(t, i, j + 1) && multiset(t) == multiset(s)
  {
    SwapPermutes(s, i, j);
  }

  lemma {:induction false} OneMore(s: seq<Route>, i: nat)
    requires i < |s| && SortedUpTo(s, i) && TopOf(s, i, |s|)
    ensures SortedUpTo(s, i + 1)
  {
  }

  /** The exchange sort, in place. */
  method SortRoutesByPriority(routes: array<Route>)
    modifies routes
    ensures Descending(routes[..]) && multiset(routes[..]) == multiset(old(routes[..]))
  {
    var i := 0;
    while i < routes.Length
      invariant 0 <= i <= routes.Length
      invariant multiset(routes[..]) == multiset(old(routes[..])) && SortedUpTo(routes[..], i)
    {
      var j := i + 1;
      while j < routes.Length
        invariant i < j <= routes.Length
        invariant multiset(routes[..]) == multiset(old(routes[..])) && SortedUpTo(routes[..], i)
        invariant TopOf(routes[..], i, j)
      {
        if routes[j].priority > routes[i].priority {
          ghost var before := routes[..];
          SwapKeeps(before, i, j);
          routes[i], routes[j] := routes[j], routes[i];
          assert routes[..] == before[i := before[j]][j := before[i]];
        }
        j := j + 1;
      }
      OneMore(routes[..], i);
      i := i + 1;
    }
  }

  // ---------------------------------------------------------------------------------------------
  // The index
  // ---------------------------------------------------------------------------------------------

  ghost predicate DistinctIds(s: seq<Route>) {
    forall i, j | 0 <= i < j < |s| :: s[i].id != s[j].id
  }

  /** A group holds, once each, the routes of one source among those with an id in `ids`. */
  ghost predicate Group(s: seq<Route>, routes: map<nat, Route>, ids: set<nat>, source: Source, sourceId: nat) {
    && DistinctIds(s)
    && forall r ::
         r in s <==> r.id in ids && r.id in routes && routes[r.id] == r && r.source == source && r.sourceId == sourceId
  }

  function At(groups: Groups, sourceId: nat): seq<Route> {
    if sourceId in groups then groups[sourceId] else []
  }

  ghost predicate Grouped(groups: Groups, routes: map<nat, Route>, ids: set<nat>, source: Source) {
    forall sourceId :: Group(At(groups, sourceId), routes, ids, source, sourceId)
  }

  ghost predicate Sorted(groups: Groups) {
    forall sourceId | sourceId in groups :: Descending(groups[sourceId])
  }

  /** The table keeps its keys. */
  ghost predicate Keyed(routes: map<nat, Route>) {
    forall id | id in routes :: routes[id].id == id
  }

  function Add(groups: Groups, r: Route): Groups {
    groups[r.sourceId := At(groups, r.sourceId) + [r]]
  }

  lemma {:induction false} GroupMore(s: seq<Route>, routes: map<nat, Route>, ids: set<nat>, id: nat,
                                     source: Source, sourceId: nat)
    requires Keyed(routes) && id in routes && id !in ids && Group(s, routes, ids, source, sourceId)
    ensures var mine := routes[id].source == source && routes[id].sourceId == sourceId;
      Group(if mine then s + [routes[id]] else s, routes, ids + {id}, source, sourceId)
  {
    var t := s + [routes[id]];
    assert forall r :: r in t <==> r in s || r == routes[id];
  }

  lemma {:induction false} GroupedMore(groups: Groups, routes: map<nat, Route>, ids: set<nat>, id: nat, source: Source)
    requires Keyed(routes) && id in routes && id !in ids && Grouped(groups, routes, ids, source)
    ensures Grouped(if routes[id].source == source then Add(groups, routes[id]) else groups, routes, ids + {id}, source)
  {
    var r := routes[id];
    var after := if r.source == source then Add(groups, r) else groups;
    forall sourceId
      ensures Group(At(after, sourceId), routes, ids + {id}, source, sourceId)
    {
      GroupMore(At(groups, sourceId), routes, ids, id, source, sourceId);
      assert At(after, sourceId)
        == if r.source == source && r.sourceId == sourceId then At(groups, sourceId) + [r] else At(groups, sourceId);
    }
  }

  lemma {:induction false} GroupPermuted(s: seq<Route>, t: seq<Route>, routes: map<nat, Route>, ids: set<nat>,
                                         source: Source, sourceId: nat)
    requires Group(s, routes, ids, source, sourceId) && multiset(s) == multiset(t)
    ensures Group(t, routes, ids, source, sourceId)
  {
    forall r
      ensures r in t <==> r in s
    {
      assert r in multiset(t) <==> r in multiset(s);
    }
    DistinctPermuted(s, t);
  }

  /** Routes with the same id are the same route, so a permutation has no id twice either. */
  lemma {:induction false} DistinctPermuted(s: seq<Route>, t: seq<Route>)
    requires DistinctIds(s) && multiset(s) == multiset(t)
    ensures DistinctIds(t)
  {
    forall i, j | 0 <= i < j < |t|
      ensures t[i].id != t[j].id
    {
      if t[i].id == t[j].id {
        assert t[i] in multiset(s) && t[j] in multiset(s);
        assert t[i] in s && t[j] in s;
        assert t[i] == t[j];
        OnceOnly(s, t[i]);
        TwiceAtLeast(t, i, j);
      }
    }
  }

  lemma {:induction false} OnceOnly(s: seq<Route>, r: Route)
    requires DistinctIds(s)
    ensures multiset(s)[r] <= 1
  {
    if s != [] {
      assert s == [s[0]] + s[1..];
      OnceOnly(s[1..], r);
      if s[0] == r {
        assert r !in s[1..];
      }
    }
  }

  lemma {:induction false} TwiceAtLeast<T>(t: seq<T>, i: nat, j: nat)
    requires i < j < |t| && t[i] == t[j]
    ensures multiset(t)[t[i]] >= 2
  {
    var a, b := t[..j], t[j..];
    assert t == a + b;
    assert a[i] == t[i] && b[0] == t[i];
    assert multiset(t) == multiset(a) + multiset(b);
    assert t[i] in multiset(a) && t[i] in multiset(b);
  }

  // ---------------------------------------------------------------------------------------------
  // Matching
  // ---------------------------------------------------------------------------------------------

  /** The first route of a group with exactly this model; the default routes have none. */
  function First(group: seq<Route>, model: string): Option<Route> {
    if group == [] then None
    else if group[0].model == model then Some(group[0])
    else First(group[1..], model)
  }

  /** The first channel, in the order given, that has such a route. */
  function FirstOf(groups: Groups, channelIds: seq<nat>, model: string): Option<Route> {
    if channelIds == [] then None
    else if First(At(groups, channelIds[0]), model).Some? then First(At(groups, channelIds[0]), model)
    else FirstOf(groups, channelIds[1..], model)
  }

  function Matched(byToken: Groups, byChannel: Groups, tokenId: nat, model: string,
                   channelIds: seq<nat>): Option<Route> {
    var group := At(byToken, tokenId);
    if model != "" && First(group, model).Some? then First(group, model)
    else if First(group, "").Some? then First(group, "")
    else if model != "" && FirstOf(byChannel, channelIds, model).Some? then FirstOf(byChannel, channelIds, model)
    else FirstOf(byChannel, channelIds, "")
  }

  class RouteIndex {
    var routes: map<nat, Route>
    var byToken: Groups
    var byChannel: Groups

    ghost predicate Valid()
      reads this
    {
      IsIndex(routes, byToken, byChannel)
    }

    constructor ()
      ensures Valid() && routes == map[]
    {
      routes, byToken, byChannel := map[], map[], map[];
    }

    method Match(tokenId: nat, model: string, channelIds: seq<nat>) returns (route: Option<Route>)
      ensures route == Matched(byToken, byChannel, tokenId, model, channelIds)
    {
      if tokenId in byToken {
        route := FindModel(byToken[tokenId], model);
        if model != "" && route.Some? {
          return;
        }
        route := FindModel(byToken[tokenId], "");
        if route.Some? {
          return;
        }
      }
      if model != "" {
        route := FindOver(channelIds, model);
        if route.Some? {
          return;
        }
      }
      route := FindOver(channelIds, "");
    }

    /** One pass over a group. */
    static method FindModel(group: seq<Route>, model: string) returns (route: Option<Route>)
      ensures route == First(group, model)
    {
      var i := 0;
      while i < |group|
        invariant 0 <= i <= |group| && First(group, model) == First(group[i..], model)
      {
        assert group[i..][1..] == group[i + 1..];
        if group[i].model == model {
          return Some(group[i]);
        }
        i := i + 1;
      }
      route := None;
    }

    /** One pass over the groups of the channels. */
    method FindOver(channelIds: seq<nat>, model: string) returns (route: Option<Route>)
      ensures route == FirstOf(byChannel, channelIds, model)
    {
      var i := 0;
      while i < |channelIds|
        invariant 0 <= i <= |channelIds|
        invariant FirstOf(byChannel, channelIds, model) == FirstOf(byChannel, channelIds[i..], model)
      {
        assert channelIds[i..][1..] == channelIds[i + 1..];
        if channelIds[i] in byChannel {
          route := FindModel(byChannel[channelIds[i]], model);
          if route.Some? {
            return;
          }
        }
        i := i + 1;
      }
      route := None;
    }

    method Load(items: seq<Route>)
      modifies this
      ensures Valid() && routes == LoadedAll(items)
    {
      routes, byToken, byChannel := map[], map[], map[];
      var i := 0;
      while i < |items|
        invariant 0 <= i <= |items| && Keyed(routes) && routes == LoadedAll(items[..i])
      {
        assert items[..i + 1][..i] == items[..i];
        routes := routes[items[i].id := items[i]];
        i := i + 1;
      }
      assert items[..i] == items;
      RebuildIndex();
    }

    method Put(route: Route)
      requires Valid()
      modifies this
      ensures Valid() && routes == old(routes)[route.id := route]
    {
      routes := routes[route.id := route];
      RebuildIndex();
    }

    method Delete(routeId: nat)
      requires Valid()
      modifies this
      ensures Valid() && routes == old(routes) - {routeId}
    {
      routes := routes - {routeId};
      RebuildIndex();
    }

    /** Whatever the indexes were: they are those of the stored routes afterwards. */
    method RebuildIndex()
      requires Keyed(routes)
      modifies this
      ensures Valid() && routes == old(routes)
    {
      var tokenIdx, channelIdx: Groups := map[], map[];
      var ids := routes.Keys;
      NothingGrouped(routes);
      hide Grouped, Sorted, Keyed, IsIndex, Add;
      while ids != {}
        invariant ids <= routes.Keys && routes == old(routes) && Keyed(routes)
        invariant Grouped(tokenIdx, routes, routes.Keys - ids, Token)
        invariant Grouped(channelIdx, routes, routes.Keys - ids, Channel)
        decreases |ids|
      {
        var id :| id in ids;
        var r := routes[id];
        GroupedMore(tokenIdx, routes, routes.Keys - ids, id, Token);
        GroupedMore(channelIdx, routes, routes.Keys - ids, id, Channel);
        assert routes.Keys - ids + {id} == routes.Keys - (ids - {id});
        ids := ids - {id};
        match r.source
        case Token => tokenIdx := Add(tokenIdx, r);
        case Channel => channelIdx := Add(channelIdx, r);
        case Other =>
      }
      assert routes.Keys - ids == routes.Keys;
      byToken := SortedGroups(tokenIdx, routes, Token);
      byChannel := SortedGroups(channelIdx, routes, Channel);
      IndexDone(routes, byToken, byChannel);
    }

    /** Sort every group and store it. */
    static method SortedGroups(groups: Groups, routes: map<nat, Route>, source: Source) returns (index: Groups)
      requires Grouped(groups, routes, routes.Keys, source)
      ensures Grouped(index, routes, routes.Keys, source) && Sorted(index)
    {
      index := map[];
      var ids := groups.Keys;
      while ids != {}
        invariant ids <= groups.Keys && index.Keys == groups.Keys - ids
        invariant forall id | id in index :: Descending(index[id]) && multiset(index[id]) == multiset(groups[id])
        decreases |ids|
      {
        var id :| id in ids;
        ids := ids - {id};
        var group := SortedCopy(groups[id]);
        index := index[id := group];
      }
      forall id
        ensures Group(At(index, id), routes, routes.Keys, source, id)
      {
        assert Group(At(groups, id), routes, routes.Keys, source, id);
        GroupPermuted(At(groups, id), At(index, id), routes, routes.Keys, source, id);
      }
    }

    static method SortedCopy(group: seq<Route>) returns (sorted: seq<Route>)
      ensures Descending(sorted) && multiset(sorted) == multiset(group)
    {
      var a := new Route[|group|](i requires 0 <= i < |group| => group[i]);
      assert a[..] == group;
      SortRoutesByPriority(a);
      sorted := a[..];
    }
  }

  function LoadedAll(items: seq<Route>): map<nat, Route> {
    if items == [] then map[]
    else LoadedAll(items[..|items| - 1])[items[|items| - 1].id := items[|items| - 1]]
  }

  /** The last route of that id. */
  ghost predicate LastOf(items: seq<Route>, i: nat, id: nat) {
    i < |items| && items[i].id == id && forall j | i < j < |items| :: items[j].id != id
  }

  /** Loading stores the given routes and no others; of several with one id the last, which is at i. */
  lemma {:induction false} LoadedMeaning(items: seq<Route>, id: nat) returns (i: nat)
    ensures if id in LoadedAll(items) then LastOf(items, i, id) && items[i] == LoadedAll(items)[id]
      else forall j | 0 <= j < |items| :: items[j].id != id
    decreases |items|
  {
    i := 0;
    if items != [] {
      var n := |items| - 1;
      if items[n].id == id {
        i := n;
      } else {
        i := LoadedMeaning(items[..n], id);
        assert forall j | 0 <= j < n :: items[..n][j] == items[j];
      }
    }
  }

  /** Both indexes hold exactly the stored routes of their kind, sorted. */
  ghost predicate IsIndex(routes: map<nat, Route>, byToken: Groups, byChannel: Groups) {
    && Keyed(routes)
    && Grouped(byToken, routes, routes.Keys, Token) && Sorted(byToken)
    && Grouped(byChannel, routes, routes.Keys, Channel) && Sorted(byChannel)
  }

  lemma {:induction false} NothingGrouped(routes: map<nat, Route>)
    ensures Grouped(map[], routes, routes.Keys - routes.Keys, Token)
    ensures Grouped(map[], routes, routes.Keys - routes.Keys, Channel)
  {
  }

  lemma {:induction false} IndexDone(routes: map<nat, Route>, byToken: Groups, byChannel: Groups)
    requires Keyed(routes)
    requires Grouped(byToken, routes, routes.Keys, Token) && Sorted(byToken)
    requires Grouped(byChannel, routes, routes.Keys, Channel) && Sorted(byChannel)
    ensures IsIndex(routes, byToken, byChannel)
  {
  }

  // ---------------------------------------------------------------------------------------------
  // What a match is
  // ---------------------------------------------------------------------------------------------

  /** A stored route that may decide a request: for its token or one of its channels, and for its model or any. */
  ghost predicate Applies(routes: map<nat, Route>, r: Route, tokenId: nat, model: string, channelIds: seq<nat>) {
    && r.id in routes && routes[r.id] == r
    && ((r.source == Token && r.sourceId == tokenId) || (r.source == Channel && r.sourceId in channelIds))
    && (r.model == "" || r.model == model)
  }

  lemma {:induction false} FirstFound(group: seq<Route>, model: string)
    ensures First(group, model).None? <==> forall r | r in group :: r.model != model
    ensures First(group, model).Some? ==> First(group, model).value in group && First(group, model).value.model == model
  {
    if group != [] {
      assert group == [group[0]] + group[1..];
      FirstFound(group[1..], model);
    }
  }

  /** In a sorted group it is the one with the greatest stored priority. */
  lemma {:induction false} FirstIsGreatest(group: seq<Route>, model: string)
    requires Descending(group) && First(group, model).Some?
    ensures forall r | r in group && r.model == model :: r.priority <= First(group, model).value.priority
  {
    if group[0].model != model {
      assert group == [group[0]] + group[1..];
      FirstIsGreatest(group[1..], model);
    }
  }

  lemma {:induction false} FirstOfFound(groups: Groups, channelIds: seq<nat>, model: string)
    ensures FirstOf(groups, channelIds, model).None?
      <==> forall c, r | c in channelIds && r in At(groups, c) :: r.model != model
    ensures FirstOf(groups, channelIds, model).Some? ==>
      exists i | 0 <= i < |channelIds| ::
        && FirstOf(groups, channelIds, model) == First(At(groups, channelIds[i]), model)
        && forall j | 0 <= j < i :: First(At(groups, channelIds[j]), model).None?
  {
    if channelIds != [] {
      var c, rest := channelIds[0], channelIds[1..];
      assert channelIds == [c] + rest;
      FirstFound(At(groups, c), model);
      FirstOfFound(groups, rest, model);
      if First(At(groups, c), model).None? && FirstOf(groups, rest, model).Some? {
        var i :| 0 <= i < |rest| && FirstOf(groups, rest, model) == First(At(groups, rest[i]), model)
          && forall j | 0 <= j < i :: First(At(groups, rest[j]), model).None?;
        assert channelIds[i + 1] == rest[i];
        forall j | 0 <= j < i + 1
          ensures First(At(groups, channelIds[j]), model).None?
        {
          assert j > 0 ==> channelIds[j] == rest[j - 1];
        }
      }
    }
  }

  lemma {:induction false} InGroup(routes: map<nat, Route>, groups: Groups, source: Source, sourceId: nat, r: Route)
    requires Grouped(groups, routes, routes.Keys, source)
    ensures r in At(groups, sourceId)
      <==> r.id in routes && routes[r.id] == r && r.source == source && r.sourceId == sourceId
  {
    assert Group(At(groups, sourceId), routes, routes.Keys, source, sourceId);
  }

  /** Nothing matches exactly when no stored route applies. */
  lemma {:induction false} MatchFindsAny(routes: map<nat, Route>, byToken: Groups, byChannel: Groups,
                                         tokenId: nat, model: string, channelIds: seq<nat>)
    requires IsIndex(routes, byToken, byChannel)
    ensures Matched(byToken, byChannel, tokenId, model, channelIds).None?
      <==> forall r :: !Applies(routes, r, tokenId, model, channelIds)
  {
    hide Grouped, Sorted, First, FirstOf;
    var group := At(byToken, tokenId);
    FirstFound(group, model);
    FirstFound(group, "");
    FirstOfFound(byChannel, channelIds, model);
    FirstOfFound(byChannel, channelIds, "");
    var m := Matched(byToken, byChannel, tokenId, model, channelIds);
    if m.None? {
      forall r
        ensures !Applies(routes, r, tokenId, model, channelIds)
      {
        InGroup(routes, byToken, Token, tokenId, r);
        InGroup(routes, byChannel, Channel, r.sourceId, r);
      }
    } else {
      MatchApplies(routes, byToken, byChannel, tokenId, model, channelIds);
    }
  }

  lemma {:induction false} MatchApplies(routes: map<nat, Route>, byToken: Groups, byChannel: Groups,
                                        tokenId: nat, model: string, channelIds: seq<nat>)
    requires IsIndex(routes, byToken, byChannel)
    requires Matched(byToken, byChannel, tokenId, model, channelIds).Some?
    ensures Applies(routes, Matched(byToken, byChannel, tokenId, model, channelIds).value, tokenId, model, channelIds)
  {
    hide Grouped, Sorted, First, FirstOf;
    var group := At(byToken, tokenId);
    var m := Matched(byToken, byChannel, tokenId, model, channelIds).value;
    FirstFound(group, model);
    FirstFound(group, "");
    InGroup(routes, byToken, Token, tokenId, m);
    FoundOnChannel(routes, byChannel, channelIds, model);
    FoundOnChannel(routes, byChannel, channelIds, "");
  }

  lemma {:induction false} FoundOnChannel(routes: map<nat, Route>, byChannel: Groups, channelIds: seq<nat>,
                                          model: string)
    requires Grouped(byChannel, routes, routes.Keys, Channel)
    ensures var f := FirstOf(byChannel, channelIds, model);
      f.Some? ==> f.value.id in routes && routes[f.value.id] == f.value && f.value.source == Channel
                  && f.value.sourceId in channelIds && f.value.model == model
  {
    hide Grouped, First, FirstOf;
    FirstOfFound(byChannel, channelIds, model);
    var f := FirstOf(byChannel, channelIds, model);
    if f.Some? {
      var i :| 0 <= i < |channelIds| && f == First(At(byChannel, channelIds[i]), model);
      FirstFound(At(byChannel, channelIds[i]), model);
      InGroup(routes, byChannel, Channel, channelIds[i], f.value);
    }
  }

  /** A match is an applicable route of the highest tier there is. */
  lemma {:induction false} MatchIsHighestTier(routes: map<nat, Route>, byToken: Groups, byChannel: Groups,
                                              tokenId: nat, model: string, channelIds: seq<nat>)
    requires IsIndex(routes, byToken, byChannel)
    requires Matched(byToken, byChannel, tokenId, model, channelIds).Some?
    ensures var m := Matched(byToken, byChannel, tokenId, model, channelIds).value;
      && Applies(routes, m, tokenId, model, channelIds)
      && forall r | Applies(routes, r, tokenId, model, channelIds) :: CalcPriority(r) <= CalcPriority(m)
  {
    hide Grouped, Sorted, First, FirstOf;
    var group := At(byToken, tokenId);
    var m := Matched(byToken, byChannel, tokenId, model, channelIds).value;
    MatchApplies(routes, byToken, byChannel, tokenId, model, channelIds);
    FirstFound(group, model);
    FirstFound(group, "");
    FirstOfFound(byChannel, channelIds, model);
    FoundOnChannel(routes, byChannel, channelIds, model);
    FoundOnChannel(routes, byChannel, channelIds, "");
    InGroup(routes, byToken, Token, tokenId, m);
    forall r | Applies(routes, r, tokenId, model, channelIds)
      ensures CalcPriority(r) <= CalcPriority(m)
    {
      InGroup(routes, byToken, Token, tokenId, r);
      InGroup(routes, byChannel, Channel, r.sourceId, r);
    }
  }

  /**
   * A channel's route decides only when none of the token does, and a route for any model only when its source
   * has none for this one.
   */
  lemma {:induction false} MatchTiers(routes: map<nat, Route>, byToken: Groups, byChannel: Groups,
                                      tokenId: nat, model: string, channelIds: seq<nat>)
    requires IsIndex(routes, byToken, byChannel)
    requires Matched(byToken, byChannel, tokenId, model, channelIds).Some?
    ensures var m := Matched(byToken, byChannel, tokenId, model, channelIds).value;
      forall r | Applies(routes, r, tokenId, model, channelIds) ::
        && (m.source == Channel ==> r.source == Channel)
        && (m.model == "" && r.source == m.source ==> r.model == "")
  {
    hide Grouped, Sorted, Matched;
    MatchIsHighestTier(routes, byToken, byChannel, tokenId, model, channelIds);
  }

  /** Among the stored routes of its own source and model, a match has the greatest stored priority. */
  lemma {:induction false} MatchIsGreatest(routes: map<nat, Route>, byToken: Groups, byChannel: Groups,
                                           tokenId: nat, model: string, channelIds: seq<nat>)
    requires IsIndex(routes, byToken, byChannel)
    requires Matched(byToken, byChannel, tokenId, model, channelIds).Some?
    ensures var m := Matched(byToken, byChannel, tokenId, model, channelIds).value;
      forall id | id in routes && SameKey(routes[id], m) :: routes[id].priority <= m.priority
  {
    hide First, FirstOf, Grouped, Group;
    var m := Matched(byToken, byChannel, tokenId, model, channelIds).value;
    var group := At(byToken, tokenId);
    FirstFound(group, model);
    FirstFound(group, "");
    GreatestOnChannel(routes, byChannel, channelIds, model);
    GreatestOnChannel(routes, byChannel, channelIds, "");
    FoundOnChannel(routes, byChannel, channelIds, model);
    FoundOnChannel(routes, byChannel, channelIds, "");
    InGroup(routes, byToken, Token, tokenId, m);
    assert Descending(group);
    if First(group, model).Some? { FirstIsGreatest(group, model); }
    if First(group, "").Some? { FirstIsGreatest(group, ""); }
    forall id | id in routes && SameKey(routes[id], m)
      ensures routes[id].priority <= m.priority
    {
      InGroup(routes, byToken, Token, tokenId, routes[id]);
    }
  }

  predicate SameKey(a: Route, b: Route) {
    a.source == b.source && a.sourceId == b.sourceId && a.model == b.model
  }

  lemma {:induction false} GreatestOnChannel(routes: map<nat, Route>, byChannel: Groups, channelIds: seq<nat>,
                                             model: string)
    requires Keyed(routes) && Grouped(byChannel, routes, routes.Keys, Channel) && Sorted(byChannel)
    ensures var f := FirstOf(byChannel, channelIds, model);
      f.Some? ==> forall id | id in routes && SameKey(routes[id], f.value) :: routes[id].priority <= f.value.priority
  {
    hide Grouped, First, FirstOf;
    FirstOfFound(byChannel, channelIds, model);
    var f := FirstOf(byChannel, channelIds, model);
    if f.Some? {
      var i :| 0 <= i < |channelIds| && f == First(At(byChannel, channelIds[i]), model);
      var group := At(byChannel, channelIds[i]);
      FirstFound(group, model);
      FirstIsGreatest(group, model);
      InGroup(routes, byChannel, Channel, channelIds[i], f.value);
      forall id | id in routes && SameKey(routes[id], f.value)
        ensures routes[id].priority <= f.value.priority
      {
        InGroup(routes, byChannel, Channel, channelIds[i], routes[id]);
      }
    }
  }

  // ---------------------------------------------------------------------------------------------
  // Matching without an index
  // ---------------------------------------------------------------------------------------------

  /** The unique index on source and model. */
  ghost predicate UniqueKeys(routes: map<nat, Route>) {
    && Keyed(routes)
    && forall i, j {:trigger SameKey(routes[i], routes[j])} |
         i in routes && j in routes && SameKey(routes[i], routes[j]) :: i == j
  }

  predicate HasKey(routes: map<nat, Route>, id: nat, source: Source, sourceId: nat, model: string) {
    id in routes && routes[id].source == source && routes[id].sourceId == sourceId && routes[id].model == model
  }

  ghost function Lookup(routes: map<nat, Route>, source: Source, sourceId: nat, model: string): Option<Route> {
    if exists id :: HasKey(routes, id, source, sourceId, model) then
      var id :| HasKey(routes, id, source, sourceId, model);
      Some(routes[id])
    else None
  }

  ghost function LookupChannels(routes: map<nat, Route>, channelIds: seq<nat>, model: string): Option<Route> {
    if channelIds == [] then None
    else
      var r := Lookup(routes, Channel, channelIds[0], model);
      if r.Some? then r else LookupChannels(routes, channelIds[1..], model)
  }

  /** The tiers, looked up in the stored routes directly. */
  ghost function Scan(routes: map<nat, Route>, tokenId: nat, model: string, channelIds: seq<nat>): Option<Route> {
    var exact := if model == "" then None else Lookup(routes, Token, tokenId, model);
    var any := Lookup(routes, Token, tokenId, "");
    var onChannel := if model == "" then None else LookupChannels(routes, channelIds, model);
    if exact.Some? then exact
    else if any.Some? then any
    else if onChannel.Some? then onChannel
    else LookupChannels(routes, channelIds, "")
  }

  lemma {:induction false} FirstIsLookup(routes: map<nat, Route>, groups: Groups, source: Source, sourceId: nat,
                                         model: string)
    requires UniqueKeys(routes) && Grouped(groups, routes, routes.Keys, source)
    ensures First(At(groups, sourceId), model) == Lookup(routes, source, sourceId, model)
  {
    hide Grouped, First;
    FirstFound(At(groups, sourceId), model);
    var found, looked := First(At(groups, sourceId), model), Lookup(routes, source, sourceId, model);
    if found.Some? {
      InGroup(routes, groups, source, sourceId, found.value);
      assert HasKey(routes, found.value.id, source, sourceId, model);
    }
    if looked.Some? {
      var id :| HasKey(routes, id, source, sourceId, model) && looked == Some(routes[id]);
      assert routes[id].id == id;
      InGroup(routes, groups, source, sourceId, routes[id]);
      assert SameKey(routes[id], routes[found.value.id]);
    }
  }

  lemma {:induction false} FirstOfIsLookup(routes: map<nat, Route>, groups: Groups, channelIds: seq<nat>, model: string)
    requires UniqueKeys(routes) && Grouped(groups, routes, routes.Keys, Channel)
    ensures FirstOf(groups, channelIds, model) == LookupChannels(routes, channelIds, model)
  {
    hide Grouped, Lookup, First, UniqueKeys;
    if channelIds != [] {
      FirstIsLookup(routes, groups, Channel, channelIds[0], model);
      FirstOfIsLookup(routes, groups, channelIds[1..], model);
    }
  }

  /**
   * With one route for each source and model a match is what scanning the stored routes gives, so it does not
   * depend on the order in which the groups were collected.
   */
  lemma {:induction false} MatchIsScan(routes: map<nat, Route>, byToken: Groups, byChannel: Groups,
                                       tokenId: nat, model: string, channelIds: seq<nat>)
    requires IsIndex(routes, byToken, byChannel) && UniqueKeys(routes)
    ensures Matched(byToken, byChannel, tokenId, model, channelIds) == Scan(routes, tokenId, model, channelIds)
  {
    hide Grouped, Sorted, Lookup, LookupChannels, First, FirstOf, UniqueKeys;
    FirstIsLookup(routes, byToken, Token, tokenId, model);
    FirstIsLookup(routes, byToken, Token, tokenId, "");
    FirstOfIsLookup(routes, byChannel, channelIds, model);
    FirstOfIsLookup(routes, byChannel, channelIds, "");
  }
}
