/**
 * The routing validators as they run (internal/dao/model_routing_validate.go:53-159), over the caching name
 * provider of one request (internal/dao/model_routing.go:172-219).  Names are byte strings.
 *
 * The provider does not report a failing query: a lookup that fails finds nothing and is remembered, a model
 * query that fails counts nothing, a list query that fails gives what it has read so far.
 */
module RoutingValidation {
  import opened Options
  import opened Sequences
  import opened RoutingGraph

  const MAX_NAME_LEN := 128
  const MAX_MEMBERS := 32

  // ---------------------------------------------------------------------------------------------
  // Tables and names
  // ---------------------------------------------------------------------------------------------

  type Rows = map<nat, Routing>

  /** Two rows that the unique index on scope, user and name does not allow together. */
  predicate SameSlot(a: Routing, b: Routing) {
    a.scope == b.scope && a.userId == b.userId && a.name == b.name
  }

  /** A table under its primary key and its unique index. */
  ghost predicate TableOk(rows: Rows) {
    && (forall i | i in rows :: rows[i].id == i)
    && forall i, j {:trigger SameSlot(rows[i], rows[j])} | i in rows && j in rows && SameSlot(rows[i], rows[j]) ::
         i == j
  }

  /** A global routing has no user. */
  predicate Ownerless(r: Routing) {
    r.scope.Global? ==> r.userId == 0
  }

  /** When no global routing has a user, the unique index makes global names unique. */
  ghost predicate UniqueNames(rows: Rows) {
    TableOk(rows) && forall i | i in rows :: Ownerless(rows[i])
  }

  predicate IsGlobal(rows: Rows, i: nat, name: string) {
    i in rows && rows[i].scope.Global? && rows[i].name == name
  }

  ghost function LeastFrom(rows: Rows, name: string, i: nat, j: nat): (k: nat)
    requires i <= j && IsGlobal(rows, j, name) && forall n | 0 <= n < i :: !IsGlobal(rows, n, name)
    ensures IsGlobal(rows, k, name) && forall n: nat | IsGlobal(rows, n, name) :: k <= n
    decreases j - i
  {
    if IsGlobal(rows, i, name) then i else LeastFrom(rows, name, i + 1, j)
  }

  /** The global row a lookup by name finds: the first by primary key. */
  ghost function IdOf(rows: Rows, name: string): (k: nat)
    requires exists i :: IsGlobal(rows, i, name)
    ensures IsGlobal(rows, k, name) && forall n: nat | IsGlobal(rows, n, name) :: k <= n
  {
    var j :| IsGlobal(rows, j, name);
    LeastFrom(rows, name, 0, j)
  }

  /** The global routings of a table, by name. */
  ghost function NamesOf(models: set<string>, rows: Rows): Names {
    var globals := set i | i in rows && rows[i].scope.Global? :: rows[i].name;
    Names(models, map n | n in globals && exists i :: IsGlobal(rows, i, n) :: rows[IdOf(rows, n)])
  }

  lemma {:induction false} Found(models: set<string>, rows: Rows, i: nat)
    requires i in rows && rows[i].scope.Global?
    ensures var name := rows[i].name;
      && IsGlobal(rows, i, name)
      && name in NamesOf(models, rows).routings && NamesOf(models, rows).routings[name] == rows[IdOf(rows, name)]
  {
    assert IsGlobal(rows, i, rows[i].name);
  }

  /** With unique names a global row is what its name stands for. */
  lemma {:induction false} NamedRow(models: set<string>, rows: Rows, i: nat)
    requires UniqueNames(rows) && i in rows && rows[i].scope.Global?
    ensures var names := NamesOf(models, rows);
      rows[i].name in names.routings && names.routings[rows[i].name] == rows[i]
  {
    hide NamesOf;
    Found(models, rows, i);
    var j := IdOf(rows, rows[i].name);
    assert Ownerless(rows[i]) && Ownerless(rows[j]);
    assert SameSlot(rows[i], rows[j]);
  }

  /** A name stands for nothing but a global row. */
  lemma {:induction false} RowNamed(models: set<string>, rows: Rows, name: string)
    requires TableOk(rows) && name in NamesOf(models, rows).routings
    ensures var r := NamesOf(models, rows).routings[name];
      r.name == name && r.scope.Global? && r.id in rows && rows[r.id] == r
  {
    assert rows[IdOf(rows, name)].id == IdOf(rows, name);
  }

  ghost predicate Keyed(names: Names) {
    forall n | n in names.routings :: names.routings[n].name == n
  }

  lemma {:induction false} NamesKeyed(models: set<string>, rows: Rows)
    requires TableOk(rows)
    ensures Keyed(NamesOf(models, rows)) && NamesOf(models, rows).models == models
  {
    forall n | n in NamesOf(models, rows).routings
      ensures NamesOf(models, rows).routings[n].name == n
    {
      RowNamed(models, rows, n);
    }
  }

  // ---------------------------------------------------------------------------------------------
  // Specification
  // ---------------------------------------------------------------------------------------------

  /**
   * The failures of one request: the names whose lookup fails - each is asked for once -, which of the model
   * queries fail, and the rows a failing list query leaves out.
   */
  datatype Failures = Failures(lost: set<string>, blind: nat -> bool, unlisted: set<nat>)

  /** What lookups find. */
  function Seen(names: Names, fails: Failures): Names {
    names.(routings := names.routings - fails.lost)
  }

  predicate Resolves(names: Names, ref: string) {
    ref in names.models || ref in names.routings
  }

  /** The first member, from position i on, whose ref is missing or found to name nothing. */
  function BadRef(names: Names, blind: nat -> bool, members: seq<Member>, i: nat): Option<RoutingError>
    requires i <= |members|
    decreases |members| - i
  {
    if i == |members| then None
    else
      var ref := members[i].ref;
      if ref == "" then Some(RefEmpty(i))
      else if (ref in names.models && !blind(i)) || ref in names.routings then BadRef(names, blind, members, i + 1)
      else Some(InvalidRef(ref))
  }

  /** The search, when model query number k is the next one; it comes with the number after the last. */
  function Searched(names: Names, blind: nat -> bool, members: seq<Member>, path: seq<string>, k: nat)
      : (Option<RoutingError>, nat)
    decreases MAX_DEPTH + 1 - |path|, |members|
  {
    if |path| > MAX_DEPTH then (Some(MaxDepth(path)), k)
    else if members == [] then (None, k)
    else
      var ref := members[0].ref;
      if ref in path then
        if ref in names.models && !blind(k) then Searched(names, blind, members[1..], path, k + 1)
        else (Some(CycleDetected(path + [ref])), k + 1)
      else if ref in names.routings then
        var (e, k') := Searched(names, blind, Children(names.routings[ref]), path + [ref], k);
        if e.Some? then (e, k') else Searched(names, blind, members[1..], path, k')
      else Searched(names, blind, members[1..], path, k)
  }

  function NameError(name: string): Option<RoutingError> {
    if name == "" then Some(NameRequired)
    else if |name| > MAX_NAME_LEN then Some(NameTooLong)
    else if ',' in name then Some(NameContainsComma)
    else None
  }

  function MembersError(names: Names, blind: nat -> bool, members: Members): Option<RoutingError> {
    if members.Malformed? then Some(MembersInvalidJson)
    else if members.list == [] then Some(MembersEmpty)
    else if |members.list| > MAX_MEMBERS then Some(MembersTooMany)
    else BadRef(names, blind, members.list, 0)
  }

  /** ValidateRouting, over what its queries find. */
  function Checked(names: Names, fails: Failures, r: Routing): Option<RoutingError> {
    var seen := Seen(names, fails);
    if NameError(r.name).Some? then NameError(r.name)
    else if MembersError(seen, fails.blind, r.members).Some? then MembersError(seen, fails.blind, r.members)
    else if r.scope.Global? then Searched(seen, fails.blind, Children(r), [r.name], |Children(r)|).0
    else None
  }

  /** ValidateDelete skips a text that does not decode. */
  predicate Mentions(r: Routing, name: string) {
    r.members.Parsed? && name in Refs(r.members.list)
  }

  /** The names of the other global routings that refer to a name. */
  function Referrers(rows: Rows, unlisted: set<nat>, id: nat, name: string): set<string> {
    set i | i in rows && i !in unlisted && rows[i].scope.Global? && i != id && Mentions(rows[i], name) :: rows[i].name
  }

  function DeleteError(rows: Rows, fails: Failures, target: Routing): Option<RoutingError> {
    var refs := Referrers(rows, fails.unlisted, target.id, target.name);
    if target.scope.User? || refs == {} then None else Some(ReferencedBy(refs))
  }

  // ---------------------------------------------------------------------------------------------
  // What validation guarantees
  // ---------------------------------------------------------------------------------------------

  ghost predicate NeverBlind(blind: nat -> bool) {
    forall k :: !blind(k)
  }

  const NOT_BLIND: nat -> bool := k => false

  lemma {:induction false} NothingBlind()
    ensures NeverBlind(NOT_BLIND)
  {
  }

  predicate EndsOnModel(names: Names, path: seq<string>) {
    path != [] && path[|path| - 1] in names.models
  }

  /** Failing model queries only refuse more, and what they refuse they call a cycle. */
  lemma {:induction false} BlindRefuses(names: Names, blind: nat -> bool, members: seq<Member>, path: seq<string>,
                                        k: nat)
    ensures var e, d := Searched(names, blind, members, path, k).0, Dfs(names, members, path);
      && (NeverBlind(blind) ==> e == d)
      && (e == d || (e.Some? && e.value.CycleDetected? && EndsOnModel(names, e.value.path)))
    decreases MAX_DEPTH + 1 - |path|, |members|
  {
    hide NeverBlind;
    if |path| <= MAX_DEPTH && members != [] {
      var ref := members[0].ref;
      if ref in path {
        BlindRefuses(names, blind, members[1..], path, k + 1);
        assert NeverBlind(blind) ==> !blind(k) by {
          BlindAt(blind, k);
        }
      } else {
        if ref in names.routings {
          BlindRefuses(names, blind, Children(names.routings[ref]), path + [ref], k);
        }
        var k' :=
          if ref in names.routings then Searched(names, blind, Children(names.routings[ref]), path + [ref], k).1
          else k;
        BlindRefuses(names, blind, members[1..], path, k');
      }
    }
  }

  lemma {:induction false} BlindAt(blind: nat -> bool, k: nat)
    ensures NeverBlind(blind) ==> !blind(k)
  {
  }

  ghost predicate GoodRefs(names: Names, members: seq<Member>, i: nat, j: nat)
    requires i <= j <= |members|
  {
    forall k | i <= k < j :: members[k].ref != "" && Resolves(names, members[k].ref)
  }

  lemma {:induction false} BadRefNone(names: Names, blind: nat -> bool, members: seq<Member>, i: nat)
    requires i <= |members|
    ensures BadRef(names, blind, members, i).None? ==> GoodRefs(names, members, i, |members|)
    ensures NeverBlind(blind) && GoodRefs(names, members, i, |members|) ==> BadRef(names, blind, members, i).None?
    decreases |members| - i
  {
    if i < |members| {
      BadRefNone(names, blind, members, i + 1);
    }
  }

  /** The reported member is the first that is bad, when no model query fails. */
  lemma {:induction false} BadRefMeaning(names: Names, blind: nat -> bool, members: seq<Member>, i: nat)
    returns (k: nat)
    requires i <= |members| && BadRef(names, blind, members, i).Some?
    ensures i <= k < |members|
    ensures BadRef(names, blind, members, i).value
      == if members[k].ref == "" then RefEmpty(k) else InvalidRef(members[k].ref)
    ensures GoodRefs(names, members, i, k)
    ensures NeverBlind(blind) ==> members[k].ref == "" || !Resolves(names, members[k].ref)
    decreases |members| - i
  {
    k := i;
    var ref := members[i].ref;
    if ref != "" && ((ref in names.models && !blind(i)) || ref in names.routings) {
      k := BadRefMeaning(names, blind, members, i + 1);
    }
  }

  ghost predicate GoodName(name: string) {
    0 < |name| <= MAX_NAME_LEN && ',' !in name
  }

  ghost predicate GoodMembers(names: Names, members: Members) {
    && members.Parsed?
    && 0 < |members.list| <= MAX_MEMBERS
    && forall m | m in members.list :: m.ref != "" && Resolves(names, m.ref)
  }

  /** What a routing must be like to pass, by what the lookups find. */
  ghost predicate Passes(names: Names, r: Routing) {
    && GoodName(r.name)
    && GoodMembers(names, r.members)
    && (r.scope.Global? ==> Accepted(With(names, r), r.name))
  }

  lemma {:induction false} MembersMeaning(names: Names, blind: nat -> bool, members: Members)
    ensures MembersError(names, blind, members).None? ==> GoodMembers(names, members)
    ensures NeverBlind(blind) && GoodMembers(names, members) ==> MembersError(names, blind, members).None?
  {
    hide BadRef, NeverBlind;
    if members.Parsed? {
      var list := members.list;
      BadRefNone(names, blind, list, 0);
      assert forall m | m in list :: exists k :: 0 <= k < |list| && list[k] == m;
      assert forall k | 0 <= k < |list| :: list[k] in list;
    }
  }

  /**
   * A routing that passes validation has a good name, members that name something, and, if global, a graph
   * that is accepted - all by what the lookups found.  When no model query fails nothing else is refused.
   */
  lemma {:induction false} ValidateAccepts(names: Names, fails: Failures, r: Routing)
    ensures Checked(names, fails, r).None? ==> Passes(Seen(names, fails), r)
    ensures NeverBlind(fails.blind) && Passes(Seen(names, fails), r) ==> Checked(names, fails, r).None?
  {
    hide Dfs, Searched, Accepted, MembersError, NeverBlind, GoodMembers;
    var seen := Seen(names, fails);
    MembersMeaning(seen, fails.blind, r.members);
    BlindRefuses(seen, fails.blind, Children(r), [r.name], |Children(r)|);
    DfsAccepts(seen, r);
  }

  // ---------------------------------------------------------------------------------------------
  // The provider
  // ---------------------------------------------------------------------------------------------

  ghost function Lookup(names: Names, name: string): Option<Routing> {
    if name in names.routings then Some(names.routings[name]) else None
  }

  /** The list holds exactly the global rows with an id in `ids`. */
  ghost predicate Lists(all: seq<Routing>, rows: Rows, ids: set<nat>) {
    && ids <= rows.Keys
    && (forall r | r in all :: exists i :: i in ids && rows[i].scope.Global? && rows[i] == r)
    && forall i | i in ids && rows[i].scope.Global? :: rows[i] in all
  }

  lemma {:induction false} ListsMore(all: seq<Routing>, rows: Rows, ids: set<nat>, left: set<nat>, i: nat)
    requires left <= ids <= rows.Keys && i in left && Lists(all, rows, ids - left)
    ensures Lists(if rows[i].scope.Global? then all + [rows[i]] else all, rows, ids - (left - {i}))
  {
  }

  lemma {:induction false} ListsNone(rows: Rows, ids: set<nat>)
    requires ids <= rows.Keys
    ensures Lists([], rows, ids - ids)
  {
  }

  /** SELECT ... WHERE scope = 'global', in the database's order, over the rows that are read. */
  method SelectGlobals(rows: Rows, ids: set<nat>) returns (all: seq<Routing>)
    requires ids <= rows.Keys
    ensures Lists(all, rows, ids)
  {
    all := [];
    var left := ids;
    ListsNone(rows, ids);
    hide *;
    while left != {}
      invariant left <= ids && Lists(all, rows, ids - left)
      decreases |left|
    {
      var i :| i in left;
      ListsMore(all, rows, ids, left, i);
      left := left - {i};
      if rows[i].scope.Global? {
        all := all + [rows[i]];
      }
    }
    assert ids - left == ids;
  }

  /** SELECT ... WHERE scope = 'global' AND name = ..., the first by primary key. */
  method FirstGlobal(models: set<string>, rows: Rows, name: string) returns (r: Option<Routing>)
    ensures r == Lookup(NamesOf(models, rows), name)
  {
    r := None;
    if exists i :: i in rows && IsGlobal(rows, i, name) {
      assert IsGlobal(rows, IdOf(rows, name), name);
      var i :| i in rows && IsGlobal(rows, i, name) && forall n | n in rows && IsGlobal(rows, n, name) :: i <= n;
      Found(models, rows, i);
      r := Some(rows[i]);
    }
  }

  class NameProvider {
    const models: set<string>
    const rows: Rows
    const fails: Failures
    var modelQueries: nat
    var routingCache: map<string, Option<Routing>>
    var allCacheLoaded: bool
    var allCache: seq<Routing>

    ghost predicate Valid()
      reads this
    {
      && TableOk(rows)
      && (forall n | n in routingCache :: routingCache[n] == Lookup(Visible(), n))
      && (allCacheLoaded ==> Lists(allCache, rows, rows.Keys - fails.unlisted))
    }

    /** What the lookups of this request find. */
    ghost function Visible(): (names: Names)
      requires TableOk(rows)
      ensures names.models == models && Keyed(names)
    {
      NamesKeyed(models, rows);
      Seen(NamesOf(models, rows), fails)
    }

    constructor (models: set<string>, rows: Rows, fails: Failures)
      requires TableOk(rows)
      ensures Valid() && this.models == models && this.rows == rows && this.fails == fails && modelQueries == 0
    {
      this.models, this.rows, this.fails := models, rows, fails;
      modelQueries, routingCache, allCacheLoaded, allCache := 0, map[], false, [];
    }

    /** The error of the count is dropped: a query that fails has counted nothing. */
    method HasModel(name: string) returns (found: bool)
      requires Valid()
      modifies this
      ensures Valid() && modelQueries == old(modelQueries) + 1
      ensures found == (name in models && !fails.blind(old(modelQueries)))
    {
      hide NamesOf, TableOk, Lists, Lookup;
      found := name in models && !fails.blind(modelQueries);
      modelQueries := modelQueries + 1;
    }

    /** Any error, not only a missing row, is remembered as nothing found. */
    method GetGlobalRouting(name: string) returns (r: Option<Routing>)
      requires Valid()
      modifies this
      ensures Valid() && modelQueries == old(modelQueries)
      ensures r == Lookup(Visible(), name)
      ensures r.Some? ==> r.value.name == name
    {
      hide NamesOf, TableOk, Lists;
      if name in routingCache {
        return routingCache[name];
      }
      if name in fails.lost {
        r := None;
      } else {
        r := FirstGlobal(models, rows, name);
      }
      routingCache := routingCache[name := r];
    }

    /** The error of the query is ignored. */
    method AllGlobalRoutings() returns (all: seq<Routing>)
      requires Valid()
      modifies this
      ensures Valid() && modelQueries == old(modelQueries)
      ensures Lists(all, rows, rows.Keys - fails.unlisted)
    {
      hide TableOk, NamesOf, Lookup, Lists;
      if allCacheLoaded {
        return allCache;
      }
      all := SelectGlobals(rows, rows.Keys - fails.unlisted);
      allCache, allCacheLoaded := all, true;
    }
  }

  // ---------------------------------------------------------------------------------------------
  // The validators
  // ---------------------------------------------------------------------------------------------

  /** The map of visited names, shared by all levels of the recursion. */
  class Visited {
    var names: set<string>

    constructor (names: set<string>)
      ensures this.names == names
    {
      this.names := names;
    }
  }

  /** The search; when it finds nothing, every name it marked on the way is unmarked again. */
  method DfsRouting(members: seq<Member>, np: NameProvider, visited: Visited, path: seq<string>, depth: nat)
      returns (err: Option<RoutingError>)
    requires np.Valid() && visited.names == Elements(path) && depth == |path|
    modifies np, visited
    ensures np.Valid()
    ensures (err, np.modelQueries) == Searched(np.Visible(), np.fails.blind, members, path, old(np.modelQueries))
    ensures err.None? ==> visited.names == old(visited.names)
    decreases MAX_DEPTH + 1 - depth
  {
    hide TableOk, NamesOf, Lists;
    if depth > MAX_DEPTH {
      return Some(MaxDepth(path));
    }
    ghost var k0, blind := np.modelQueries, np.fails.blind;
    var i := 0;
    while i < |members|
      invariant 0 <= i <= |members|
      invariant np.Valid() && visited.names == Elements(path)
      invariant Searched(np.Visible(), blind, members, path, k0)
        == Searched(np.Visible(), blind, members[i..], path, np.modelQueries)
    {
      var m := members[i];
      assert members[i..][0] == m && members[i..][1..] == members[i + 1..];
      i := i + 1;
      if m.ref in visited.names {
        var isModel := np.HasModel(m.ref);
        if isModel {
          continue;
        }
        return Some(CycleDetected(path + [m.ref]));
      }
      var r := np.GetGlobalRouting(m.ref);
      if r.None? {
        continue;
      }
      visited.names := visited.names + {r.value.name};
      var newPath := path + [r.value.name];
      assert Elements(newPath) == Elements(path) + {m.ref};
      var e := DfsRouting(Children(r.value), np, visited, newPath, depth + 1);
      if e.Some? {
        return e;
      }
      visited.names := visited.names - {r.value.name};
    }
    err := None;
  }

  method DfsCycleAndDepth(start: Routing, np: NameProvider, startMembers: seq<Member>)
      returns (err: Option<RoutingError>)
    requires np.Valid()
    modifies np
    ensures np.Valid()
    ensures err == Searched(np.Visible(), np.fails.blind, startMembers, [start.name], old(np.modelQueries)).0
  {
    hide TableOk, NamesOf, Lists, Searched;
    var visited := new Visited({start.name});
    assert Elements([start.name]) == {start.name};
    err := DfsRouting(startMembers, np, visited, [start.name], 1);
  }

  method ValidateRouting(r: Routing, np: NameProvider) returns (err: Option<RoutingError>)
    requires np.Valid() && np.modelQueries == 0
    modifies np
    ensures np.Valid() && err == Checked(NamesOf(np.models, np.rows), np.fails, r)
  {
    hide TableOk, NamesOf, Lists, Searched;
    if r.name == "" {
      return Some(NameRequired);
    }
    if |r.name| > MAX_NAME_LEN {
      return Some(NameTooLong);
    }
    if ',' in r.name {
      return Some(NameContainsComma);
    }
    if r.members.Malformed? {
      return Some(MembersInvalidJson);
    }
    var members := r.members.list;
    if |members| == 0 {
      return Some(MembersEmpty);
    }
    if |members| > MAX_MEMBERS {
      return Some(MembersTooMany);
    }
    err := CheckRefs(members, np);
    if err.Some? {
      return;
    }
    if r.scope.Global? {
      err := DfsCycleAndDepth(r, np, members);
    }
  }

  /** Every member asks for a model of its name first, and for a routing only if there is none. */
  method CheckRefs(members: seq<Member>, np: NameProvider) returns (err: Option<RoutingError>)
    requires np.Valid() && np.modelQueries == 0
    modifies np
    ensures np.Valid() && err == BadRef(np.Visible(), np.fails.blind, members, 0)
    ensures err.None? ==> np.modelQueries == |members|
  {
    hide TableOk, NamesOf, Lists;
    var i := 0;
    while i < |members|
      invariant 0 <= i <= |members| && np.Valid() && np.modelQueries == i
      invariant BadRef(np.Visible(), np.fails.blind, members, 0) == BadRef(np.Visible(), np.fails.blind, members, i)
    {
      if members[i].ref == "" {
        return Some(RefEmpty(i));
      }
      var isModel := np.HasModel(members[i].ref);
      if !isModel {
        var found := np.GetGlobalRouting(members[i].ref);
        if found.None? {
          return Some(InvalidRef(members[i].ref));
        }
      }
      i := i + 1;
    }
    err := None;
  }

  /** One turn of the loop over all routings. */
  method RefersTo(r: Routing, target: Routing) returns (refers: bool)
    ensures refers <==> r.id != target.id && Mentions(r, target.name)
  {
    if r.id == target.id || r.members.Malformed? {
      return false;
    }
    var members := r.members.list;
    var j := 0;
    while j < |members|
      invariant 0 <= j <= |members|
      invariant forall k | 0 <= k < j :: members[k].ref != target.name
    {
      if members[j].ref == target.name {
        assert members[j] in members;
        return true;
      }
      j := j + 1;
    }
    refers := false;
  }

  method ValidateDelete(target: Routing, np: NameProvider) returns (err: Option<RoutingError>)
    requires np.Valid()
    modifies np
    ensures np.Valid() && err == DeleteError(np.rows, np.fails, target)
  {
    if target.scope.User? {
      return None;
    }
    var refs: set<string> := {};
    var all := np.AllGlobalRoutings();
    assert ReferrersIn(all[..0], target) == {};
    assert TableOk(np.rows);
    hide Referrers, ReferrersIn, Lists, TableOk, NamesOf;
    var i := 0;
    while i < |all|
      invariant 0 <= i <= |all| && np.Valid()
      invariant refs == ReferrersIn(all[..i], target)
    {
      ReferrersMore(all, i, target);
      var refers := RefersTo(all[i], target);
      if refers {
        refs := refs + {all[i].name};
      }
      i := i + 1;
    }
    assert all[..i] == all;
    ReferrersOf(np.rows, np.fails.unlisted, all, target);
    if refs == {} {
      return None;
    }
    err := Some(ReferencedBy(refs));
  }

  function ReferrersIn(all: seq<Routing>, target: Routing): set<string> {
    set r | r in all && r.id != target.id && Mentions(r, target.name) :: r.name
  }

  lemma {:induction false} ReferrersMore(all: seq<Routing>, i: nat, target: Routing)
    requires i < |all|
    ensures ReferrersIn(all[..i + 1], target)
      == ReferrersIn(all[..i], target)
         + if all[i].id != target.id && Mentions(all[i], target.name) then {all[i].name} else {}
  {
    hide Mentions;
    assert all[..i + 1] == all[..i] + [all[i]];
  }

  lemma {:induction false} ReferrersOf(rows: Rows, unlisted: set<nat>, all: seq<Routing>, target: Routing)
    requires TableOk(rows) && Lists(all, rows, rows.Keys - unlisted)
    ensures Referrers(rows, unlisted, target.id, target.name) == ReferrersIn(all, target)
  {
    hide Mentions;
    var left, right := Referrers(rows, unlisted, target.id, target.name), ReferrersIn(all, target);
    forall n | n in left
      ensures n in right
    {
      var i :| i in rows && i !in unlisted && rows[i].scope.Global? && i != target.id
        && Mentions(rows[i], target.name) && rows[i].name == n;
      assert rows[i] in all && rows[i].id == i;
    }
    forall n | n in right
      ensures n in left
    {
      var r :| r in all && r.id != target.id && Mentions(r, target.name) && r.name == n;
      var i :| i in rows.Keys - unlisted && rows[i].scope.Global? && rows[i] == r;
      assert rows[i].id == i;
    }
  }
}
