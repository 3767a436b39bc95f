/**
 * The graph search of the routing validator (internal/dao/model_routing_validate.go:93-131): a depth-bounded
 * backtracking walk over routings that refer to each other, with an exemption for names of real models.
 * Members are values here; the JSON text they are stored as is not modelled.
 */
module RoutingGraph {
  import opened Options
  import opened Sequences

  datatype Member = Member(ref: string, priority: int, weight: int)

  /**
   * The stored text of a member list.  Text that is no JSON decodes to nothing; a value of the wrong type is
   * reported as an error, but what could be decoded is kept.
   */
  datatype Members = Parsed(list: seq<Member>) | Malformed(decoded: seq<Member>)

  datatype Scope = Global | User

  datatype Routing = Routing(id: nat, name: string, scope: Scope, userId: nat, members: Members,
                             enabled: bool, remark: string)

  /** What the validators can ask: the real models, and the global routings by name. */
  datatype Names = Names(models: set<string>, routings: map<string, Routing>)

  /** Errors with their details; references to a routing are a set, as their order is the database's. */
  datatype RoutingError =
    | NameRequired | NameTooLong | NameContainsComma
    | MembersInvalidJson | MembersEmpty | MembersTooMany
    | RefEmpty(index: nat) | InvalidRef(ref: string)
    | CycleDetected(path: seq<string>) | MaxDepth(path: seq<string>)
    | ReferencedBy(refs: set<string>) | NotFound | DbError

  const MAX_DEPTH := 5

  /** The search ignores the error and goes on with what was decoded. */
  function Children(r: Routing): seq<Member> {
    if r.members.Parsed? then r.members.list else r.members.decoded
  }

  function Refs(members: seq<Member>): set<string> {
    set m | m in members :: m.ref
  }

  /** What dfsRouting returns when the routings on `path` are being visited. */
  function Dfs(names: Names, members: seq<Member>, path: seq<string>): Option<RoutingError>
    decreases MAX_DEPTH + 1 - |path|, |members|
  {
    if |path| > MAX_DEPTH then Some(MaxDepth(path))
    else if members == [] then None
    else
      var ref := members[0].ref;
      var found :=
        if ref in path then (if ref in names.models then None else Some(CycleDetected(path + [ref])))
        else if ref in names.routings then Dfs(names, Children(names.routings[ref]), path + [ref])
        else None;
      if found.Some? then found else Dfs(names, members[1..], path)
  }

  // ---------------------------------------------------------------------------------------------
  // The graph, without any search
  // ---------------------------------------------------------------------------------------------

  predicate Edge(names: Names, a: string, b: string) {
    a in names.routings && b in Refs(Children(names.routings[a]))
  }

  /** A routing leads to what its members refer to, also when their text could be decoded only in part. */
  lemma {:induction false} EdgeMeaning(names: Names, a: string, b: string)
    ensures Edge(names, a, b) <==>
      && a in names.routings
      && match names.routings[a].members
         case Parsed(list) => exists m :: m in list && m.ref == b
         case Malformed(decoded) => exists m :: m in decoded && m.ref == b
  {
  }

  ghost predicate Walk(names: Names, p: seq<string>) {
    forall i | 0 <= i < |p| - 1 :: Edge(names, p[i], p[i + 1])
  }

  /** A path through routings that meets none of them twice. */
  ghost predicate Simple(names: Names, p: seq<string>) {
    && p != []
    && Walk(names, p)
    && Distinct(p)
    && forall i | 0 <= i < |p| :: p[i] in names.routings
  }

  /** The path is short enough, and where it can close a cycle the name is also a real model. */
  ghost predicate Harmless(names: Names, p: seq<string>)
    requires p != []
  {
    && |p| <= MAX_DEPTH
    && forall b | b in p && Edge(names, p[|p| - 1], b) :: b in names.models
  }

  ghost predicate Accepted(names: Names, start: string) {
    forall p | Simple(names, p) && p[0] == start :: Harmless(names, p)
  }

  /** The names with a routing put in, as the graph will be once it is stored. */
  function With(names: Names, r: Routing): Names {
    names.(routings := names.routings[r.name := r])
  }

  // ---------------------------------------------------------------------------------------------
  // Search and graph
  // ---------------------------------------------------------------------------------------------

  ghost predicate RefAccepted(names: Names, ref: string, path: seq<string>)
    requires |path| <= MAX_DEPTH
  {
    if ref in path then ref in names.models
    else ref in names.routings ==> Dfs(names, Children(names.routings[ref]), path + [ref]).None?
  }

  lemma {:induction false} DfsEachRef(names: Names, members: seq<Member>, path: seq<string>)
    requires |path| <= MAX_DEPTH
    ensures Dfs(names, members, path).None? <==> forall ref | ref in Refs(members) :: RefAccepted(names, ref, path)
    decreases |members|
  {
    if members != [] {
      DfsEachRef(names, members[1..], path);
      assert members == [members[0]] + members[1..];
      assert Refs(members) == {members[0].ref} + Refs(members[1..]);
      assert Dfs(names, members, path).None?
        <==> RefAccepted(names, members[0].ref, path) && Dfs(names, members[1..], path).None?;
    }
  }

  lemma {:induction false} SimpleExtends(names: Names, path: seq<string>, next: string)
    requires Simple(names, path) && next !in path && next in names.routings && Edge(names, path[|path| - 1], next)
    ensures Simple(names, path + [next])
  {
    var p := path + [next];
    forall i | 0 <= i < |p| - 1
      ensures Edge(names, p[i], p[i + 1])
    {
      if i == |path| - 1 {
        assert p[i] == path[|path| - 1] && p[i + 1] == next;
      } else {
        assert p[i] == path[i] && p[i + 1] == path[i + 1];
      }
    }
  }

  /** Below `path` the search accepts exactly when every simple path that begins with it is harmless. */
  lemma {:induction false} DfsBelow(names: Names, path: seq<string>)
    requires Simple(names, path)
    ensures Dfs(names, Children(names.routings[path[|path| - 1]]), path).None?
      <==> forall p | Simple(names, p) && path <= p :: Harmless(names, p)
    decreases MAX_DEPTH + 1 - |path|
  {
    var last := path[|path| - 1];
    var members := Children(names.routings[last]);
    if |path| > MAX_DEPTH {
      assert !Harmless(names, path);
    } else {
      DfsEachRef(names, members, path);
      forall ref | ref in Refs(members) && ref !in path && ref in names.routings
        ensures RefAccepted(names, ref, path)
          <==> forall p | Simple(names, p) && path + [ref] <= p :: Harmless(names, p)
      {
        SimpleExtends(names, path, ref);
        assert (path + [ref])[|path + [ref]| - 1] == ref;
        DfsBelow(names, path + [ref]);
      }
      if Dfs(names, members, path).None? {
        forall p | Simple(names, p) && path <= p
          ensures Harmless(names, p)
        {
          BelowIsHarmless(names, path, p);
        }
      } else {
        var ref :| ref in Refs(members) && !RefAccepted(names, ref, path);
        if ref in path {
          assert Edge(names, last, ref);
          assert !Harmless(names, path);
        } else {
          var p :| Simple(names, p) && path + [ref] <= p && !Harmless(names, p);
          assert path <= p;
        }
      }
    }
  }

  lemma {:induction false} BelowIsHarmless(names: Names, path: seq<string>, p: seq<string>)
    requires Simple(names, path) && |path| <= MAX_DEPTH && Simple(names, p) && path <= p
    requires forall ref | ref in Refs(Children(names.routings[path[|path| - 1]])) :: RefAccepted(names, ref, path)
    requires forall ref | ref in Refs(Children(names.routings[path[|path| - 1]])) && ref !in path
      && ref in names.routings
      :: RefAccepted(names, ref, path) ==> forall q | Simple(names, q) && path + [ref] <= q :: Harmless(names, q)
    ensures Harmless(names, p)
  {
    hide Dfs;
    var n := |path|;
    if |p| > n {
      assert Edge(names, p[n - 1], p[n]) && p[n - 1] == path[n - 1];
      assert p[n] !in path;
      assert path + [p[n]] <= p;
    } else {
      assert p == path;
      assert forall b | b in path && Edge(names, path[n - 1], b) :: RefAccepted(names, b, path);
    }
  }

  /** The search never looks up a routing it is already visiting, so its stored version does not matter. */
  lemma {:induction false} DfsIgnoresVisited(names: Names, r: Routing, members: seq<Member>, path: seq<string>)
    requires r.name in path
    ensures Dfs(With(names, r), members, path) == Dfs(names, members, path)
    decreases MAX_DEPTH + 1 - |path|, |members|
  {
    if |path| <= MAX_DEPTH && members != [] {
      var ref := members[0].ref;
      if ref !in path && ref in names.routings {
        assert With(names, r).routings[ref] == names.routings[ref];
        DfsIgnoresVisited(names, r, Children(names.routings[ref]), path + [ref]);
      }
      DfsIgnoresVisited(names, r, members[1..], path);
    }
  }

  /**
   * The search from a routing accepts exactly when, with that routing stored, every simple path from it
   * meets at most five routings and closes cycles only on names of real models.
   */
  lemma {:induction false} DfsAccepts(names: Names, r: Routing)
    ensures Dfs(names, Children(r), [r.name]).None? <==> Accepted(With(names, r), r.name)
  {
    var stored := With(names, r);
    DfsIgnoresVisited(names, r, Children(r), [r.name]);
    DfsBelow(stored, [r.name]);
    assert forall p: seq<string> | p != [] :: p[0] == r.name <==> [r.name] <= p;
  }

  /** A cycle that passes through no real model: a walk that ends where it has been, at its first repetition. */
  ghost predicate IsCycle(names: Names, c: seq<string>) {
    && |c| >= 2
    && Walk(names, c)
    && Distinct(c[..|c| - 1])
    && c[|c| - 1] in c[..|c| - 1]
    && c[|c| - 1] !in names.models
  }

  /** Reported errors are real. */
  ghost predicate Evidence(names: Names, e: RoutingError, start: string) {
    match e
    case CycleDetected(c) => IsCycle(names, c) && c[0] == start
    case MaxDepth(p) => Simple(names, p) && p[0] == start && |p| == MAX_DEPTH + 1
    case _ => false
  }

  lemma {:induction false} DfsErrorBelow(names: Names, members: seq<Member>, path: seq<string>)
    requires Simple(names, path) && |path| <= MAX_DEPTH + 1
    requires Refs(members) <= Refs(Children(names.routings[path[|path| - 1]]))
    requires Dfs(names, members, path).Some?
    ensures Evidence(names, Dfs(names, members, path).value, path[0])
    decreases MAX_DEPTH + 1 - |path|, |members|
  {
    if |path| <= MAX_DEPTH {
      var ref := members[0].ref;
      assert ref in Refs(members);
      assert Edge(names, path[|path| - 1], ref);
      var p := path + [ref];
      if ref in path && ref !in names.models {
        assert p[..|p| - 1] == path;
        forall i | 0 <= i < |p| - 1
          ensures Edge(names, p[i], p[i + 1])
        {
          if i < |path| - 1 {
            assert p[i] == path[i] && p[i + 1] == path[i + 1];
          }
        }
      } else if ref !in path && ref in names.routings && Dfs(names, Children(names.routings[ref]), p).Some? {
        SimpleExtends(names, path, ref);
        DfsErrorBelow(names, Children(names.routings[ref]), p);
      } else {
        assert Refs(members[1..]) <= Refs(members);
        DfsErrorBelow(names, members[1..], path);
      }
    }
  }

  /** A refused routing is refused with a path that shows why. */
  lemma {:induction false} DfsErrorIsReal(names: Names, r: Routing)
    requires Dfs(names, Children(r), [r.name]).Some?
    ensures Evidence(With(names, r), Dfs(names, Children(r), [r.name]).value, r.name)
  {
    DfsIgnoresVisited(names, r, Children(r), [r.name]);
    DfsErrorBelow(With(names, r), Children(r), [r.name]);
  }

  // ---------------------------------------------------------------------------------------------
  // Cycles through an accepted routing
  // ---------------------------------------------------------------------------------------------

  ghost predicate ClosedWalk(names: Names, w: seq<string>) {
    |w| >= 2 && Walk(names, w) && w[0] == w[|w| - 1]
  }

  /** The first position at which a walk meets a name again. */
  lemma {:induction false} FirstRepetition(w: seq<string>) returns (k: nat)
    requires |w| >= 2 && w[0] == w[|w| - 1]
    ensures 0 < k < |w| && Distinct(w[..k]) && w[k] in w[..k]
  {
    k := 1;
    while w[k] !in w[..k]
      invariant 0 < k < |w| && Distinct(w[..k])
      decreases |w| - k
    {
      assert k < |w| - 1 by {
        assert w[0] in w[..k];
      }
      assert w[..k + 1] == w[..k] + [w[k]];
      k := k + 1;
    }
  }

  /** A closed walk that begins at an accepted routing meets the name of a real model. */
  lemma {:induction false} AcceptedBreaksCycles(names: Names, w: seq<string>)
    requires ClosedWalk(names, w) && Accepted(names, w[0])
    ensures exists n :: n in w && n in names.models
  {
    var k := FirstRepetition(w);
    var p := w[..k];
    forall i | 0 <= i < |p|
      ensures p[i] in names.routings && (i < |p| - 1 ==> Edge(names, p[i], p[i + 1]))
    {
      assert Edge(names, w[i], w[i + 1]);
    }
    assert Simple(names, p);
    assert Edge(names, w[k - 1], w[k]) && p[|p| - 1] == w[k - 1];
    assert w[k] in names.models;
  }

  /** A closed walk may be read from any of its names. */
  lemma {:induction false} Rotate(names: Names, w: seq<string>, k: nat) returns (v: seq<string>)
    requires ClosedWalk(names, w) && k < |w| - 1
    ensures ClosedWalk(names, v) && v[0] == w[k] && forall n :: n in v <==> n in w
  {
    var m := |w| - 1;
    v := w[k..m] + w[..k + 1];
    forall i | 0 <= i < |v| - 1
      ensures Edge(names, v[i], v[i + 1])
    {
      if i < m - k {
        assert v[i] == w[k + i] && v[i + 1] == w[k + i + 1];
      } else {
        assert v[i] == w[i - (m - k)] && v[i + 1] == w[i - (m - k) + 1];
      }
    }
    assert w == w[..k + 1] + w[k + 1..m] + [w[m]];
    assert forall n | n in w[k + 1..m] :: n in w[k..m];
  }
}
