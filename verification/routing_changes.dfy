/**
 * What a change of some routings does to the graph of all of them: the cycles it can close, and the other
 * routings whose own validation (internal/dao/model_routing_validate.go:85-131) it can break.
 */
module RoutingChanges {
  import opened Sequences
  import opened RoutingGraph

  /** What b has, a has with the same members, except for the changed names. */
  ghost predicate SameBut(a: Names, b: Names, changed: set<string>) {
    && a.models == b.models
    && forall n | n in b.routings && n !in changed :: n in a.routings && a.routings[n].members == b.routings[n].members
  }

  /** Two graphs that differ only in what the search does not read. */
  ghost predicate SameGraph(a: Names, b: Names) {
    SameBut(a, b, {}) && SameBut(b, a, {})
  }

  // ---------------------------------------------------------------------------------------------
  // Cycles
  // ---------------------------------------------------------------------------------------------

  /** Every cycle of global routings passes through the name of a real model. */
  ghost predicate CyclesBroken(names: Names) {
    forall w | ClosedWalk(names, w) :: exists n :: n in w && n in names.models
  }

  /** A cycle through two names that meets no real model. */
  ghost predicate FreeLoop(names: Names, a: string, b: string) {
    exists w :: ClosedWalk(names, w) && w[0] == a && b in w && forall n | n in w :: n !in names.models
  }

  lemma {:induction false} WalkCarries(a: Names, b: Names, w: seq<string>)
    requires ClosedWalk(a, w) && a.models == b.models
    requires forall n | n in w && n in a.routings :: n in b.routings && b.routings[n].members == a.routings[n].members
    ensures ClosedWalk(b, w)
  {
    forall i | 0 <= i < |w| - 1
      ensures Edge(b, w[i], w[i + 1])
    {
      assert Edge(a, w[i], w[i + 1]);
    }
  }

  /** A cycle that meets no model can be read from any of its names. */
  lemma {:induction false} LoopFrom(names: Names, w: seq<string>, s: string)
    requires ClosedWalk(names, w) && s in w && forall n | n in w :: n !in names.models
    ensures forall x | x in w :: FreeLoop(names, s, x)
  {
    hide Walk, Edge;
    var k :| 0 <= k < |w| && w[k] == s;
    var v := Rotate(names, w, if k == |w| - 1 then 0 else k);
    assert forall n | n in v :: n in w;
    assert forall x | x in w :: x in v;
  }

  lemma {:induction false} LoopTurns(names: Names, a: string, b: string)
    requires FreeLoop(names, a, b)
    ensures FreeLoop(names, b, b) && !CyclesBroken(names)
  {
    var w :| ClosedWalk(names, w) && w[0] == a && b in w && forall n | n in w :: n !in names.models;
    LoopFrom(names, w, b);
  }

  /** After a change the cycles are broken exactly when no changed name lies on one that is not. */
  lemma {:induction false} ChangeBreaksCycles(a: Names, b: Names, changed: set<string>)
    requires CyclesBroken(a) && SameBut(a, b, changed)
    ensures CyclesBroken(b) <==> forall s | s in changed :: !FreeLoop(b, s, s)
  {
    hide Walk, Edge, FreeLoop;
    if forall s | s in changed :: !FreeLoop(b, s, s) {
      forall w | ClosedWalk(b, w)
        ensures exists n :: n in w && n in b.models
      {
        if forall n | n in w :: n !in b.models {
          forall s | s in changed
            ensures s !in w
          {
            if s in w { LoopFrom(b, w, s); }
          }
          WalkCarries(b, a, w);
        }
      }
    } else {
      var s :| s in changed && FreeLoop(b, s, s);
      LoopTurns(b, s, s);
    }
  }

  /** A cycle through a routing that was accepted in another graph goes through one of those that differ. */
  lemma {:induction false} HiddenLoop(seen: Names, after: Names, s: string, differ: set<string>) returns (x: string)
    requires Accepted(seen, s) && SameBut(seen, after, differ) && FreeLoop(after, s, s)
    ensures x in differ && FreeLoop(after, s, x)
  {
    hide Walk, Edge, Accepted;
    var w :| ClosedWalk(after, w) && w[0] == s && s in w && forall n | n in w :: n !in after.models;
    if forall n | n in w :: n !in differ {
      WalkCarries(after, seen, w);
      AcceptedBreaksCycles(seen, w);
      assert false;
    }
    x :| x in w && x in differ;
  }

  // ---------------------------------------------------------------------------------------------
  // Paths through a name
  // ---------------------------------------------------------------------------------------------

  ghost predicate AllAccepted(names: Names) {
    forall n | n in names.routings :: Accepted(names, n)
  }

  /** A path p into a name and a path q out of it that have nothing else in common. */
  ghost predicate Joins(names: Names, p: seq<string>, q: seq<string>) {
    Simple(names, p) && Simple(names, q) && p[|p| - 1] == q[0] && forall i | 0 <= i < |p| - 1 :: p[i] !in q
  }

  /** Together they meet at most five routings, and q leads back to neither but by the name of a real model. */
  ghost predicate Joinable(names: Names, p: seq<string>, q: seq<string>)
    requires q != []
  {
    |p| + |q| <= MAX_DEPTH + 1 && forall b | (b in p || b in q) && Edge(names, q[|q| - 1], b) :: b in names.models
  }

  ghost predicate WellJoined(names: Names, s: string) {
    forall p, q | Joins(names, p, q) && q[0] == s :: Joinable(names, p, q)
  }

  /** A path of one graph whose routings have the same members in another is a path there. */
  lemma {:induction false} SimpleCarries(a: Names, b: Names, p: seq<string>)
    requires Simple(a, p)
    requires forall i | 0 <= i < |p| :: p[i] in b.routings && b.routings[p[i]].members == a.routings[p[i]].members
    ensures Simple(b, p)
  {
    forall i | 0 <= i < |p| - 1
      ensures Edge(b, p[i], p[i + 1])
    {
      assert Edge(a, p[i], p[i + 1]);
    }
  }

  lemma {:induction false} HarmlessCarries(a: Names, b: Names, p: seq<string>)
    requires p != [] && Harmless(a, p) && a.models == b.models
    requires var last := p[|p| - 1];
      last in a.routings && last in b.routings && a.routings[last].members == b.routings[last].members
    ensures Harmless(b, p)
  {
    forall n | n in p && Edge(b, p[|p| - 1], n)
      ensures n in b.models
    {
      assert Edge(a, p[|p| - 1], n);
    }
  }

  lemma {:induction false} SimplePrefix(names: Names, p: seq<string>, k: nat)
    requires Simple(names, p) && k < |p|
    ensures Simple(names, p[..k + 1])
  {
    var q := p[..k + 1];
    forall i | 0 <= i < |q| - 1
      ensures Edge(names, q[i], q[i + 1])
    {
      assert Edge(names, p[i], p[i + 1]);
    }
  }

  lemma {:induction false} SimpleSuffix(names: Names, p: seq<string>, k: nat)
    requires Simple(names, p) && k < |p|
    ensures Simple(names, p[k..])
  {
    var q := p[k..];
    forall i | 0 <= i < |q| - 1
      ensures Edge(names, q[i], q[i + 1])
    {
      assert q[i] == p[k + i] && q[i + 1] == p[k + i + 1];
    }
  }

  lemma {:induction false} JoinedIsSimple(names: Names, p: seq<string>, q: seq<string>)
    requires Joins(names, p, q)
    ensures Simple(names, p + q[1..])
  {
    var r, n := p + q[1..], |p| - 1;
    assert forall i | 0 <= i < |r| :: r[i] == if i < n then p[i] else q[i - n];
    forall i | 0 <= i < |r| - 1
      ensures Edge(names, r[i], r[i + 1])
    {
      if i < n {
        assert Edge(names, p[i], p[i + 1]);
      } else {
        assert Edge(names, q[i - n], q[i - n + 1]);
      }
    }
    hide Walk, Edge;
    assert Distinct(r);
  }

  lemma {:induction false} SplitJoins(names: Names, r: seq<string>, k: nat)
    requires Simple(names, r) && k < |r|
    ensures Joins(names, r[..k + 1], r[k..])
    ensures Joinable(names, r[..k + 1], r[k..]) ==> Harmless(names, r)
  {
    hide Walk, Edge;
    SimplePrefix(names, r, k);
    SimpleSuffix(names, r, k);
    var p, q := r[..k + 1], r[k..];
    assert forall b | b in r :: b in p || b in q;
    assert r[|r| - 1] == q[|q| - 1];
  }

  lemma {:induction false} JoinedHarmless(names: Names, p: seq<string>, q: seq<string>)
    requires Joins(names, p, q) && Harmless(names, p + q[1..])
    ensures Joinable(names, p, q)
  {
    hide Walk, Edge;
    var r := p + q[1..];
    assert r[|r| - 1] == q[|q| - 1];
    assert q == [q[0]] + q[1..];
    assert forall b | b in p || b in q :: b in r;
  }

  /** A name is well joined exactly when every path through it is harmless. */
  lemma {:induction false} WellJoinedIff(names: Names, s: string)
    ensures WellJoined(names, s) <==> forall r | Simple(names, r) && s in r :: Harmless(names, r)
  {
    hide Walk, Edge, Distinct, Joinable, Harmless;
    if WellJoined(names, s) {
      forall r | Simple(names, r) && s in r
        ensures Harmless(names, r)
      {
        var k :| 0 <= k < |r| && r[k] == s;
        SplitJoins(names, r, k);
        assert r[k..][0] == s;
      }
    }
    if forall r | Simple(names, r) && s in r :: Harmless(names, r) {
      forall p, q | Joins(names, p, q) && q[0] == s
        ensures Joinable(names, p, q)
      {
        JoinsAt(names, p, q);
        JoinedIsSimple(names, p, q);
        JoinedHarmless(names, p, q);
      }
    }
  }

  lemma {:induction false} JoinsAt(names: Names, p: seq<string>, q: seq<string>)
    requires Joins(names, p, q)
    ensures p != [] && q != [] && q[0] in p + q[1..]
  {
    assert (p + q[1..])[|p| - 1] == q[0];
  }

  // ---------------------------------------------------------------------------------------------
  // The other routings
  // ---------------------------------------------------------------------------------------------

  lemma {:induction false} PathCarries(a: Names, b: Names, changed: set<string>, p: seq<string>)
    requires SameBut(a, b, changed) && Simple(b, p) && (forall n | n in p :: n !in changed) && Accepted(a, p[0])
    ensures Harmless(b, p)
  {
    hide Walk, Edge, Distinct;
    forall i | 0 <= i < |p|
      ensures p[i] in a.routings && a.routings[p[i]].members == b.routings[p[i]].members
    {
      assert p[i] in p;
    }
    SimpleCarries(b, a, p);
    HarmlessCarries(a, b, p);
  }

  /** After a change all routings still pass the search exactly when the changed names are well joined. */
  lemma {:induction false} ChangeKeepsAccepted(a: Names, b: Names, changed: set<string>)
    requires AllAccepted(a) && SameBut(a, b, changed)
    ensures AllAccepted(b) <==> forall s | s in changed :: WellJoined(b, s)
  {
    hide Walk, Edge, Distinct, Harmless, WellJoined;
    forall s
      ensures WellJoined(b, s) <==> forall r | Simple(b, r) && s in r :: Harmless(b, r)
    {
      WellJoinedIff(b, s);
    }
    if forall s | s in changed :: WellJoined(b, s) {
      forall g, p | g in b.routings && Simple(b, p) && p[0] == g
        ensures Harmless(b, p)
      {
        if forall n | n in p :: n !in changed {
          assert p[0] in p && Accepted(a, p[0]);
          PathCarries(a, b, changed, p);
        }
      }
    }
    if AllAccepted(b) {
      forall r | Simple(b, r)
        ensures Harmless(b, r)
      {
        assert Accepted(b, r[0]);
      }
    }
  }

  /** One routing passes the search in a changed graph exactly when its paths to changed names are harmless. */
  lemma {:induction false} ChangeKeepsOne(a: Names, b: Names, changed: set<string>, g: string)
    requires Accepted(a, g) && SameBut(a, b, changed)
    ensures Accepted(b, g)
      <==> forall p | Simple(b, p) && p[0] == g && (exists s :: s in changed && s in p) :: Harmless(b, p)
  {
    hide Walk, Edge, Distinct, Harmless;
    forall p | Simple(b, p) && p[0] == g && !(exists s :: s in changed && s in p)
      ensures Harmless(b, p)
    {
      PathCarries(a, b, changed, p);
    }
  }

  /** A graph with fewer routings accepts as much. */
  lemma {:induction false} FewerAccepted(a: Names, b: Names, g: string)
    requires Accepted(a, g) && SameBut(a, b, {})
    ensures Accepted(b, g)
  {
    forall p | Simple(b, p) && p[0] == g
      ensures Harmless(b, p)
    {
      PathCarries(a, b, {}, p);
    }
  }

  lemma {:induction false} SameAccepted(a: Names, b: Names)
    requires SameGraph(a, b)
    ensures forall g :: Accepted(a, g) <==> Accepted(b, g)
    ensures AllAccepted(a) <==> AllAccepted(b)
  {
    forall g
      ensures Accepted(a, g) <==> Accepted(b, g)
    {
      hide Accepted;
      if Accepted(a, g) { FewerAccepted(a, b, g); }
      if Accepted(b, g) { FewerAccepted(b, a, g); }
    }
    hide Accepted;
    assert a.routings.Keys == b.routings.Keys;
  }
}
