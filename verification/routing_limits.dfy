/**
 * Mutations of stored routings that go through and break something
 * (internal/dao/model_routing.go:94-170): a concrete table and step for each way the conditions of
 * RoutingLaws can fail.
 */
module RoutingLimits {
  import opened Options
  import opened Sequences
  import opened RoutingGraph
  import opened RoutingChanges
  import opened RoutingValidation
  import opened RoutingStores
  import opened RoutingLaws

  // ---------------------------------------------------------------------------------------------
  // Small tables
  // ---------------------------------------------------------------------------------------------

  /** A global routing with one member. */
  function To(id: nat, name: string, ref: string): Routing {
    Routing(id, name, Global, 0, Parsed([Member(ref, 0, 1)]), true, "")
  }

  lemma {:induction false} ToRefs(id: nat, name: string, ref: string)
    ensures Refs(Children(To(id, name, ref))) == {ref}
  {
    assert Member(ref, 0, 1) in Children(To(id, name, ref));
  }

  /** The refs of a list of names, one each. */
  function Table(names: seq<string>, refs: seq<string>): Rows
    requires |names| == |refs|
  {
    map i: nat | i < |names| :: To(i, names[i], refs[i])
  }

  lemma {:induction false} TableRow(names: seq<string>, refs: seq<string>, i: nat)
    requires |names| == |refs| && i < |names|
    ensures i in Table(names, refs) && Table(names, refs)[i] == To(i, names[i], refs[i])
  {
  }

  lemma {:induction false} TableUnique(names: seq<string>, refs: seq<string>)
    requires |names| == |refs| && Distinct(names)
    ensures UniqueNames(Table(names, refs))
  {
    var rows := Table(names, refs);
    forall i, j | i in rows && j in rows && SameSlot(rows[i], rows[j])
      ensures i == j
    {
      assert rows[i].name == names[i] && rows[j].name == names[j];
    }
  }

  /** The graph of a table: each name leads to its ref. */
  ghost predicate Leads(names: Names, from: seq<string>, to: seq<string>) {
    && |from| == |to|
    && (forall n | n in names.routings :: n in from)
    && forall i | 0 <= i < |from| ::
         from[i] in names.routings && names.routings[from[i]].members == Parsed([Member(to[i], 0, 1)])
  }

  lemma {:induction false} TableLeads(models: set<string>, from: seq<string>, to: seq<string>)
    requires |from| == |to| && Distinct(from)
    ensures UniqueNames(Table(from, to)) && TableOk(Table(from, to))
    ensures Leads(NamesOf(models, Table(from, to)), from, to) && NamesOf(models, Table(from, to)).models == models
  {
    var rows := Table(from, to);
    TableUnique(from, to);
    hide NamesOf, UniqueNames, TableOk, Distinct, Table;
    TablesOk(rows, rows);
    NamesKeyed(models, rows);
    forall i | 0 <= i < |from|
      ensures from[i] in NamesOf(models, rows).routings
      ensures NamesOf(models, rows).routings[from[i]] == To(i, from[i], to[i])
    {
      TableRow(from, to, i);
      NamedRow(models, rows, i);
    }
    forall n | n in NamesOf(models, rows).routings
      ensures n in from
    {
      RowNamed(models, rows, n);
      TableNames(from, to, NamesOf(models, rows).routings[n].id);
    }
  }

  lemma {:induction false} TableNames(from: seq<string>, to: seq<string>, i: nat)
    requires |from| == |to| && i in Table(from, to)
    ensures Table(from, to)[i].name in from
  {
  }

  lemma {:induction false} LeadsEdge(names: Names, from: seq<string>, to: seq<string>, i: nat, b: string)
    requires Leads(names, from, to) && i < |from|
    ensures Edge(names, from[i], b) <==> b == to[i]
    ensures from[i] in names.routings
  {
    var r := names.routings[from[i]];
    ToRefs(0, "", to[i]);
    assert Children(r) == Children(To(0, "", to[i]));
  }

  /** All members of such a table resolve when its refs do. */
  lemma {:induction false} TableResolved(models: set<string>, from: seq<string>, to: seq<string>)
    requires |from| == |to|
    requires forall ref | ref in to :: ref != "" && Resolves(NamesOf(models, Table(from, to)), ref)
    ensures Resolved(models, Table(from, to))
  {
    hide NamesOf, Resolves;
    forall i | i in Table(from, to)
      ensures GoodMembers(NamesOf(models, Table(from, to)), Table(from, to)[i].members)
    {
      assert to[i] in to;
    }
  }

  /** Saving under the same or a new name, when names are unique. */
  lemma {:induction false} PutIsWith(models: set<string>, rows: Rows, r: Routing)
    requires UniqueNames(rows) && UniqueNames(rows[r.id := r]) && r.scope.Global?
    requires r.id in rows ==> rows[r.id].name == r.name
    ensures NamesOf(models, rows[r.id := r]) == With(NamesOf(models, rows), r)
  {
    hide NamesOf, UniqueNames;
    var after := rows[r.id := r];
    var names, now := NamesOf(models, rows), NamesOf(models, after);
    TablesOk(rows, after);
    NamesKeyed(models, rows);
    NamesKeyed(models, after);
    forall n | n in now.routings
      ensures n == r.name || (n in names.routings && names.routings[n] == now.routings[n])
    {
      RowNamed(models, after, n);
      if n != r.name {
        NamedRow(models, rows, now.routings[n].id);
      }
    }
    NamedRow(models, after, r.id);
    forall n | n in names.routings && n != r.name
      ensures n in now.routings
    {
      RowNamed(models, rows, n);
      NamedRow(models, after, names.routings[n].id);
    }
    assert now.routings == With(names, r).routings;
  }

  /** From a routing with one ref a path can only go on there. */
  lemma {:induction false} OnlyStep(names: Names, p: seq<string>, i: nat, x: string)
    requires Simple(names, p) && i + 1 < |p| && Refs(Children(names.routings[p[i]])) == {x}
    ensures p[i + 1] == x && x in names.routings
  {
    assert Edge(names, p[i], p[i + 1]);
  }

  /** A routing whose only ref is no routing is accepted. */
  lemma {:induction false} LeafAccepted(names: Names, n: string, x: string)
    requires n in names.routings && Refs(Children(names.routings[n])) == {x} && x !in names.routings
    ensures Accepted(names, n)
  {
    forall p | Simple(names, p) && p[0] == n
      ensures Harmless(names, p)
    {
      if |p| > 1 {
        OnlyStep(names, p, 0, x);
      }
      assert |p| == 1 && p[0] != x;
    }
  }

  lemma {:induction false} LeadsIn(names: Names, from: seq<string>, to: seq<string>)
    requires Leads(names, from, to)
    ensures |from| == |to| && forall n | n in names.routings :: n in from
  {
  }

  // ---------------------------------------------------------------------------------------------
  // Reads that fail
  // ---------------------------------------------------------------------------------------------

  /** In a closed walk every name is a routing that leads to another name of the walk. */
  lemma {:induction false} ClosedNext(names: Names, w: seq<string>, n: string) returns (m: string)
    requires ClosedWalk(names, w) && n in w
    ensures m in w && Edge(names, n, m)
  {
    var k :| 0 <= k < |w| && w[k] == n;
    var i := if k == |w| - 1 then 0 else k;
    m := w[i + 1];
    assert Edge(names, w[i], w[i + 1]);
  }

  lemma {:induction false} OffCycles(names: Names, from: seq<string>, to: seq<string>, w: seq<string>, i: nat)
    requires Leads(names, from, to) && i < |from| && ClosedWalk(names, w) && from[i] in w
    ensures to[i] in w && to[i] in from
  {
    hide Walk, Edge;
    var m := ClosedNext(names, w, from[i]);
    LeadsEdge(names, from, to, i, m);
    var next := ClosedNext(names, w, m);
    EdgeFrom(names, m, next);
  }

  lemma {:induction false} EdgeFrom(names: Names, a: string, b: string)
    requires Edge(names, a, b)
    ensures a in names.routings
  {
  }

  /** A chain b -> c -> a that ends in a model: no cycle at all. */
  lemma {:induction false} NoCycle(names: Names, a: string, b: string, c: string, model: string, w: seq<string>)
    requires Leads(names, [a, b, c], [model, c, a]) && model !in {a, b, c}
    ensures !ClosedWalk(names, w)
  {
    var from, to := [a, b, c], [model, c, a];
    if ClosedWalk(names, w) {
      hide Walk, Edge, Leads;
      var n := w[0];
      var m := ClosedNext(names, w, n);
      EdgeFrom(names, n, m);
      LeadsIn(names, from, to);
      if c in w { OffCycles(names, from, to, w, 2); }
      if b in w { OffCycles(names, from, to, w, 1); OffCycles(names, from, to, w, 2); }
      OffCycles(names, from, to, w, 0);
      assert false;
    }
  }

  /** A table of a -> model, b -> c and c -> a, and an update that has a refer to b. */
  function JoinUpdate(b: string, queries: Failures): Op {
    Update(0, Updates(None, Some(Parsed([Member(b, 0, 1)])), None, None), Fault(false, queries, Written))
  }

  lemma {:induction false} JoinAccepted(names: Names, a: string, b: string, c: string, model: string, next: Routing)
    requires Leads(names, [a, b, c], [model, c, a]) && names.models == {model} && Distinct([a, b, c, model])
    requires GoodName(a) && b != "" && next == To(0, a, b)
    ensures Checked(names, Failures({c}, NOT_BLIND, {}), next).None?
  {
    hide Checked, Walk, Accepted, NeverBlind;
    var fails := Failures({c}, NOT_BLIND, {});
    var seen := Seen(names, fails);
    var all := [a, b, c, model];
    assert all[0] == a && all[1] == b && all[2] == c && all[3] == model;
    assert With(seen, next).routings.Keys == {a, b};
    LeadsEdge(names, [a, b, c], [model, c, a], 1, c);
    TwoSteps(With(seen, next), a, b, c);
    NothingBlind();
    ValidateAccepts(names, fails, next);
  }

  /** a leads to b only and b to something that is no routing. */
  lemma {:induction false} TwoSteps(names: Names, a: string, b: string, c: string)
    requires names.routings.Keys == {a, b} && a != b && c !in {a, b}
    requires Refs(Children(names.routings[a])) == {b} && Refs(Children(names.routings[b])) == {c}
    ensures Accepted(names, a)
  {
    forall p | Simple(names, p) && p[0] == a
      ensures Harmless(names, p)
    {
      if |p| > 1 {
        OnlyStep(names, p, 0, b);
      }
      if |p| > 2 {
        OnlyStep(names, p, 1, c);
      }
      assert |p| <= 2;
    }
  }

  /** A walk around a cycle of three. */
  lemma {:induction false} CycleOfThree(names: Names, a: string, b: string, c: string)
    requires a in names.routings && b in names.routings && c in names.routings
    requires Refs(Children(names.routings[a])) == {b} && Refs(Children(names.routings[b])) == {c}
    requires Refs(Children(names.routings[c])) == {a} && names.models !! {a, b, c}
    ensures !CyclesBroken(names)
  {
    var w := [a, b, c, a];
    assert Edge(names, a, b) && Edge(names, b, c) && Edge(names, c, a);
    assert ClosedWalk(names, w);
    assert forall n | n in w :: n in {a, b, c};
  }

  /**
   * With a -> model and b -> c -> a stored, having a refer to b goes through while the lookup of c fails, and
   * stores a cycle that meets no model.
   */
  lemma {:induction false} LostLookupStoresCycle(a: string, b: string, c: string, model: string)
    requires GoodName(a) && b != "" && c != "" && model != "" && Distinct([a, b, c, model])
    ensures var rows := Table([a, b, c], [model, c, a]);
      var o := Step({model}, rows, JoinUpdate(b, Failures({c}, NOT_BLIND, {})));
      && UniqueNames(rows) && Resolved({model}, rows) && CyclesBroken(NamesOf({model}, rows))
      && o.err.None? && !CyclesBroken(NamesOf({model}, o.rows))
  {
    assert a != "";
    hide *;
    var rows, op := Table([a, b, c], [model, c, a]), JoinUpdate(b, Failures({c}, NOT_BLIND, {}));
    LostLookupStart(a, b, c, model);
    LostLookupStep(rows, a, b, c, model, op);
  }

  lemma {:induction false} LostLookupStart(a: string, b: string, c: string, model: string)
    requires c != "" && a != "" && model != "" && Distinct([a, b, c, model])
    ensures var rows := Table([a, b, c], [model, c, a]); var names := NamesOf({model}, rows);
      && UniqueNames(rows) && TableOk(rows) && Resolved({model}, rows) && CyclesBroken(names)
      && Leads(names, [a, b, c], [model, c, a]) && names.models == {model}
      && 0 in rows && rows[0] == To(0, a, model)
  {
    var all := [a, b, c, model];
    assert all[0] == a && all[1] == b && all[2] == c && all[3] == model;
    var from, to := [a, b, c], [model, c, a];
    TableLeads({model}, from, to);
    TableRow(from, to, 0);
    assert NamesOf({model}, Table(from, to)).models == {model};
    hide Table, NamesOf, UniqueNames, TableOk, Distinct;
    var names := NamesOf({model}, Table(from, to));
    assert Resolves(names, model) && Resolves(names, a) && Resolves(names, c) by {
      assert from[0] == a && from[2] == c;
    }
    hide Resolves, Leads, Resolved;
    TableResolved({model}, from, to);
    hide Table, NamesOf, Leads, ClosedWalk;
    forall w
      ensures !ClosedWalk(NamesOf({model}, Table(from, to)), w)
    {
      NoCycle(NamesOf({model}, Table(from, to)), a, b, c, model, w);
    }
  }

  lemma {:induction false} LostLookupStep(rows: Rows, a: string, b: string, c: string, model: string, op: Op)
    requires UniqueNames(rows) && TableOk(rows) && 0 in rows && rows[0] == To(0, a, model)
    requires Leads(NamesOf({model}, rows), [a, b, c], [model, c, a]) && NamesOf({model}, rows).models == {model}
    requires GoodName(a) && b != "" && Distinct([a, b, c, model])
    requires op == JoinUpdate(b, Failures({c}, NOT_BLIND, {}))
    ensures Step({model}, rows, op).err.None? && !CyclesBroken(NamesOf({model}, Step({model}, rows, op).rows))
  {
    var names, next := NamesOf({model}, rows), To(0, a, b);
    assert Updated(rows[0], op.updates) == next && next != rows[0] by {
      assert [a, b, c, model][1] != [a, b, c, model][3];
    }
    assert op.updates != NO_UPDATES && op.updates.name.None? && op == Update(0, op.updates, op.fault);
    hide NamesOf, Checked, UniqueNames, CyclesBroken, Leads, Step, Distinct, JoinUpdate, TableOk, GoodName;
    JoinAccepted(names, a, b, c, model, next);
    UpdateGoesThrough({model}, rows, 0, op.updates, op.fault);
    JoinedGraph(names, a, b, c, model, next);
    StepUnique({model}, rows, op);
    PutIsWith({model}, rows, next);
  }

  lemma {:induction false} JoinedGraph(names: Names, a: string, b: string, c: string, model: string, next: Routing)
    requires Leads(names, [a, b, c], [model, c, a]) && names.models == {model} && Distinct([a, b, c, model])
    requires next == To(0, a, b)
    ensures !CyclesBroken(With(names, next))
  {
    var all := [a, b, c, model];
    assert all[0] == a && all[1] == b && all[2] == c && all[3] == model;
    var from, to, after := [a, b, c], [model, c, a], With(names, next);
    ToRefs(0, a, b);
    ToRefs(0, "", c);
    ToRefs(0, "", a);
    assert names.routings[from[1]].members == Parsed([Member(to[1], 0, 1)]);
    assert names.routings[from[2]].members == Parsed([Member(to[2], 0, 1)]);
    hide CyclesBroken, Refs;
    CycleOfThree(after, a, b, c);
  }

  /** An update that passes validation and does not clash changes its row. */
  lemma {:induction false} UpdateGoesThrough(models: set<string>, rows: Rows, id: nat, u: Updates, fault: Fault)
    requires TableOk(rows) && id in rows && !fault.row && fault.write.Written? && u != NO_UPDATES
    requires Checked(NamesOf(models, rows), fault.queries, Updated(rows[id], u)).None?
    requires u.name.None?
    ensures Step(models, rows, Update(id, u, fault)) == Outcome(rows[id := Updated(rows[id], u)], None)
    ensures Updated(rows[id], u) != rows[id] ==> Step(models, rows, Update(id, u, fault)).rows != rows
  {
    hide NamesOf, Checked, TableOk, Clashes;
    SameNameIsFree(rows, id, Updated(rows[id], u));
  }

  lemma {:induction false} CreateGoesThrough(models: set<string>, rows: Rows, r: Routing)
    requires r.id !in rows && !Clashes(rows, r)
    requires Checked(NamesOf(models, rows), NO_FAULT.queries, r).None?
    ensures Step(models, rows, Create(r, NO_FAULT)) == Outcome(rows[r.id := r], None)
    ensures Step(models, rows, Create(r, NO_FAULT)).rows != rows
  {
    hide NamesOf, Checked, Clashes;
    assert r.id in rows[r.id := r];
  }

  lemma {:induction false} DeleteGoesThrough(models: set<string>, rows: Rows, id: nat, fault: Fault)
    requires id in rows && rows[id].id == id && !fault.row && fault.write.Written?
    requires Referrers(rows, fault.queries.unlisted, id, rows[id].name) == {}
    ensures Step(models, rows, Delete(id, fault)) == Outcome(rows - {id}, None)
    ensures Step(models, rows, Delete(id, fault)).rows != rows
  {
    hide Referrers;
    assert id !in rows - {id};
  }

  lemma {:induction false} SameNameIsFree(rows: Rows, id: nat, next: Routing)
    requires TableOk(rows) && id in rows && next.id == rows[id].id && SameSlot(next, rows[id])
    ensures !Clashes(rows, next)
  {
    forall i | i in rows && i != id
      ensures !SameSlot(rows[i], rows[id])
    {
    }
    assert rows[id].id == id;
    assert forall a: Routing :: SameSlot(a, next) <==> SameSlot(a, rows[id]);
  }

  /** With a -> b -> model stored, b goes through the delete while the list query misses a. */
  lemma {:induction false} MissedListDangles(a: string, b: string, model: string)
    requires a != b && model !in {a, b} && b != "" && model != ""
    ensures var rows := Table([a, b], [b, model]);
      var o := Step({model}, rows, Delete(1, Fault(false, Failures({}, NOT_BLIND, {0}), Written)));
      && UniqueNames(rows) && Resolved({model}, rows)
      && o.err.None? && !Resolved({model}, o.rows)
  {
    TwoRows(a, b, model);
    hide *;
    MissedListStep(Table([a, b], [b, model]), a, b, model, Fault(false, Failures({}, NOT_BLIND, {0}), Written));
  }

  lemma {:induction false} MissedListStep(rows: Rows, a: string, b: string, model: string, fault: Fault)
    requires TwoRowTable(rows, a, b, model) && a != b && b != model
    requires fault == Fault(false, Failures({}, NOT_BLIND, {0}), Written)
    ensures var o := Step({model}, rows, Delete(1, fault)); o.err.None? && !Resolved({model}, o.rows)
  {
    assert Referrers(rows, {0}, 1, b) == {};
    hide NamesOf, UniqueNames, Resolved, Referrers, Step, TableOk, Leads, Refs;
    DeleteGoesThrough({model}, rows, 1, fault);
    StepResolves({model}, rows, Delete(1, fault));
  }

  ghost predicate TwoRowTable(rows: Rows, a: string, b: string, model: string) {
    && UniqueNames(rows) && TableOk(rows) && Resolved({model}, rows)
    && Leads(NamesOf({model}, rows), [a, b], [b, model]) && NamesOf({model}, rows).models == {model}
    && rows.Keys == {0, 1} && rows[0] == To(0, a, b) && rows[1] == To(1, b, model)
    && Referrers(rows, {}, 1, b) != {}
  }

  /** The table of a -> b -> model. */
  lemma {:induction false} TwoRows(a: string, b: string, model: string)
    requires a != b && model != "" && b != ""
    ensures var rows := Table([a, b], [b, model]); TwoRowTable(rows, a, b, model)
    ensures UniqueNames(Table([a, b], [b, model])) && Resolved({model}, Table([a, b], [b, model]))
  {
    var from, to := [a, b], [b, model];
    var rows := Table(from, to);
    TableLeads({model}, from, to);
    TableRow(from, to, 0);
    TableRow(from, to, 1);
    assert rows.Keys == {0, 1};
    hide NamesOf, Table, UniqueNames, TableOk, Resolved, Distinct;
    assert Resolves(NamesOf({model}, rows), model) && Resolves(NamesOf({model}, rows), b) by {
      assert from[1] == b;
    }
    hide Leads, Resolves;
    TableResolved({model}, from, to);
    FirstRefers(rows, a, b);
  }

  lemma {:induction false} FirstRefers(rows: Rows, a: string, b: string)
    requires 0 in rows && rows[0] == To(0, a, b)
    ensures Referrers(rows, {}, 1, b) != {}
  {
    ToRefs(0, a, b);
    assert Mentions(rows[0], b);
    assert a in Referrers(rows, {}, 1, b);
  }

  // ---------------------------------------------------------------------------------------------
  // Renames
  // ---------------------------------------------------------------------------------------------

  /** With a -> b -> model stored, the rename of b to c goes through and leaves a's member without a target. */
  lemma {:induction false} RenameCanDangle(a: string, b: string, c: string, model: string)
    requires GoodName(c) && Distinct([a, b, c]) && model !in {a, b, c} && b != "" && model != ""
    ensures var rows := Table([a, b], [b, model]);
      var o := Step({model}, rows, Update(1, Updates(Some(c), None, None, None), NO_FAULT));
      && UniqueNames(rows) && Resolved({model}, rows)
      && o.err.None? && !Resolved({model}, o.rows)
  {
    var abc := [a, b, c];
    assert abc[0] == a && abc[1] == b && abc[2] == c;
    TwoRows(a, b, model);
    hide *;
    RenameStep(Table([a, b], [b, model]), a, b, c, model);
  }

  lemma {:induction false} RenameStep(rows: Rows, a: string, b: string, c: string, model: string)
    requires TwoRowTable(rows, a, b, model) && GoodName(c)
    requires a != b && a != c && b != c && model !in {a, b, c} && model != ""
    ensures var o := Step({model}, rows, Update(1, Updates(Some(c), None, None, None), NO_FAULT));
      o.err.None? && !Resolved({model}, o.rows)
  {
    hide NamesOf, Resolved, Leads, Referrers, GoodName, Checked, UniqueNames, TableOk, Step;
    var next := To(1, c, model);
    assert rows[1].(name := c) == next && !Clashes(rows, next);
    RowsOfTwo(rows, a, b, model);
    LeafChecked(NamesOf({model}, rows), 1, c, model);
    hide Clashes;
    RenameGoesThrough({model}, rows, 1, c);
    StepResolves({model}, rows, Update(1, Updates(Some(c), None, None, None), NO_FAULT));
  }

  lemma {:induction false} RowsOfTwo(rows: Rows, a: string, b: string, model: string)
    requires TwoRowTable(rows, a, b, model)
    ensures NamesOf({model}, rows).models == {model} && forall n | n in NamesOf({model}, rows).routings :: n in {a, b}
  {
    LeadsIn(NamesOf({model}, rows), [a, b], [b, model]);
  }

  lemma {:induction false} RenameGoesThrough(models: set<string>, rows: Rows, id: nat, name: string)
    requires id in rows && name != rows[id].name
    requires var next := rows[id].(name := name);
      !Clashes(rows, next) && Checked(NamesOf(models, rows), NO_FAULT.queries, next).None?
    ensures var op := Update(id, Updates(Some(name), None, None, None), NO_FAULT);
      var o := Step(models, rows, op);
      o == Outcome(rows[id := rows[id].(name := name)], None) && o.rows != rows
  {
    hide NamesOf, Checked, Clashes;
    assert rows[id := rows[id].(name := name)][id] != rows[id];
  }

  lemma {:induction false} LeafChecked(names: Names, id: nat, c: string, model: string)
    requires names.models == {model} && model !in names.routings
    requires GoodName(c) && model != c && model != ""
    ensures Checked(names, NO_FAULT.queries, To(id, c, model)).None?
  {
    hide Checked, Accepted, NeverBlind;
    var next := To(id, c, model);
    ToRefs(id, c, model);
    assert Seen(names, NO_FAULT.queries) == names;
    LeafAccepted(With(names, next), c, model);
    NothingBlind();
    ValidateAccepts(names, NO_FAULT.queries, next);
  }

  // ---------------------------------------------------------------------------------------------
  // Routings above the saved one
  // ---------------------------------------------------------------------------------------------

  /** Each name refers to the next one, but the one at `cut` and the last refer to the model. */
  function Target(chain: seq<string>, model: string, cut: nat, i: nat): string
    requires i < |chain|
  {
    if i == cut || i == |chain| - 1 then model else chain[i + 1]
  }

  function Targets(chain: seq<string>, model: string, cut: nat): (to: seq<string>)
    ensures |to| == |chain|
  {
    seq(|chain|, i requires 0 <= i < |chain| => Target(chain, model, cut, i))
  }

  ghost predicate IsChain(names: Names, chain: seq<string>, model: string, cut: nat) {
    Distinct(chain) && model !in chain && names.models == {model} && Leads(names, chain, Targets(chain, model, cut))
  }

  lemma {:induction false} ChainLink(names: Names, chain: seq<string>, model: string, cut: nat, i: nat, b: string)
    requires IsChain(names, chain, model, cut) && i < |chain|
    ensures chain[i] in names.routings
    ensures Edge(names, chain[i], b) <==> b == Target(chain, model, cut, i)
  {
    LeadsEdge(names, chain, Targets(chain, model, cut), i, b);
  }

  lemma {:induction false} InChain(names: Names, chain: seq<string>, model: string, cut: nat, n: string)
    requires IsChain(names, chain, model, cut) && n in names.routings
    ensures n in chain && n != model
  {
  }

  /** A path from one name of the chain goes along the chain, at most to the cut. */
  lemma {:induction false} PathFollows(names: Names, chain: seq<string>, model: string, cut: nat, k: nat,
                                       p: seq<string>, i: nat)
    requires IsChain(names, chain, model, cut) && k <= cut < |chain|
    requires Simple(names, p) && p[0] == chain[k] && i < |p|
    ensures k + i <= cut && p[i] == chain[k + i] && p[i] in names.routings
  {
    hide IsChain;
    if i > 0 {
      PathFollows(names, chain, model, cut, k, p, i - 1);
      assert Edge(names, p[i - 1], p[i]);
      ChainLink(names, chain, model, cut, k + i - 1, p[i]);
      InChain(names, chain, model, cut, p[i]);
    }
  }

  lemma {:induction false} NotAhead(names: Names, chain: seq<string>, model: string, cut: nat, i: nat, j: nat)
    requires IsChain(names, chain, model, cut) && i <= j < |chain|
    ensures chain[i] != Target(chain, model, cut, j)
  {
  }

  lemma {:induction false} NoBackEdge(names: Names, chain: seq<string>, model: string, cut: nat, k: nat,
                                      p: seq<string>, i: nat)
    requires IsChain(names, chain, model, cut) && k <= cut < |chain|
    requires Simple(names, p) && p[0] == chain[k] && i < |p|
    ensures k + |p| - 1 <= cut && !Edge(names, p[|p| - 1], p[i])
  {
    hide *;
    var last := |p| - 1;
    PathFollows(names, chain, model, cut, k, p, last);
    PathFollows(names, chain, model, cut, k, p, i);
    ChainLink(names, chain, model, cut, k + last, p[i]);
    NotAhead(names, chain, model, cut, k + i, k + last);
  }

  lemma {:induction false} ChainAccepted(names: Names, chain: seq<string>, model: string, cut: nat, k: nat)
    requires IsChain(names, chain, model, cut) && k <= cut < |chain| && cut - k < MAX_DEPTH
    ensures Accepted(names, chain[k])
  {
    forall p | Simple(names, p) && p[0] == chain[k]
      ensures Harmless(names, p)
    {
      hide IsChain, Edge, Walk;
      forall i | 0 <= i < |p|
        ensures |p| <= MAX_DEPTH && !Edge(names, p[|p| - 1], p[i])
      {
        NoBackEdge(names, chain, model, cut, k, p, i);
      }
    }
  }

  lemma {:induction false} CutChainAccepted(names: Names, chain: seq<string>, model: string)
    requires |chain| == 6 && IsChain(names, chain, model, 4)
    ensures AllAccepted(names)
  {
    forall n | n in names.routings
      ensures Accepted(names, n)
    {
      hide Accepted;
      InChain(names, chain, model, 4, n);
      var i :| 0 <= i < |chain| && chain[i] == n;
      if i <= 4 {
        ChainAccepted(names, chain, model, 4, i);
      } else {
        ToRefs(0, "", model);
        assert names.routings[chain[5]].members == To(0, "", model).members by {
          assert Targets(chain, model, 4)[5] == model;
        }
        LeafAccepted(names, n, model);
      }
    }
  }

  lemma {:induction false} OtherTargets(chain: seq<string>, model: string, i: nat)
    requires |chain| == 6 && Distinct(chain) && i < 6 && i != 4
    ensures Targets(chain, model, 4)[i] == Targets(chain, model, 5)[i] && chain[i] != chain[4]
    ensures Targets(chain, model, 5)[4] == chain[5]
  {
  }

  lemma {:induction false} LeadsAt(names: Names, from: seq<string>, to: seq<string>, i: nat)
    requires Leads(names, from, to) && i < |from|
    ensures from[i] in names.routings && names.routings[from[i]].members == Parsed([Member(to[i], 0, 1)])
  {
  }

  lemma {:induction false} ChainJoined(names: Names, chain: seq<string>, model: string, next: Routing)
    requires |chain| == 6 && IsChain(names, chain, model, 4) && next == To(4, chain[4], chain[5])
    ensures IsChain(With(names, next), chain, model, 5)
  {
    hide Targets, Target, Distinct, Leads;
    var after, to, to' := With(names, next), Targets(chain, model, 4), Targets(chain, model, 5);
    assert Leads(after, chain, to') by {
      forall i | 0 <= i < 6
        ensures chain[i] in after.routings && after.routings[chain[i]].members == Parsed([Member(to'[i], 0, 1)])
      {
        OtherTargets(chain, model, if i == 4 then 0 else i);
        LeadsAt(names, chain, to, i);
      }
      LeadsIn(names, chain, to);
      LeadsMade(after, chain, to');
    }
  }

  lemma {:induction false} LeadsMade(names: Names, from: seq<string>, to: seq<string>)
    requires |from| == |to| && names.routings.Keys <= Elements(from)
    requires forall i | 0 <= i < |from| ::
      from[i] in names.routings && names.routings[from[i]].members == Parsed([Member(to[i], 0, 1)])
    ensures Leads(names, from, to)
  {
  }

  /** The whole chain is a path of six. */
  lemma {:induction false} WholeChain(names: Names, chain: seq<string>, model: string)
    requires |chain| == 6 && IsChain(names, chain, model, 5)
    ensures !Accepted(names, chain[0])
  {
    forall i | 0 <= i < 6
      ensures chain[i] in names.routings && (i < 5 ==> Edge(names, chain[i], chain[i + 1]))
    {
      hide IsChain, Edge;
      ChainLink(names, chain, model, 5, i, if i < 5 then chain[i + 1] else model);
    }
    hide Edge;
    assert Simple(names, chain);
    assert !Harmless(names, chain);
  }

  lemma {:induction false} JoinChecked(names: Names, chain: seq<string>, model: string, next: Routing)
    requires |chain| == 6 && IsChain(names, chain, model, 4) && next == To(4, chain[4], chain[5])
    requires GoodName(chain[4]) && chain[5] != ""
    ensures Checked(names, NO_FAULT.queries, next).None?
  {
    assert chain[5] in names.routings;
    hide IsChain, Checked, Accepted, NeverBlind, Edge;
    assert Seen(names, NO_FAULT.queries) == names;
    NothingBlind();
    ChainJoined(names, chain, model, next);
    ChainAccepted(With(names, next), chain, model, 5, 4);
    ValidateAccepts(names, NO_FAULT.queries, next);
  }

  /**
   * The depth limit is checked for the saved routing, not for those that lead to it: in a chain of six cut
   * after the fifth all pass; joining the fifth to the sixth is accepted, and the first then nests six deep.
   */
  lemma {:induction false} DepthCanGrow(chain: seq<string>, model: string)
    requires |chain| == 6 && Distinct(chain) && model !in chain && GoodName(chain[4]) && chain[5] != ""
    ensures var rows := Table(chain, Targets(chain, model, 4));
      var o := Step({model}, rows,
        Update(4, Updates(None, Some(Parsed([Member(chain[5], 0, 1)])), None, None), NO_FAULT));
      && UniqueNames(rows) && AllAccepted(NamesOf({model}, rows))
      && o.err.None? && !Accepted(NamesOf({model}, o.rows), chain[0])
  {
    hide NamesOf, Accepted, AllAccepted, Table, Targets, Leads, Checked, UniqueNames, TableOk, Step, GoodName, Distinct;
    var rows, next := Table(chain, Targets(chain, model, 4)), To(4, chain[4], chain[5]);
    var u := Updates(None, Some(Parsed([Member(chain[5], 0, 1)])), None, None);
    var op := Update(4, u, NO_FAULT);
    var names := NamesOf({model}, rows);
    TableLeads({model}, chain, Targets(chain, model, 4));
    assert IsChain(names, chain, model, 4);
    CutChainAccepted(names, chain, model);
    ChainRow(chain, model);
    assert Updated(rows[4], u) == next;
    JoinChecked(names, chain, model, next);
    UpdateGoesThrough({model}, rows, 4, u, NO_FAULT);
    StepUnique({model}, rows, op);
    PutIsWith({model}, rows, next);
    ChainJoined(names, chain, model, next);
    WholeChain(With(names, next), chain, model);
  }

  lemma {:induction false} ChainRow(chain: seq<string>, model: string)
    requires |chain| == 6 && Distinct(chain) && model !in chain
    ensures var rows := Table(chain, Targets(chain, model, 4));
      4 in rows && rows[4] == To(4, chain[4], model) && rows[4] != To(4, chain[4], chain[5])
  {
    TableRow(chain, Targets(chain, model, 4), 4);
    assert chain[5] in chain;
  }

  /**
   * Nor is the cycle check: with a model b and a -> b stored, creating a routing b that refers to a is accepted,
   * and a then leads back to itself.  What stops the new routing from being refused is that b is a model.
   */
  lemma {:induction false} CycleCanArise(a: string, b: string)
    requires GoodName(b) && a != "" && a != b
    ensures var rows := Table([a], [b]);
      var o := Step({b}, rows, Create(To(1, b, a), NO_FAULT));
      && UniqueNames(rows) && AllAccepted(NamesOf({b}, rows))
      && o.err.None? && !Accepted(NamesOf({b}, o.rows), a)
  {
    OneRow(a, b);
    hide *;
    CycleStored(Table([a], [b]), a, b, To(1, b, a));
  }

  lemma {:induction false} CycleStored(rows: Rows, a: string, b: string, next: Routing)
    requires UniqueNames(rows) && rows.Keys == {0} && rows[0] == To(0, a, b) && OnePair(NamesOf({b}, rows), a, b)
    requires GoodName(b) && a != "" && a != b && next == To(1, b, a)
    ensures var o := Step({b}, rows, Create(next, NO_FAULT));
      && o == Outcome(rows[1 := next], None) && !Accepted(NamesOf({b}, o.rows), a)
  {
    var names := NamesOf({b}, rows);
    hide NamesOf, UniqueNames, Accepted, GoodName, Checked, Step;
    assert !Clashes(rows, next);
    BackChecked(names, a, b);
    hide Clashes, OnePair;
    CreateGoesThrough({b}, rows, next);
    StepUnique({b}, rows, Create(next, NO_FAULT));
    PutIsWith({b}, rows, next);
  }

  /** One routing, which leads to a name that only a model has. */
  ghost predicate OnePair(names: Names, a: string, b: string) {
    names.models == {b} && names.routings.Keys == {a} && Refs(Children(names.routings[a])) == {b}
  }

  lemma {:induction false} OneRow(a: string, b: string)
    requires a != b
    ensures var rows := Table([a], [b]); var names := NamesOf({b}, rows);
      && UniqueNames(rows) && AllAccepted(names) && OnePair(names, a, b)
      && rows.Keys == {0} && rows[0] == To(0, a, b)
  {
    var from, to := [a], [b];
    var rows := Table(from, to);
    var names := NamesOf({b}, rows);
    TableLeads({b}, from, to);
    TableRow(from, to, 0);
    assert rows.Keys == {0};
    hide NamesOf, Table, UniqueNames, TableOk;
    assert from[0] == a && a in names.routings;
    assert names.routings[a].members == Parsed([Member(b, 0, 1)]);
    assert names.routings.Keys == {a};
    ToRefs(0, a, b);
    hide Leads;
    LeafAccepted(names, a, b);
  }

  /** A pair that refer to each other: the one that is a model's name passes, the other does not. */
  lemma {:induction false} PairAccepted(names: Names, a: string, b: string)
    requires names.routings.Keys == {a, b} && a != b && names.models == {b}
    requires Refs(Children(names.routings[a])) == {b} && Refs(Children(names.routings[b])) == {a}
    ensures Accepted(names, b) && !Accepted(names, a)
  {
    forall p | Simple(names, p) && p[0] == b
      ensures Harmless(names, p)
    {
      if |p| > 1 {
        OnlyStep(names, p, 0, a);
      }
      if |p| > 2 {
        OnlyStep(names, p, 1, b);
      }
      assert |p| <= 2;
    }
    assert Edge(names, a, b) && Edge(names, b, a);
    assert Simple(names, [a, b]) && !Harmless(names, [a, b]) by {
      assert [a, b][0] == a && [a, b][1] == b;
      assert a in [a, b];
    }
  }

  lemma {:induction false} BackChecked(names: Names, a: string, b: string)
    requires OnePair(names, a, b)
    requires GoodName(b) && a != "" && a != b
    ensures Checked(names, NO_FAULT.queries, To(1, b, a)).None?
    ensures !Accepted(With(names, To(1, b, a)), a)
  {
    hide Checked, Accepted, NeverBlind;
    var next := To(1, b, a);
    ToRefs(1, b, a);
    assert With(names, next).routings.Keys == {a, b};
    assert Seen(names, NO_FAULT.queries) == names;
    NothingBlind();
    PairAccepted(With(names, next), a, b);
    ValidateAccepts(names, NO_FAULT.queries, next);
  }

  /** From then on no update of a that keeps its name and its members goes through. */
  lemma {:induction false} CycleSticks(a: string, b: string, u: Updates)
    requires GoodName(b) && a != "" && a != b && u.name.None? && u.members.None?
    ensures var o := Step({b}, Table([a], [b]), Create(To(1, b, a), NO_FAULT));
      Changed({b}, o.rows, 0, u, NO_FAULT).err.Some?
  {
    var rows, next := Table([a], [b]), To(1, b, a);
    OneRow(a, b);
    hide NamesOf, Table, UniqueNames, TableOk, Accepted, GoodName, Checked, Changed, Step, OnePair;
    CycleStored(rows, a, b, next);
    StepUnique({b}, rows, Create(next, NO_FAULT));
    NamedRow({b}, rows[1 := next], 0);
    assert With(NamesOf({b}, rows[1 := next]), rows[0]) == NamesOf({b}, rows[1 := next]);
    UnacceptedIsStuck({b}, rows[1 := next], 0, u);
  }
}
