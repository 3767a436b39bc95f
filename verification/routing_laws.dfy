/**
 * What the mutations of stored routings keep (internal/dao/model_routing.go:94-170): over every table that
 * the database's keys allow, for every failure, step by step and over runs.  The unique index does not keep
 * two global routings from having one name, as their users may differ: a lookup finds the one with the least
 * id, and renaming or deleting that one uncovers the next.
 */
module RoutingLaws {
  import opened Options
  import opened Sequences
  import opened RoutingGraph
  import opened RoutingChanges
  import opened RoutingValidation
  import opened RoutingStores

  // ---------------------------------------------------------------------------------------------
  // What a mutation does to the lookups
  // ---------------------------------------------------------------------------------------------

  /** The row that a lookup of its name finds. */
  ghost predicate IsFirst(rows: Rows, id: nat) {
    id in rows && rows[id].scope.Global? && forall j: nat | IsGlobal(rows, j, rows[id].name) :: id <= j
  }

  lemma {:induction false} FirstNamed(models: set<string>, rows: Rows, id: nat)
    requires IsFirst(rows, id)
    ensures var names := NamesOf(models, rows);
      rows[id].name in names.routings && names.routings[rows[id].name] == rows[id]
  {
    Found(models, rows, id);
  }

  lemma {:induction false} NameIsFirst(models: set<string>, rows: Rows, n: string) returns (i: nat)
    requires n in NamesOf(models, rows).routings
    ensures IsGlobal(rows, i, n) && IsFirst(rows, i) && NamesOf(models, rows).routings[n] == rows[i]
  {
    i := IdOf(rows, n);
  }

  /** The table if the mutation goes through. */
  ghost function Wanted(rows: Rows, op: Op): Rows {
    match op
    case Create(r, _) => rows[r.id := r]
    case Update(id, u, _) => if id in rows then rows[id := Updated(rows[id], u)] else rows
    case Delete(id, _) => rows - {id}
  }

  /** The graph if it does. */
  ghost function GraphAfter(models: set<string>, rows: Rows, op: Op): Names {
    NamesOf(models, Wanted(rows, op))
  }

  /** A lookup of the row's name finds it, and would find another one without it. */
  ghost predicate Covers(rows: Rows, id: nat) {
    IsFirst(rows, id) && exists j: nat :: j != id && IsGlobal(rows, j, rows[id].name)
  }

  /** The mutation takes a name from the row it was looked up as, and another row has that name. */
  ghost predicate Uncovers(rows: Rows, op: Op) {
    match op
    case Create(_, _) => false
    case Update(id, u, _) => id in rows && Updated(rows[id], u).name != rows[id].name && Covers(rows, id)
    case Delete(id, _) => id in rows && Covers(rows, id)
  }

  ghost function FormerName(rows: Rows, op: Op): string
    requires Uncovers(rows, op)
  {
    rows[op.id].name
  }

  /** The saved row will be found by its name. */
  ghost predicate SavesFirst(rows: Rows, op: Op) {
    SaveOf(rows, op).Some? && IsFirst(Wanted(rows, op), SaveOf(rows, op).value.next.id)
  }

  /** The names that stand for another routing afterwards. */
  ghost function Touched(rows: Rows, op: Op): set<string> {
    (if Uncovers(rows, op) then {FormerName(rows, op)} else {})
    + if SavesFirst(rows, op) then {SaveOf(rows, op).value.next.name} else {}
  }

  lemma {:induction false} TouchedOnly(models: set<string>, rows: Rows, op: Op)
    requires TableOk(rows) && (op.Create? ==> op.r.id !in rows) && (op.Update? ==> op.id in rows)
    ensures SameBut(NamesOf(models, rows), GraphAfter(models, rows, op), Touched(rows, op))
  {
    hide NamesOf;
    var names, after, wanted := NamesOf(models, rows), GraphAfter(models, rows, op), Wanted(rows, op);
    SameModels(models, rows, wanted);
    forall n | n in after.routings && n !in Touched(rows, op)
      ensures n in names.routings && names.routings[n].members == after.routings[n].members
    {
      var i := NameIsFirst(models, wanted, n);
      OtherRow(rows, op, i);
      FirstNamed(models, rows, i);
    }
  }

  lemma {:induction false} SameModels(models: set<string>, rows: Rows, after: Rows)
    ensures NamesOf(models, rows).models == NamesOf(models, after).models == models
  {
  }

  /** The row a mutation is about. */
  function IdIn(op: Op): nat {
    if op.Create? then op.r.id else op.id
  }

  /** A row found afterwards behind the changed one, under a name that one had, was uncovered. */
  lemma {:induction false} UncoveredBehind(rows: Rows, op: Op, i: nat)
    requires TableOk(rows) && (op.Create? ==> op.r.id !in rows) && (op.Update? ==> op.id in rows)
    requires IsFirst(Wanted(rows, op), i) && IsGlobal(rows, IdIn(op), Wanted(rows, op)[i].name) && IdIn(op) < i
    ensures Wanted(rows, op)[i].name in Touched(rows, op)
  {
    var wanted, id, n := Wanted(rows, op), IdIn(op), Wanted(rows, op)[i].name;
    assert !IsGlobal(wanted, id, n);
    assert forall k: nat | IsGlobal(rows, k, n) && k != id :: IsGlobal(wanted, k, n);
    assert IsGlobal(rows, i, n) && Covers(rows, id);
  }

  /** A row found afterwards under a name that is not touched is another one, and was found before. */
  lemma {:induction false} OtherRow(rows: Rows, op: Op, i: nat)
    requires TableOk(rows) && (op.Create? ==> op.r.id !in rows) && (op.Update? ==> op.id in rows)
    requires IsFirst(Wanted(rows, op), i) && Wanted(rows, op)[i].name !in Touched(rows, op)
    ensures IsFirst(rows, i) && rows[i] == Wanted(rows, op)[i]
  {
    var wanted, id, n := Wanted(rows, op), IdIn(op), Wanted(rows, op)[i].name;
    assert op.Update? ==> rows[id].id == id;
    assert i != id;
    forall j: nat | IsGlobal(rows, j, n)
      ensures i <= j
    {
      if j != id {
        assert IsGlobal(wanted, j, n);
      } else if j < i {
        UncoveredBehind(rows, op, i);
      }
    }
  }

  /** The enabled flag does not enter the graph. */
  lemma {:induction false} EnabledAside(models: set<string>, rows: Rows, r: Routing)
    ensures SameGraph(NamesOf(models, rows[r.id := r.(enabled := true)]), NamesOf(models, rows[r.id := r]))
  {
    var on, off := rows[r.id := r.(enabled := true)], rows[r.id := r];
    SameModels(models, on, off);
    forall i, n
      ensures IsGlobal(on, i, n) <==> IsGlobal(off, i, n)
    {
    }
    SameLookups(models, on, off);
    SameLookups(models, off, on);
  }

  lemma {:induction false} SameLookups(models: set<string>, a: Rows, b: Rows)
    requires forall i, n :: IsGlobal(a, i, n) <==> IsGlobal(b, i, n)
    requires forall i | i in b :: i in a && a[i].members == b[i].members
    ensures SameBut(NamesOf(models, a), NamesOf(models, b), {})
  {
    hide NamesOf;
    SameModels(models, a, b);
    forall n | n in NamesOf(models, b).routings
      ensures n in NamesOf(models, a).routings
      ensures NamesOf(models, a).routings[n].members == NamesOf(models, b).routings[n].members
    {
      var i := NameIsFirst(models, b, n);
      assert IsGlobal(a, i, n);
      assert IsFirst(a, i);
      FirstNamed(models, a, i);
    }
  }

  /** What a mutation that changes the table leads to. */
  lemma {:induction false} StepGraph(models: set<string>, rows: Rows, op: Op)
    requires TableOk(rows) && Step(models, rows, op).rows != rows
    ensures SameGraph(NamesOf(models, Step(models, rows, op).rows), GraphAfter(models, rows, op))
    ensures SameBut(NamesOf(models, rows), GraphAfter(models, rows, op), Touched(rows, op))
    ensures !op.Delete? ==>
      SaveOf(rows, op).Some? && Checked(NamesOf(models, rows), op.fault.queries, SaveOf(rows, op).value.next).None?
    ensures op.Create? ==> op.r.id !in rows
    ensures !op.Create? ==> op.id in rows
  {
    hide NamesOf, Checked, Step, Clashes, TableOk, SameGraph, SameBut, Touched, DeleteError;
    WhereChanged(models, rows, op);
    TouchedOnly(models, rows, op);
    var after := Step(models, rows, op).rows;
    if op.Delete? {
      DeleteChanges(models, rows, op);
      ItsOwnGraph(NamesOf(models, after));
    } else {
      var stored := SaveChanges(models, rows, op);
      var next := SaveOf(rows, op).value.next;
      assert op.Update? ==> next.id == op.id by {
        if op.Update? { RowOfTable(rows, op.id); }
      }
      assert Wanted(rows, op) == rows[next.id := next];
      EnabledAside(models, rows, next);
      ItsOwnGraph(GraphAfter(models, rows, op));
    }
  }

  lemma {:induction false} ItsOwnGraph(names: Names)
    ensures SameGraph(names, names)
  {
  }

  lemma {:induction false} WhereChanged(models: set<string>, rows: Rows, op: Op)
    requires Step(models, rows, op).rows != rows
    ensures op.Create? ==> op.r.id !in rows
    ensures !op.Create? ==> op.id in rows
  {
    hide NamesOf, Checked, Clashes, DeleteError;
  }

  // ---------------------------------------------------------------------------------------------
  // What a mutation stores and why it is refused
  // ---------------------------------------------------------------------------------------------

  /**
   * A create without error stores the routing as it is given, enabled or not; one with an error stores nothing,
   * but for a disabled routing whose second write failed, which stays enabled.
   */
  lemma {:induction false} CreateStores(models: set<string>, rows: Rows, r: Routing, fault: Fault)
    ensures var o := Created(models, rows, r, fault);
      && (o.err.None? ==> r.id !in rows && o.rows.Keys == rows.Keys + {r.id} && o.rows[r.id] == r)
      && (o.err.Some? && o.rows != rows ==>
            && !r.enabled && fault.write.DisableFails? && r.id !in rows
            && o.rows.Keys == rows.Keys + {r.id} && o.rows[r.id] == r.(enabled := true))
      && (r.id !in rows && !Taken(rows, r) && !r.enabled && fault.write.DisableFails? ==>
            (r.id in o.rows <==> Checked(NamesOf(models, rows), fault.queries, r).None?))
      && (forall i | i in rows :: i in o.rows && o.rows[i] == rows[i])
      && (r.id !in rows && fault.write.Written? && !Taken(rows, r) ==>
            o.err == Checked(NamesOf(models, rows), fault.queries, r))
      && (Taken(rows, r) ==> o.err.Some?)
  {
    hide NamesOf, Checked;
  }

  /** Another row has its scope, user and name. */
  ghost predicate Taken(rows: Rows, r: Routing) {
    exists i :: i in rows && i != r.id
      && rows[i].scope == r.scope && rows[i].userId == r.userId && rows[i].name == r.name
  }

  /** An update without error changes exactly the given columns of its row; one with an error changes nothing. */
  lemma {:induction false} UpdateStores(models: set<string>, rows: Rows, id: nat, u: Updates, fault: Fault)
    requires TableOk(rows)
    ensures var o := Changed(models, rows, id, u, fault);
      && (o.err.Some? ==> o.rows == rows)
      && o.rows.Keys == rows.Keys && (forall i | i in rows && i != id :: o.rows[i] == rows[i])
      && (o.err.None? ==> id in rows && var was, now := rows[id], o.rows[id];
            && now.id == was.id && now.scope == was.scope && now.userId == was.userId
            && (if u.name.Some? then now.name == u.name.value else now.name == was.name)
            && (if u.members.Some? then now.members == u.members.value else now.members == was.members)
            && (if u.enabled.Some? then now.enabled == u.enabled.value else now.enabled == was.enabled)
            && (if u.remark.Some? then now.remark == u.remark.value else now.remark == was.remark))
      && (id in rows && !fault.row && !fault.write.WriteFails? && !Taken(rows, Updated(rows[id], u)) ==>
            o.err == Checked(NamesOf(models, rows), fault.queries, Updated(rows[id], u)))
  {
    hide NamesOf, Checked;
  }

  /** Another global row that the list query gives has a member that refers to the row. */
  ghost predicate RefersToRow(rows: Rows, unlisted: set<nat>, i: nat, id: nat) {
    && i in rows && i !in unlisted && i != id && id in rows && rows[i].scope.Global? && rows[i].members.Parsed?
    && exists m :: m in rows[i].members.list && m.ref == rows[id].name
  }

  ghost predicate ReferrerCalled(rows: Rows, unlisted: set<nat>, id: nat, n: string) {
    exists i: nat :: RefersToRow(rows, unlisted, i, id) && rows[i].name == n
  }

  lemma {:induction false} ReferrersAre(rows: Rows, unlisted: set<nat>, id: nat)
    requires id in rows
    ensures forall n ::
      n in Referrers(rows, unlisted, id, rows[id].name) <==> ReferrerCalled(rows, unlisted, id, n)
  {
    var name := rows[id].name;
    forall i | i in rows
      ensures i !in unlisted && rows[i].scope.Global? && i != id && Mentions(rows[i], name)
        <==> RefersToRow(rows, unlisted, i, id)
    {
      if rows[i].members.Parsed? {
        assert name in Refs(rows[i].members.list) <==> exists m :: m in rows[i].members.list && m.ref == name;
      }
    }
  }

  /** A delete is refused for global routings that listed ones refer to, with exactly their names, and else done. */
  lemma {:induction false} DeleteRefused(models: set<string>, rows: Rows, id: nat, fault: Fault)
    requires TableOk(rows) && !fault.row && id in rows
    ensures var o := Deleted(models, rows, id, fault); var unlisted := fault.queries.unlisted;
      var refused := o.err.Some? && o.err.value.ReferencedBy?;
      && (refused <==> rows[id].scope.Global? && exists n :: ReferrerCalled(rows, unlisted, id, n))
      && (refused ==> forall n :: n in o.err.value.refs <==> ReferrerCalled(rows, unlisted, id, n))
      && (o.err.Some? ==> o.rows == rows) && (o.err.None? ==> o.rows == rows - {id})
  {
    hide ReferrerCalled, Referrers;
    ReferrersAre(rows, fault.queries.unlisted, id);
    var refs := Referrers(rows, fault.queries.unlisted, id, rows[id].name);
    if refs != {} {
      var n :| n in refs;
    }
  }

  /** The errors about the name and the number of members, in their order. */
  lemma {:induction false} WhyRefused(names: Names, fails: Failures, r: Routing)
    ensures var e := Checked(names, fails, r); var named := 1 <= |r.name| <= 128 && ',' !in r.name;
      && (e == Some(NameRequired) <==> r.name == "")
      && (e == Some(NameTooLong) <==> |r.name| > 128)
      && (e == Some(NameContainsComma) <==> 1 <= |r.name| <= 128 && ',' in r.name)
      && (e == Some(MembersInvalidJson) <==> named && r.members.Malformed?)
      && (e == Some(MembersEmpty) <==> named && r.members == Parsed([]))
      && (e == Some(MembersTooMany) <==> named && r.members.Parsed? && |r.members.list| > 32)
  {
    hide BadRef, Searched;
    var seen := Seen(names, fails);
    if r.members.Parsed? {
      RefErrors(seen, fails.blind, r.members.list, 0);
    }
    SearchErrors(seen, fails.blind, Children(r), [r.name], |Children(r)|);
  }

  lemma {:induction false} RefErrors(names: Names, blind: nat -> bool, members: seq<Member>, i: nat)
    requires i <= |members|
    ensures var e := BadRef(names, blind, members, i); e.Some? ==> e.value.RefEmpty? || e.value.InvalidRef?
    decreases |members| - i
  {
    if i < |members| {
      RefErrors(names, blind, members, i + 1);
    }
  }

  lemma {:induction false} SearchErrors(names: Names, blind: nat -> bool, members: seq<Member>, path: seq<string>,
                                        k: nat)
    ensures var e := Searched(names, blind, members, path, k).0; e.Some? ==> e.value.CycleDetected? || e.value.MaxDepth?
    decreases MAX_DEPTH + 1 - |path|, |members|
  {
    if |path| <= MAX_DEPTH && members != [] {
      var ref := members[0].ref;
      if ref in path {
        SearchErrors(names, blind, members[1..], path, k + 1);
      } else if ref in names.routings {
        SearchErrors(names, blind, Children(names.routings[ref]), path + [ref], k);
        SearchErrors(names, blind, members[1..], path,
          Searched(names, blind, Children(names.routings[ref]), path + [ref], k).1);
      } else {
        SearchErrors(names, blind, members[1..], path, k);
      }
    }
  }

  // ---------------------------------------------------------------------------------------------
  // Cycles
  // ---------------------------------------------------------------------------------------------

  /**
   * What a caller can check of a mutation and the reads that fail before it runs: a routing that it uncovers
   * lies on no cycle without a model, and none whose lookup fails lies on such a cycle with the saved one,
   * if that one will be found.
   */
  ghost predicate CyclesSafe(models: set<string>, rows: Rows, op: Op) {
    var after := GraphAfter(models, rows, op);
    && (Uncovers(rows, op) ==> !FreeLoop(after, FormerName(rows, op), FormerName(rows, op)))
    && (SavesFirst(rows, op) ==>
          var name := SaveOf(rows, op).value.next.name;
          forall x | x in op.fault.queries.lost && x != name :: !FreeLoop(after, name, x))
  }

  /** The graph the saved routing was accepted in and the one it is stored in. */
  ghost predicate DifferAt(rows: Rows, op: Op, seen: Names, after: Names, differ: set<string>)
    requires SaveOf(rows, op).Some?
  {
    && SameBut(seen, after, differ) && SaveOf(rows, op).value.next.name !in differ
    && forall x | x in differ :: x in op.fault.queries.lost || (Uncovers(rows, op) && x == FormerName(rows, op))
  }

  lemma {:induction false} SeenAndStored(models: set<string>, rows: Rows, op: Op) returns (differ: set<string>)
    requires TableOk(rows) && (op.Create? ==> op.r.id !in rows) && SavesFirst(rows, op)
    requires SameBut(NamesOf(models, rows), GraphAfter(models, rows, op), Touched(rows, op))
    ensures var next := SaveOf(rows, op).value.next;
      DifferAt(rows, op, With(Seen(NamesOf(models, rows), op.fault.queries), next), GraphAfter(models, rows, op),
        differ)
  {
    hide NamesOf, TableOk, IsFirst, Covers;
    var next := SaveOf(rows, op).value.next;
    differ := op.fault.queries.lost - {next.name} + if Uncovers(rows, op) then {FormerName(rows, op)} else {};
    assert Wanted(rows, op)[next.id] == next by {
      if op.Update? { RowOfTable(rows, op.id); }
      hide NamesOf;
      assert IsFirst(Wanted(rows, op), next.id);
    }
    FirstNamed(models, Wanted(rows, op), next.id);
  }

  /** A mutation that changes the table keeps all cycles broken if and only if it is safe in that sense. */
  lemma {:induction false} StepBreaksCycles(models: set<string>, rows: Rows, op: Op)
    requires TableOk(rows) && CyclesBroken(NamesOf(models, rows))
    ensures CyclesBroken(NamesOf(models, Step(models, rows, op).rows))
      <==> Step(models, rows, op).rows == rows || CyclesSafe(models, rows, op)
  {
    if Step(models, rows, op).rows != rows {
      hide NamesOf, Checked, CyclesBroken, TableOk, Step, SameGraph, SameBut, GraphAfter, FreeLoop, IsFirst, Covers;
      var names, after := NamesOf(models, rows), GraphAfter(models, rows, op);
      StepGraph(models, rows, op);
      BrokenSame(NamesOf(models, Step(models, rows, op).rows), after);
      ChangeBreaksCycles(names, after, Touched(rows, op));
      if CyclesSafe(models, rows, op) && SavesFirst(rows, op) {
        SavedOnNoLoop(models, rows, op);
      }
      if CyclesBroken(after) {
        forall a, b
          ensures !FreeLoop(after, a, b)
        {
          if FreeLoop(after, a, b) { LoopTurns(after, a, b); }
        }
      }
    }
  }

  lemma {:induction false} SavedOnNoLoop(models: set<string>, rows: Rows, op: Op)
    requires TableOk(rows) && (op.Create? ==> op.r.id !in rows) && SavesFirst(rows, op) && CyclesSafe(models, rows, op)
    requires SameBut(NamesOf(models, rows), GraphAfter(models, rows, op), Touched(rows, op))
    requires Checked(NamesOf(models, rows), op.fault.queries, SaveOf(rows, op).value.next).None?
    ensures !FreeLoop(GraphAfter(models, rows, op), SaveOf(rows, op).value.next.name, SaveOf(rows, op).value.next.name)
  {
    var next := SaveOf(rows, op).value.next;
    assert next.scope.Global? by {
      SavedScope(rows, op);
    }
    hide NamesOf, Checked, TableOk, SameBut, GraphAfter, FreeLoop, IsFirst, Covers, Accepted;
    var names, after := NamesOf(models, rows), GraphAfter(models, rows, op);
    var seen := With(Seen(names, op.fault.queries), next);
    ValidateAccepts(names, op.fault.queries, next);
    var differ := SeenAndStored(models, rows, op);
    if FreeLoop(after, next.name, next.name) {
      var x := HiddenLoop(seen, after, next.name, differ);
      LoopTurns(after, next.name, x);
    }
  }

  lemma {:induction false} SavedScope(rows: Rows, op: Op)
    requires TableOk(rows) && SavesFirst(rows, op)
    ensures SaveOf(rows, op).value.next.scope.Global?
  {
    assert op.Update? ==> rows[op.id].id == op.id;
  }

  lemma {:induction false} BrokenSame(a: Names, b: Names)
    requires SameGraph(a, b)
    ensures CyclesBroken(a) <==> CyclesBroken(b)
  {
    hide CyclesBroken;
    if CyclesBroken(a) { ChangeBreaksCycles(a, b, {}); }
    if CyclesBroken(b) { ChangeBreaksCycles(b, a, {}); }
  }

  ghost function CyclesRule(models: set<string>): (Rows, Op) -> bool {
    (rows, op) => CyclesSafe(models, rows, op)
  }

  /** Over every run of safe mutations, renames and failures included, every cycle passes through a real model. */
  lemma {:induction false} RunBreaksCycles(models: set<string>, ops: seq<Op>)
    requires Always(models, ops, CyclesRule(models))
    ensures CyclesBroken(NamesOf(models, Run(models, ops)))
    decreases |ops|
  {
    if ops == [] {
      NoCycles(models);
    } else {
      hide Step, NamesOf, CyclesBroken, CyclesSafe, Run, TableOk;
      var n := |ops| - 1;
      AlwaysPrefix(models, ops, CyclesRule(models));
      RunBreaksCycles(models, ops[..n]);
      RunOk(models, ops[..n]);
      RunLast(models, ops);
      StepBreaksCycles(models, Run(models, ops[..n]), ops[n]);
    }
  }

  lemma {:induction false} NoCycles(models: set<string>)
    ensures CyclesBroken(NamesOf(models, map[]))
  {
    var names := NamesOf(models, map[]);
    assert forall w | ClosedWalk(names, w) :: Edge(names, w[0], w[1]);
  }

  ghost function CoverRule(): (Rows, Op) -> bool {
    (rows, op) => !Uncovers(rows, op)
  }

  /**
   * So when all lookups are answered and nothing is uncovered every cycle is broken after any run, whatever
   * else fails in it.
   */
  lemma {:induction false} AnsweredRunBreaksCycles(models: set<string>, ops: seq<Op>)
    requires (forall op | op in ops :: op.fault.queries.lost == {}) && Always(models, ops, CoverRule())
    ensures CyclesBroken(NamesOf(models, Run(models, ops)))
  {
    hide NamesOf, CyclesBroken, Run, Step, Uncovers, SavesFirst, FreeLoop;
    forall n | 0 <= n < |ops|
      ensures var rows := Run(models, ops[..n]);
        Step(models, rows, ops[n]).rows == rows || CyclesRule(models)(rows, ops[n])
    {
      assert ops[n] in ops;
      assert CoverRule()(Run(models, ops[..n]), ops[n]) <==> !Uncovers(Run(models, ops[..n]), ops[n]);
    }
    RunBreaksCycles(models, ops);
  }

  // ---------------------------------------------------------------------------------------------
  // References
  // ---------------------------------------------------------------------------------------------

  /** Every stored global routing has between 1 and 32 members, and each of them names something. */
  ghost predicate Resolved(models: set<string>, rows: Rows) {
    forall i | i in rows && rows[i].scope.Global? :: GoodMembers(NamesOf(models, rows), rows[i].members)
  }

  lemma {:induction false} GoodCarries(a: Names, b: Names, members: Members, gone: string)
    requires GoodMembers(a, members) && a.models == b.models
    requires forall n | n in a.routings && n != gone :: n in b.routings
    requires gone in b.routings || gone in b.models || gone !in Refs(members.list)
    ensures GoodMembers(b, members)
  {
    forall m | m in members.list
      ensures m.ref != "" && Resolves(b, m.ref)
    {
      assert m.ref in Refs(members.list) && Resolves(a, m.ref);
    }
  }

  lemma {:induction false} BadWithout(names: Names, members: Members, gone: string)
    requires GoodMembers(names, members) && gone !in names.routings && gone !in names.models
    ensures gone !in Refs(members.list)
  {
    forall m | m in members.list
      ensures m.ref != gone
    {
      assert Resolves(names, m.ref);
    }
  }

  lemma {:induction false} ParsedMembers(names: Names, r: Routing)
    requires GoodMembers(names, r.members)
    ensures r.members.Parsed? && Children(r) == r.members.list
  {
  }

  lemma {:induction false} SeenIsGood(names: Names, fails: Failures, members: Members)
    requires GoodMembers(Seen(names, fails), members)
    ensures GoodMembers(names, members)
  {
    forall m | m in members.list
      ensures Resolves(names, m.ref)
    {
      assert Resolves(Seen(names, fails), m.ref);
    }
  }

  /** A name is found exactly when a global row has it. */
  lemma {:induction false} FoundIff(models: set<string>, rows: Rows, n: string)
    ensures n in NamesOf(models, rows).routings <==> exists i: nat :: IsGlobal(rows, i, n)
    ensures NamesOf(models, rows).models == models
  {
    if n in NamesOf(models, rows).routings {
      var i := NameIsFirst(models, rows, n);
    }
    if i: nat :| IsGlobal(rows, i, n) {
      Found(models, rows, i);
    }
  }

  /** Another global row has the name too. */
  ghost predicate Shared(rows: Rows, id: nat, name: string) {
    exists j: nat :: j != id && IsGlobal(rows, j, name)
  }

  /** A model has the name, another global routing has it too, or no other refers to it. */
  ghost predicate Dispensable(models: set<string>, rows: Rows, id: nat, name: string) {
    name in models || Shared(rows, id, name) || Referrers(rows, {}, id, name) == {}
  }

  /** What a caller can check of a mutation before it runs. */
  ghost predicate RefsSafe(models: set<string>, rows: Rows, op: Op) {
    match op
    case Create(_, _) => true
    case Update(id, u, _) =>
      id in rows && rows[id].scope.Global? ==>
        var old_name, next := rows[id].name, Updated(rows[id], u);
        || next.name == old_name
        || (Dispensable(models, rows, id, old_name)
            && (old_name in models || Shared(rows, id, old_name) || old_name !in Refs(Children(next))))
    case Delete(id, _) =>
      id in rows && rows[id].scope.Global? ==> Dispensable(models, rows, id, rows[id].name)
  }

  /** The name goes out of use with the mutation. */
  ghost predicate Loses(models: set<string>, after: Rows, name: string) {
    name !in NamesOf(models, after).routings && name !in models
  }

  /** Members that were good are, unless they refer to the one name that went out of use. */
  lemma {:induction false} RowStaysGood(models: set<string>, rows: Rows, after: Rows, r: Routing, gone: string)
    requires GoodMembers(NamesOf(models, rows), r.members)
    requires forall n, i: nat | n != gone && IsGlobal(rows, i, n) :: exists j: nat :: IsGlobal(after, j, n)
    ensures GoodMembers(NamesOf(models, after), r.members)
      <==> !Loses(models, after, gone) || gone !in Refs(Children(r))
  {
    hide NamesOf, Refs, GoodMembers, IsGlobal;
    var a, b := NamesOf(models, rows), NamesOf(models, after);
    SameModels(models, rows, after);
    forall n | n in a.routings && n != gone
      ensures n in b.routings
    {
      FoundIff(models, rows, n);
      FoundIff(models, after, n);
    }
    ParsedMembers(a, r);
    if !Loses(models, after, gone) || gone !in Refs(Children(r)) {
      GoodCarries(a, b, r.members, gone);
    } else if GoodMembers(b, r.members) {
      BadWithout(b, r.members, gone);
    }
  }

  /** Nobody refers to the name. */
  ghost predicate Unmentioned(rows: Rows, name: string) {
    forall i | i in rows && rows[i].scope.Global? :: name !in Refs(Children(rows[i]))
  }

  /** When one row changes: the members all resolve if they do not need the one name that went out of use. */
  lemma {:induction false} OneChangeResolves(models: set<string>, rows: Rows, after: Rows, id: nat, gone: string)
    requires Resolved(models, rows) && OffAgree(rows, after, id)
    requires id in after && after[id].scope.Global? ==> GoodMembers(NamesOf(models, rows), after[id].members)
    requires forall n, i: nat | n != gone && IsGlobal(rows, i, n) :: exists j: nat :: IsGlobal(after, j, n)
    ensures Resolved(models, after) <==> !Loses(models, after, gone) || Unmentioned(after, gone)
  {
    hide NamesOf, Refs, GoodMembers, IsGlobal, Loses;
    forall i | i in after && after[i].scope.Global?
      ensures GoodMembers(NamesOf(models, after), after[i].members)
        <==> !Loses(models, after, gone) || gone !in Refs(Children(after[i]))
    {
      RowStaysGood(models, rows, after, after[i], gone);
    }
  }

  /** Two tables agree on all rows but one. */
  ghost predicate OffAgree(rows: Rows, after: Rows, id: nat) {
    forall i | i != id :: (i in rows <==> i in after) && (i in rows ==> rows[i] == after[i])
  }

  /** Whether a list query without failure gives a reference is whether there is one, when all members are good. */
  lemma {:induction false} ReferrersIff(models: set<string>, rows: Rows, id: nat, name: string)
    requires Resolved(models, rows)
    ensures Referrers(rows, {}, id, name) == {}
      <==> forall i | i in rows && rows[i].scope.Global? && i != id :: name !in Refs(Children(rows[i]))
  {
    hide NamesOf, Refs;
    forall i | i in rows && rows[i].scope.Global?
      ensures Mentions(rows[i], name) <==> name in Refs(Children(rows[i]))
    {
      ParsedMembers(NamesOf(models, rows), rows[i]);
    }
    forall i | i in rows && rows[i].scope.Global? && i != id && Mentions(rows[i], name)
      ensures rows[i].name in Referrers(rows, {}, id, name)
    {
    }
  }

  lemma {:induction false} NoEmptyRef(models: set<string>, rows: Rows, r: Routing)
    requires GoodMembers(NamesOf(models, rows), r.members)
    ensures "" !in Refs(Children(r))
  {
  }

  /** When no name goes out of use all members resolve as before. */
  lemma {:induction false} NothingGone(models: set<string>, rows: Rows, after: Rows, id: nat)
    requires Resolved(models, rows) && OffAgree(rows, after, id)
    requires id in after && after[id].scope.Global? ==> GoodMembers(NamesOf(models, rows), after[id].members)
    requires forall n, i: nat | IsGlobal(rows, i, n) :: exists j: nat :: IsGlobal(after, j, n)
    ensures Resolved(models, after)
  {
    hide NamesOf, Refs, GoodMembers, IsGlobal;
    OneChangeResolves(models, rows, after, id, "");
    forall i | i in after && after[i].scope.Global?
      ensures "" !in Refs(Children(after[i]))
    {
      NoEmptyRef(models, rows, after[i]);
    }
  }

  lemma {:induction false} DropResolves(models: set<string>, rows: Rows, id: nat)
    requires Resolved(models, rows) && id in rows
    ensures Resolved(models, rows - {id}) <==> !rows[id].scope.Global? || Dispensable(models, rows, id, rows[id].name)
  {
    hide NamesOf, Refs, GoodMembers;
    var after, name := rows - {id}, rows[id].name;
    forall n, i: nat | IsGlobal(rows, i, n) && i != id
      ensures IsGlobal(after, i, n)
    {
    }
    if rows[id].scope.Global? {
      OneChangeResolves(models, rows, after, id, name);
      ReferrersIff(models, rows, id, name);
      FoundIff(models, after, name);
      assert forall j: nat :: IsGlobal(after, j, name) <==> j != id && IsGlobal(rows, j, name);
    } else {
      NothingGone(models, rows, after, id);
    }
  }

  /** A row that is put in place of one, under the same or another name. */
  lemma {:induction false} PutResolves(models: set<string>, rows: Rows, r: Routing)
    requires Resolved(models, rows) && (r.scope.Global? ==> GoodMembers(NamesOf(models, rows), r.members))
    requires r.id in rows ==> rows[r.id].scope == r.scope
    ensures Resolved(models, rows[r.id := r]) <==>
      (r.id in rows && r.scope.Global? && r.name != rows[r.id].name ==>
         var former := rows[r.id].name;
         && Dispensable(models, rows, r.id, former)
         && (former in models || Shared(rows, r.id, former) || former !in Refs(Children(r))))
  {
    hide NamesOf, Refs, GoodMembers;
    var id, after := r.id, rows[r.id := r];
    forall n, i: nat | IsGlobal(rows, i, n) && i != id
      ensures IsGlobal(after, i, n)
    {
    }
    if id in rows && r.scope.Global? && r.name != rows[id].name {
      var former := rows[id].name;
      OneChangeResolves(models, rows, after, id, former);
      ReferrersIff(models, rows, id, former);
      FoundIff(models, after, former);
      ParsedMembers(NamesOf(models, rows), r);
      assert forall j: nat :: IsGlobal(after, j, former) <==> j != id && IsGlobal(rows, j, former);
    } else {
      assert forall n :: IsGlobal(rows, id, n) ==> IsGlobal(after, id, n);
      NothingGone(models, rows, after, id);
    }
  }

  /** A mutation that changes the table keeps every member resolved if and only if it is safe in that sense. */
  lemma {:induction false} StepResolves(models: set<string>, rows: Rows, op: Op)
    requires TableOk(rows) && Resolved(models, rows)
    ensures Resolved(models, Step(models, rows, op).rows)
      <==> Step(models, rows, op).rows == rows || RefsSafe(models, rows, op)
  {
    if Step(models, rows, op).rows != rows {
      hide NamesOf, Checked, Resolved, GoodMembers, TableOk, Step, Refs, Clashes, Dispensable, Shared, DeleteError;
      WhereChanged(models, rows, op);
      if op.Delete? {
        DeleteChanges(models, rows, op);
        DropResolves(models, rows, op.id);
      } else {
        var stored := SaveChanges(models, rows, op);
        var next := SaveOf(rows, op).value.next;
        assert op.Update? ==> next.id == op.id by {
          if op.Update? { RowOfTable(rows, op.id); }
        }
        if next.scope.Global? {
          PassingIsGood(models, rows, op.fault.queries, next);
        }
        PutResolves(models, rows, stored);
      }
    }
  }

  lemma {:induction false} PassingIsGood(models: set<string>, rows: Rows, fails: Failures, r: Routing)
    requires Checked(NamesOf(models, rows), fails, r).None?
    ensures GoodMembers(NamesOf(models, rows), r.members)
  {
    hide NamesOf, Checked, GoodMembers, Accepted;
    ValidateAccepts(NamesOf(models, rows), fails, r);
    SeenIsGood(NamesOf(models, rows), fails, r.members);
  }

  ghost function RefsRule(models: set<string>): (Rows, Op) -> bool {
    (rows, op) => RefsSafe(models, rows, op)
  }

  /** Over runs of safe mutations every member of every stored global routing names a model or a routing. */
  lemma {:induction false} RunResolves(models: set<string>, ops: seq<Op>)
    requires Always(models, ops, RefsRule(models))
    ensures Resolved(models, Run(models, ops))
    decreases |ops|
  {
    if ops != [] {
      hide Step, Resolved, RefsSafe, Run, TableOk;
      var n := |ops| - 1;
      AlwaysPrefix(models, ops, RefsRule(models));
      RunResolves(models, ops[..n]);
      RunOk(models, ops[..n]);
      RunLast(models, ops);
      StepResolves(models, Run(models, ops[..n]), ops[n]);
    }
  }

  /** A mutation that does not rename, and does not delete by an incomplete list. */
  ghost predicate KeepsNames(op: Op) {
    match op
    case Create(_, _) => true
    case Update(_, u, _) => u.name.None?
    case Delete(_, fault) => fault.queries.unlisted == {}
  }

  lemma {:induction false} KeptIsSafe(models: set<string>, rows: Rows, op: Op)
    requires TableOk(rows) && KeepsNames(op)
    ensures Step(models, rows, op).rows == rows || RefsSafe(models, rows, op)
  {
    hide NamesOf, Checked, Clashes, Shared;
    if op.Delete? && Step(models, rows, op).rows != rows {
      DeleteChanges(models, rows, op);
      RowOfTable(rows, op.id);
    }
  }

  /** Over runs of such mutations every member resolves, whatever else fails in them. */
  lemma {:induction false} RunKeepingNames(models: set<string>, ops: seq<Op>)
    requires forall op | op in ops :: KeepsNames(op)
    ensures Resolved(models, Run(models, ops))
  {
    hide RefsSafe, NamesOf, Resolved, Run, Step, TableOk, KeepsNames;
    forall n | 0 <= n < |ops|
      ensures var rows := Run(models, ops[..n]);
        Step(models, rows, ops[n]).rows == rows || RefsRule(models)(rows, ops[n])
    {
      RunOk(models, ops[..n]);
      assert ops[n] in ops;
      KeptIsSafe(models, Run(models, ops[..n]), ops[n]);
    }
    RunResolves(models, ops);
  }

  // ---------------------------------------------------------------------------------------------
  // The other routings' own validation
  // ---------------------------------------------------------------------------------------------

  /** In the graph a mutation leads to, the names that stand for another routing are well joined. */
  ghost predicate JoinsSafe(models: set<string>, rows: Rows, op: Op) {
    forall s | s in Touched(rows, op) :: WellJoined(GraphAfter(models, rows, op), s)
  }

  /**
   * When all global routings that can be looked up pass the search, they still do after a mutation that
   * changes the table exactly when it is safe in that sense.
   */
  lemma {:induction false} StepKeepsAccepted(models: set<string>, rows: Rows, op: Op)
    requires TableOk(rows) && AllAccepted(NamesOf(models, rows))
    ensures AllAccepted(NamesOf(models, Step(models, rows, op).rows))
      <==> Step(models, rows, op).rows == rows || JoinsSafe(models, rows, op)
  {
    if Step(models, rows, op).rows != rows {
      hide NamesOf, Checked, TableOk, Step, AllAccepted, SameGraph, SameBut, GraphAfter, WellJoined, Touched;
      StepGraph(models, rows, op);
      SameAccepted(NamesOf(models, Step(models, rows, op).rows), GraphAfter(models, rows, op));
      ChangeKeepsAccepted(NamesOf(models, rows), GraphAfter(models, rows, op), Touched(rows, op));
    }
  }

  ghost function JoinsRule(models: set<string>): (Rows, Op) -> bool {
    (rows, op) => JoinsSafe(models, rows, op)
  }

  /** Over runs of such mutations all global routings that can be looked up pass the search. */
  lemma {:induction false} RunKeepsAccepted(models: set<string>, ops: seq<Op>)
    requires Always(models, ops, JoinsRule(models))
    ensures AllAccepted(NamesOf(models, Run(models, ops)))
    decreases |ops|
  {
    if ops != [] {
      hide Step, NamesOf, AllAccepted, JoinsSafe, Run, TableOk;
      var n := |ops| - 1;
      AlwaysPrefix(models, ops, JoinsRule(models));
      RunKeepsAccepted(models, ops[..n]);
      RunOk(models, ops[..n]);
      RunLast(models, ops);
      StepKeepsAccepted(models, Run(models, ops[..n]), ops[n]);
    }
  }

  /** Every path of the saved routing to the one that is uncovered is harmless. */
  ghost predicate SafeBelow(models: set<string>, rows: Rows, op: Op, next: Routing)
    requires Uncovers(rows, op)
  {
    var stored := With(GraphAfter(models, rows, op), next);
    forall p | Simple(stored, p) && p[0] == next.name && FormerName(rows, op) in p :: Harmless(stored, p)
  }

  /**
   * With all lookups answered, the saved routing would pass again in the graph it leads to, unless it has a
   * harmful path to a routing that it uncovered.
   */
  lemma {:induction false} SavedIsAccepted(models: set<string>, rows: Rows, op: Op)
    requires TableOk(rows) && !op.Delete? && Step(models, rows, op).rows != rows && op.fault.queries.lost == {}
    requires SaveOf(rows, op).Some? && SaveOf(rows, op).value.next.scope.Global?
    ensures var next := SaveOf(rows, op).value.next;
      Accepted(With(GraphAfter(models, rows, op), next), next.name)
      <==> (Uncovers(rows, op) ==> SafeBelow(models, rows, op, next))
  {
    hide NamesOf, Checked, TableOk, Step, Accepted, GoodMembers, GraphAfter, SameGraph, Covers, Walk, Edge, Harmless;
    var names, after, next := NamesOf(models, rows), GraphAfter(models, rows, op), SaveOf(rows, op).value.next;
    StepGraph(models, rows, op);
    ValidateAccepts(names, op.fault.queries, next);
    assert Seen(names, op.fault.queries) == names;
    var changed := if Uncovers(rows, op) then {FormerName(rows, op)} else {};
    ChangeKeepsOne(With(names, next), With(after, next), changed, next.name);
  }

  /** A routing that no longer passes cannot be updated any more, unless its name or its members change. */
  lemma {:induction false} UnacceptedIsStuck(models: set<string>, rows: Rows, id: nat, u: Updates)
    requires id in rows && rows[id].scope.Global? && u.name.None? && u.members.None?
    requires !Accepted(With(NamesOf(models, rows), rows[id]), rows[id].name)
    ensures Changed(models, rows, id, u, NO_FAULT).err.Some?
  {
    hide NamesOf, Checked, Accepted, GoodMembers;
    var names, next := NamesOf(models, rows), Updated(rows[id], u);
    ValidateAccepts(names, NO_FAULT.queries, next);
    assert Seen(names, NO_FAULT.queries) == names;
    SameAccepted(With(names, rows[id]), With(names, next));
  }

  // ---------------------------------------------------------------------------------------------
  // Unique names
  // ---------------------------------------------------------------------------------------------

  /** A created global routing has no user, so that global names are unique. */
  ghost predicate Legal(op: Op) {
    op.Create? ==> Ownerless(op.r)
  }

  ghost predicate AllLegal(ops: seq<Op>) {
    forall op | op in ops :: Legal(op)
  }

  lemma {:induction false} StepUnique(models: set<string>, rows: Rows, op: Op)
    requires UniqueNames(rows) && Legal(op)
    ensures UniqueNames(Step(models, rows, op).rows)
  {
    hide NamesOf, Checked, TableOk, Clashes, DeleteError, Step;
    StepOk(models, rows, op);
    if Step(models, rows, op).rows != rows {
      if op.Delete? {
        DeleteChanges(models, rows, op);
      } else {
        var stored := SaveChanges(models, rows, op);
        assert Ownerless(stored) by {
          assert op.Update? ==> Ownerless(rows[op.id]);
        }
      }
    }
  }

  lemma {:induction false} RunUnique(models: set<string>, ops: seq<Op>)
    requires AllLegal(ops)
    ensures UniqueNames(Run(models, ops))
    decreases |ops|
  {
    if ops != [] {
      hide Step, UniqueNames;
      var n := |ops| - 1;
      RunUnique(models, ops[..n]);
      StepUnique(models, Run(models, ops[..n]), ops[n]);
    }
  }

  lemma {:induction false} SlotsDiffer(rows: Rows, i: nat, j: nat)
    requires UniqueNames(rows) && i in rows && j in rows && i != j && rows[i].scope == rows[j].scope == Global
    ensures rows[i].name != rows[j].name
  {
    assert Ownerless(rows[i]) && Ownerless(rows[j]);
    assert !SameSlot(rows[i], rows[j]);
  }

  lemma {:induction false} TablesOk(rows: Rows, after: Rows)
    requires UniqueNames(rows) && UniqueNames(after)
    ensures TableOk(rows) && TableOk(after)
  {
  }

  /** When no created global routing has a user nothing is ever uncovered. */
  lemma {:induction false} LegalRunCovers(models: set<string>, ops: seq<Op>)
    requires AllLegal(ops)
    ensures Always(models, ops, CoverRule())
  {
    hide Run, Step, UniqueNames, Uncovers, Legal;
    forall n | 0 <= n < |ops|
      ensures CoverRule()(Run(models, ops[..n]), ops[n])
    {
      assert forall op | op in ops[..n] :: op in ops;
      RunUnique(models, ops[..n]);
      UniqueUncovers(Run(models, ops[..n]), ops[n]);
    }
  }

  lemma {:induction false} UniqueUncovers(rows: Rows, op: Op)
    requires UniqueNames(rows)
    ensures !Uncovers(rows, op)
  {
    if Uncovers(rows, op) {
      hide UniqueNames;
      var j: nat :| j != op.id && IsGlobal(rows, j, rows[op.id].name);
      SlotsDiffer(rows, op.id, j);
      assert false;
    }
  }

  /** With unique names: a mutation keeps the cycles broken exactly when no lookup that failed hid a cycle. */
  lemma {:induction false} UniqueBreaksCycles(models: set<string>, rows: Rows, op: Op)
    requires UniqueNames(rows) && Legal(op) && CyclesBroken(NamesOf(models, rows))
    ensures CyclesBroken(NamesOf(models, Step(models, rows, op).rows))
      <==> Step(models, rows, op).rows == rows
           || (!op.Delete? && SaveOf(rows, op).Some? && SaveOf(rows, op).value.next.scope.Global? ==>
                 var name := SaveOf(rows, op).value.next.name;
                 forall x | x in op.fault.queries.lost && x != name :: !FreeLoop(GraphAfter(models, rows, op), name, x))
  {
    hide NamesOf, CyclesBroken, Step, FreeLoop, GraphAfter, UniqueNames, Uncovers, IsFirst, Legal;
    TablesOk(rows, rows);
    UniqueUncovers(rows, op);
    StepBreaksCycles(models, rows, op);
    if Step(models, rows, op).rows != rows {
      UniqueSaves(models, rows, op);
    }
  }

  lemma {:induction false} UniqueSaves(models: set<string>, rows: Rows, op: Op)
    requires UniqueNames(rows) && Legal(op) && Step(models, rows, op).rows != rows
    ensures SavesFirst(rows, op)
      <==> !op.Delete? && SaveOf(rows, op).Some? && SaveOf(rows, op).value.next.scope.Global?
  {
    hide NamesOf, Step, UniqueNames, Checked, Clashes;
    if !op.Delete? {
      var stored := SaveChanges(models, rows, op) by { TablesOk(rows, rows); }
      StepUnique(models, rows, op);
      var next, after := SaveOf(rows, op).value.next, Step(models, rows, op).rows;
      TablesOk(rows, after);
      assert op.Update? ==> next.id == op.id by {
        if op.Update? { RowOfTable(rows, op.id); }
      }
      if next.scope.Global? {
        forall j: nat | IsGlobal(Wanted(rows, op), j, next.name)
          ensures j == next.id
        {
          if j != next.id { SlotsDiffer(after, j, next.id); }
        }
      }
    }
  }
}
