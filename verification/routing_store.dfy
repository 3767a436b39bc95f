/**
 * The stored routings and the three guarded mutations (internal/dao/model_routing.go:94-170).  The set of
 * real models stays fixed; failing reads and writes are parameters.
 */
module RoutingStores {
  import opened Options
  import opened Sequences
  import opened RoutingGraph
  import opened RoutingValidation

  /** The update keys that are allowed, present and of the right type. */
  datatype Updates = Updates(
    name: Option<string>, members: Option<Members>, enabled: Option<bool>, remark: Option<string>)

  /** What the writes come to: the second one disables a created routing. */
  datatype WriteFault = Written | WriteFails | DisableFails

  /** Everything that fails during one mutation; `row` is the read of the row it is about. */
  datatype Fault = Fault(row: bool, queries: Failures, write: WriteFault)

  const NO_FAULT := Fault(false, Failures({}, NOT_BLIND, {}), Written)

  datatype Outcome = Outcome(rows: Rows, err: Option<RoutingError>)

  // ---------------------------------------------------------------------------------------------
  // The mutations on values
  // ---------------------------------------------------------------------------------------------

  /** Another row has the same scope, user and name. */
  predicate Clashes(rows: Rows, r: Routing) {
    exists i :: i in rows && i != r.id && SameSlot(rows[i], r)
  }

  function Updated(r: Routing, u: Updates): Routing {
    r.(name := if u.name.Some? then u.name.value else r.name,
       members := if u.members.Some? then u.members.value else r.members,
       enabled := if u.enabled.Some? then u.enabled.value else r.enabled,
       remark := if u.remark.Some? then u.remark.value else r.remark)
  }

  const NO_UPDATES := Updates(None, None, None, None)

  ghost function Created(models: set<string>, rows: Rows, r: Routing, fault: Fault): Outcome {
    var e := Checked(NamesOf(models, rows), fault.queries, r);
    if e.Some? then Outcome(rows, e)
    else if fault.write.WriteFails? || r.id in rows || Clashes(rows, r) then Outcome(rows, Some(DbError))
    else if !r.enabled && fault.write.DisableFails? then Outcome(rows[r.id := r.(enabled := true)], Some(DbError))
    else Outcome(rows[r.id := r], None)
  }

  ghost function Changed(models: set<string>, rows: Rows, id: nat, u: Updates, fault: Fault): Outcome {
    if fault.row || id !in rows then Outcome(rows, Some(NotFound))
    else
      var next := Updated(rows[id], u);
      var e := Checked(NamesOf(models, rows), fault.queries, next);
      if e.Some? then Outcome(rows, e)
      else if u == NO_UPDATES then Outcome(rows, None)
      else if fault.write.WriteFails? || Clashes(rows, next) then Outcome(rows, Some(DbError))
      else Outcome(rows[id := next], None)
  }

  ghost function Deleted(models: set<string>, rows: Rows, id: nat, fault: Fault): Outcome {
    if fault.row || id !in rows then Outcome(rows, Some(NotFound))
    else
      var e := DeleteError(rows, fault.queries, rows[id]);
      if e.Some? then Outcome(rows, e)
      else if fault.write.WriteFails? then Outcome(rows, Some(DbError))
      else Outcome(rows - {id}, None)
  }

  lemma {:induction false} PutOk(rows: Rows, r: Routing)
    requires TableOk(rows) && !Clashes(rows, r)
    ensures TableOk(rows[r.id := r])
  {
    var after := rows[r.id := r];
    forall i | i in rows && i != r.id
      ensures !SameSlot(rows[i], r) && !SameSlot(r, rows[i])
    {
    }
    forall i, j | i in after && j in after && SameSlot(after[i], after[j])
      ensures i == j
    {
      if i != r.id && j != r.id {
        assert SameSlot(rows[i], rows[j]);
      }
    }
  }

  /** Whatever its enabled flag ends up as. */
  lemma {:induction false} StoredOk(rows: Rows, r: Routing)
    requires TableOk(rows) && !Clashes(rows, r)
    ensures TableOk(rows[r.id := r]) && TableOk(rows[r.id := r.(enabled := true)])
  {
    hide TableOk;
    PutOk(rows, r);
    var on := r.(enabled := true);
    assert forall a: Routing :: SameSlot(a, on) <==> SameSlot(a, r);
    PutOk(rows, on);
  }

  lemma {:induction false} DropOk(rows: Rows, id: nat)
    requires TableOk(rows)
    ensures TableOk(rows - {id})
  {
    var after := rows - {id};
    forall i, j | i in after && j in after && SameSlot(after[i], after[j])
      ensures i == j
    {
      assert SameSlot(rows[i], rows[j]);
    }
  }

  lemma {:induction false} RowOfTable(rows: Rows, id: nat)
    requires TableOk(rows) && id in rows
    ensures rows[id].id == id
  {
  }

  // ---------------------------------------------------------------------------------------------
  // The mutations as they run
  // ---------------------------------------------------------------------------------------------

  class RoutingStore {
    const models: set<string>
    var rows: Rows

    ghost predicate Valid()
      reads this
    {
      TableOk(rows)
    }

    constructor (models: set<string>)
      ensures Valid() && this.models == models && rows == map[]
    {
      this.models, rows := models, map[];
    }

    /** The column default makes the insert store `enabled`, so a disabled routing takes a second write. */
    method Create(r: Routing, fault: Fault) returns (err: Option<RoutingError>)
      requires Valid()
      modifies this
      ensures Valid() && Outcome(rows, err) == Created(models, old(rows), r, fault)
    {
      hide NamesOf, Checked, TableOk, Clashes;
      var np := new NameProvider(models, rows, fault.queries);
      err := ValidateRouting(r, np);
      if err.Some? {
        return;
      }
      var wantEnabled := r.enabled;
      if fault.write.WriteFails? || r.id in rows || Clashes(rows, r) {
        return Some(DbError);
      }
      StoredOk(rows, r);
      rows := rows[r.id := r.(enabled := true)];
      if !wantEnabled {
        if fault.write.DisableFails? {
          return Some(DbError);
        }
        rows := rows[r.id := r.(enabled := false)];
      }
      assert rows == old(rows)[r.id := r];
      err := None;
    }

    method Update(id: nat, updates: Updates, fault: Fault) returns (err: Option<RoutingError>)
      requires Valid()
      modifies this
      ensures Valid() && Outcome(rows, err) == Changed(models, old(rows), id, updates, fault)
    {
      hide NamesOf, Checked, TableOk, Clashes;
      if fault.row || id !in rows {
        return Some(NotFound);
      }
      RowOfTable(rows, id);
      var next, allowed := ApplyUpdates(rows[id], updates);
      var np := new NameProvider(models, rows, fault.queries);
      hide Updated;
      err := ValidateRouting(next, np);
      if err.Some? || !allowed {
        return;
      }
      if fault.write.WriteFails? || Clashes(rows, next) {
        return Some(DbError);
      }
      PutOk(rows, next);
      rows := rows[id := next];
    }

    /** The loop over the update keys. */
    static method ApplyUpdates(existing: Routing, updates: Updates) returns (next: Routing, allowed: bool)
      ensures next == Updated(existing, updates) && next.id == existing.id
      ensures allowed <==> updates != NO_UPDATES
    {
      next, allowed := existing, false;
      if updates.name.Some? {
        next, allowed := next.(name := updates.name.value), true;
      }
      if updates.members.Some? {
        next, allowed := next.(members := updates.members.value), true;
      }
      if updates.enabled.Some? {
        next, allowed := next.(enabled := updates.enabled.value), true;
      }
      if updates.remark.Some? {
        next, allowed := next.(remark := updates.remark.value), true;
      }
    }

    method Delete(id: nat, fault: Fault) returns (err: Option<RoutingError>)
      requires Valid()
      modifies this
      ensures Valid() && Outcome(rows, err) == Deleted(models, old(rows), id, fault)
    {
      hide NamesOf, DeleteError, TableOk;
      if fault.row || id !in rows {
        return Some(NotFound);
      }
      var np := new NameProvider(models, rows, fault.queries);
      err := ValidateDelete(rows[id], np);
      if err.Some? {
        return;
      }
      if fault.write.WriteFails? {
        return Some(DbError);
      }
      DropOk(rows, id);
      rows := rows - {id};
    }
  }

  // ---------------------------------------------------------------------------------------------
  // Runs
  // ---------------------------------------------------------------------------------------------

  datatype Op =
    | Create(r: Routing, fault: Fault)
    | Update(id: nat, updates: Updates, fault: Fault)
    | Delete(id: nat, fault: Fault)

  ghost function Step(models: set<string>, rows: Rows, op: Op): Outcome {
    match op
    case Create(r, fault) => Created(models, rows, r, fault)
    case Update(id, updates, fault) => Changed(models, rows, id, updates, fault)
    case Delete(id, fault) => Deleted(models, rows, id, fault)
  }

  ghost function Run(models: set<string>, ops: seq<Op>): Rows {
    if ops == [] then map[] else Step(models, Run(models, ops[..|ops| - 1]), ops[|ops| - 1]).rows
  }

  /** What a mutation that stores something puts in: the row, and the name its row had. */
  datatype Save = Save(next: Routing, former: string)

  ghost function SaveOf(rows: Rows, op: Op): Option<Save> {
    match op
    case Create(r, _) => Some(Save(r, r.name))
    case Update(id, u, _) => if id in rows then Some(Save(Updated(rows[id], u), rows[id].name)) else None
    case Delete(_, _) => None
  }

  /** A mutation that changes the table puts in its row, possibly still enabled, under its old or a new id. */
  lemma {:induction false} SaveChanges(models: set<string>, rows: Rows, op: Op) returns (stored: Routing)
    requires TableOk(rows) && !op.Delete? && Step(models, rows, op).rows != rows
    ensures SaveOf(rows, op).Some?
    ensures var Save(next, former) := SaveOf(rows, op).value;
      && Step(models, rows, op).rows == rows[next.id := stored]
      && (stored == next || stored == next.(enabled := true))
      && !Clashes(rows, next) && Checked(NamesOf(models, rows), op.fault.queries, next).None?
      && (next.id !in rows ==> former == next.name && op.Create?)
      && (next.id in rows ==> rows[next.id].name == former && rows[next.id].scope == next.scope
                              && rows[next.id].userId == next.userId)
  {
    hide NamesOf, Checked, TableOk, Clashes;
    match op
    case Create(r, fault) =>
      stored := if !r.enabled && fault.write.DisableFails? then r.(enabled := true) else r;
    case Update(id, u, fault) =>
      RowOfTable(rows, id);
      stored := Updated(rows[id], u);
  }

  /** A mutation that changes the table otherwise takes an unreferenced row out, as far as it could see. */
  lemma {:induction false} DeleteChanges(models: set<string>, rows: Rows, op: Op)
    requires op.Delete? && Step(models, rows, op).rows != rows
    ensures op.id in rows && Step(models, rows, op).rows == rows - {op.id}
    ensures DeleteError(rows, op.fault.queries, rows[op.id]).None?
  {
  }

  lemma {:induction false} StepOk(models: set<string>, rows: Rows, op: Op)
    requires TableOk(rows)
    ensures TableOk(Step(models, rows, op).rows)
  {
    hide NamesOf, Checked, TableOk, Clashes, DeleteError, Step;
    if Step(models, rows, op).rows != rows {
      if op.Delete? {
        DeleteChanges(models, rows, op);
        DropOk(rows, op.id);
      } else {
        var stored := SaveChanges(models, rows, op);
        StoredOk(rows, SaveOf(rows, op).value.next);
      }
    }
  }

  lemma {:induction false} RunOk(models: set<string>, ops: seq<Op>)
    ensures TableOk(Run(models, ops))
    decreases |ops|
  {
    if ops != [] {
      hide Step, TableOk;
      var n := |ops| - 1;
      RunOk(models, ops[..n]);
      StepOk(models, Run(models, ops[..n]), ops[n]);
    }
  }

  lemma {:induction false} RunLast(models: set<string>, ops: seq<Op>)
    requires ops != []
    ensures Run(models, ops) == Step(models, Run(models, ops[..|ops| - 1]), ops[|ops| - 1]).rows
  {
  }

  /** Every mutation of a run that changes the table is safe in some sense when it runs. */
  ghost predicate Always(models: set<string>, ops: seq<Op>, safe: (Rows, Op) -> bool) {
    forall n | 0 <= n < |ops| ::
      var rows := Run(models, ops[..n]);
      Step(models, rows, ops[n]).rows == rows || safe(rows, ops[n])
  }

  lemma {:induction false} AlwaysPrefix(models: set<string>, ops: seq<Op>, safe: (Rows, Op) -> bool)
    requires ops != [] && Always(models, ops, safe)
    ensures Always(models, ops[..|ops| - 1], safe)
    ensures var n := |ops| - 1; var rows := Run(models, ops[..n]);
      Step(models, rows, ops[n]).rows == rows || safe(rows, ops[n])
  {
    hide Step, Run;
    var fewer := ops[..|ops| - 1];
    forall m | 0 <= m < |fewer|
      ensures var rows := Run(models, fewer[..m]); Step(models, rows, fewer[m]).rows == rows || safe(rows, fewer[m])
    {
      assert fewer[..m] == ops[..m];
    }
  }
}
