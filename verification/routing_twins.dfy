/**
 * Two global routings of one name (internal/master/api/model_routing/create.go:11-38 takes scope and user from
 * the request): a run of accepted mutations that stores a cycle, though no read or write fails.
 */
module RoutingTwins {
  import opened Options
  import opened Sequences
  import opened RoutingGraph
  import opened RoutingChanges
  import opened RoutingValidation
  import opened RoutingStores
  import opened RoutingLaws
  import opened RoutingLimits

  /** a -> model and b -> model; a second a, of a user, -> b; then b -> a, and the first a becomes c. */
  function TwinRun(a: string, b: string, c: string, model: string): (ops: seq<Op>)
    ensures |ops| == 5
  {
    [Create(To(0, a, model), NO_FAULT), Create(To(1, b, model), NO_FAULT),
     Create(To(2, a, b).(userId := 1), NO_FAULT),
     Update(1, Updates(None, Some(Parsed([Member(a, 0, 1)])), None, None), NO_FAULT),
     Update(0, Updates(Some(c), None, None, None), NO_FAULT)]
  }

  /** The table after the first n of them. */
  function TwinRows(a: string, b: string, c: string, model: string, n: nat): Rows {
    var first, second := To(0, if n < 5 then a else c, model), To(1, b, if n < 4 then model else a);
    if n == 0 then map[]
    else if n == 1 then map[0 := first]
    else if n == 2 then map[0 := first, 1 := second]
    else map[0 := first, 1 := second, 2 := To(2, a, b).(userId := 1)]
  }

  /** Four names that a routing can have or refer to. */
  ghost predicate FourNames(a: string, b: string, c: string, model: string) {
    GoodName(a) && GoodName(b) && GoodName(c) && model != "" && a != b && c !in {a, b} && model !in {a, b, c}
  }

  lemma {:induction false} TwinsOk(a: string, b: string, c: string, model: string, n: nat)
    requires FourNames(a, b, c, model)
    ensures TableOk(TwinRows(a, b, c, model, n))
  {
  }

  /** What lookups find: the second a only once the first has another name. */
  lemma {:induction false} TwinNames(a: string, b: string, c: string, model: string, n: nat)
    requires FourNames(a, b, c, model)
    ensures var rows := TwinRows(a, b, c, model, n); var names := NamesOf({model}, rows);
      && names.models == {model}
      && names.routings.Keys == (if n > 0 then {a} else {}) + (if n > 1 then {b} else {}) + (if n > 4 then {c} else {})
      && (n > 0 ==> names.routings[a] == rows[if n > 4 then 2 else 0])
      && (n > 1 ==> names.routings[b] == rows[1])
  {
    var rows := TwinRows(a, b, c, model, n);
    var names := NamesOf({model}, rows);
    hide NamesOf;
    SameModels({model}, rows, rows);
    if n > 0 { FirstNamed({model}, rows, if n > 4 then 2 else 0); }
    if n > 1 { FirstNamed({model}, rows, 1); }
    if n > 4 { FirstNamed({model}, rows, 0); }
    forall m | m in names.routings
      ensures (n > 0 && m == a) || (n > 1 && m == b) || (n > 4 && m == c)
    {
      var i := NameIsFirst({model}, rows, m);
    }
  }

  // ---------------------------------------------------------------------------------------------
  // The steps
  // ---------------------------------------------------------------------------------------------

  lemma {:induction false} FirstTwo(a: string, b: string, c: string, model: string, n: nat)
    requires FourNames(a, b, c, model) && n < 2
    ensures Goes(a, b, c, model, n)
  {
    var rows, next := TwinRows(a, b, c, model, n), To(n, if n == 0 then a else b, model);
    TwinNames(a, b, c, model, n);
    assert n !in rows && !Clashes(rows, next);
    assert rows[n := next] == TwinRows(a, b, c, model, n + 1);
    hide NamesOf, Checked, Clashes, GoodName, Step, TwinRows;
    LeafChecked(NamesOf({model}, rows), n, next.name, model);
    CreateGoesThrough({model}, rows, next);
  }

  /** The n-th mutation is accepted and leads from the n-th table to the next one. */
  ghost predicate Goes(a: string, b: string, c: string, model: string, n: nat)
    requires n < 5
  {
    Step({model}, TwinRows(a, b, c, model, n), TwinRun(a, b, c, model)[n])
      == Outcome(TwinRows(a, b, c, model, n + 1), None)
  }

  /** A routing x -> y above y -> model is accepted. */
  lemma {:induction false} PairChecked(names: Names, next: Routing, x: string, y: string, model: string)
    requires names.models == {model} && names.routings.Keys == {x, y} && x != y && model !in {x, y}
    requires Refs(Children(names.routings[y])) == {model}
    requires next.name == x && next.members == Parsed([Member(y, 0, 1)]) && GoodName(x) && y != ""
    ensures Checked(names, NO_FAULT.queries, next).None?
  {
    ToRefs(0, x, y);
    assert Children(next) == Children(To(0, x, y));
    hide Checked, Accepted, NeverBlind;
    assert Seen(names, NO_FAULT.queries) == names;
    assert With(names, next).routings.Keys == {x, y};
    NothingBlind();
    TwoSteps(With(names, next), x, y, model);
    ValidateAccepts(names, NO_FAULT.queries, next);
  }

  lemma {:induction false} ThirdTable(a: string, b: string, c: string, model: string)
    requires FourNames(a, b, c, model)
    ensures var rows, next := TwinRows(a, b, c, model, 2), To(2, a, b).(userId := 1);
      && 2 !in rows && !Clashes(rows, next) && 1 in rows && rows[1] == To(1, b, model)
      && rows[2 := next] == TwinRows(a, b, c, model, 3)
  {
  }

  lemma {:induction false} Third(a: string, b: string, c: string, model: string)
    requires FourNames(a, b, c, model)
    ensures Goes(a, b, c, model, 2)
  {
    assert b != "";
    hide NamesOf, Checked, Clashes, GoodName, Step, TwinRows;
    var rows, next := TwinRows(a, b, c, model, 2), To(2, a, b).(userId := 1);
    TwinNames(a, b, c, model, 2);
    ToRefs(1, b, model);
    ThirdTable(a, b, c, model);
    PairChecked(NamesOf({model}, rows), next, a, b, model);
    CreateGoesThrough({model}, rows, next);
  }

  lemma {:induction false} FourthTable(a: string, b: string, c: string, model: string)
    requires FourNames(a, b, c, model)
    ensures var rows := TwinRows(a, b, c, model, 3);
      && rows.Keys == {0, 1, 2} && rows[0] == To(0, a, model) && rows[1] == To(1, b, model)
      && rows[1 := To(1, b, a)] == TwinRows(a, b, c, model, 4)
  {
  }

  lemma {:induction false} Fourth(a: string, b: string, c: string, model: string)
    requires FourNames(a, b, c, model)
    ensures Goes(a, b, c, model, 3)
  {
    assert a != "";
    hide NamesOf, Checked, Clashes, GoodName, Step, TwinRows, TableOk;
    var rows, next := TwinRows(a, b, c, model, 3), To(1, b, a);
    var u := Updates(None, Some(Parsed([Member(a, 0, 1)])), None, None);
    TwinNames(a, b, c, model, 3);
    TwinsOk(a, b, c, model, 3);
    ToRefs(0, a, model);
    FourthTable(a, b, c, model);
    assert Updated(rows[1], u) == next;
    PairChecked(NamesOf({model}, rows), next, b, a, model);
    UpdateGoesThrough({model}, rows, 1, u, NO_FAULT);
  }

  lemma {:induction false} FifthTable(a: string, b: string, c: string, model: string)
    requires FourNames(a, b, c, model)
    ensures var rows, next := TwinRows(a, b, c, model, 4), To(0, c, model);
      && 0 in rows && rows[0] == To(0, a, model) && !Clashes(rows, next)
      && rows[0 := next] == TwinRows(a, b, c, model, 5)
  {
  }

  lemma {:induction false} Fifth(a: string, b: string, c: string, model: string)
    requires FourNames(a, b, c, model)
    ensures Goes(a, b, c, model, 4)
  {
    hide NamesOf, Checked, Clashes, GoodName, Step, TwinRows;
    var rows, next := TwinRows(a, b, c, model, 4), To(0, c, model);
    TwinNames(a, b, c, model, 4);
    FifthTable(a, b, c, model);
    assert rows[0].(name := c) == next;
    LeafChecked(NamesOf({model}, rows), 0, c, model);
    RenameGoesThrough({model}, rows, 0, c);
  }

  lemma {:induction false} EachGoes(a: string, b: string, c: string, model: string, n: nat)
    requires FourNames(a, b, c, model) && n < 5
    ensures Goes(a, b, c, model, n)
  {
    hide Goes, FourNames;
    if n < 2 { FirstTwo(a, b, c, model, n); }
    else if n == 2 { Third(a, b, c, model); }
    else if n == 3 { Fourth(a, b, c, model); }
    else { Fifth(a, b, c, model); }
  }

  lemma {:induction false} TwinRunRows(a: string, b: string, c: string, model: string, n: nat)
    requires FourNames(a, b, c, model) && n <= 5
    ensures Run({model}, TwinRun(a, b, c, model)[..n]) == TwinRows(a, b, c, model, n)
  {
    hide FourNames, Step;
    var ops := TwinRun(a, b, c, model);
    if n > 0 {
      TwinRunRows(a, b, c, model, n - 1);
      EachGoes(a, b, c, model, n - 1);
      assert ops[..n][..n - 1] == ops[..n - 1];
      hide TwinRun, TwinRows, Run;
      RunLast({model}, ops[..n]);
    }
  }

  // ---------------------------------------------------------------------------------------------
  // The cycle
  // ---------------------------------------------------------------------------------------------

  lemma {:induction false} LeadsBefore(a: string, b: string, c: string, model: string)
    requires FourNames(a, b, c, model)
    ensures Leads(NamesOf({model}, TwinRows(a, b, c, model, 4)), [a, b], [model, a])
  {
    hide NamesOf, GoodName;
    TwinNames(a, b, c, model, 4);
  }

  /** b -> a -> model is no cycle. */
  lemma {:induction false} BrokenBefore(a: string, b: string, c: string, model: string)
    requires FourNames(a, b, c, model)
    ensures CyclesBroken(NamesOf({model}, TwinRows(a, b, c, model, 4)))
  {
    var names := NamesOf({model}, TwinRows(a, b, c, model, 4));
    LeadsBefore(a, b, c, model);
    hide NamesOf, Leads, ClosedWalk, TwinRows, GoodName;
    forall w
      ensures !ClosedWalk(names, w)
    {
      NoCycleOfTwo(names, a, b, model, w);
    }
  }

  lemma {:induction false} NoCycleOfTwo(names: Names, a: string, b: string, model: string, w: seq<string>)
    requires Leads(names, [a, b], [model, a]) && model !in {a, b}
    ensures !ClosedWalk(names, w)
  {
    var from, to := [a, b], [model, a];
    if ClosedWalk(names, w) {
      hide Walk, Edge, Leads;
      var m := ClosedNext(names, w, w[0]);
      EdgeFrom(names, w[0], m);
      LeadsIn(names, from, to);
      if b in w { OffCycles(names, from, to, w, 1); }
      OffCycles(names, from, to, w, 0);
      assert false;
    }
  }

  /** a -> b -> a is one. */
  lemma {:induction false} CycleAfter(a: string, b: string, c: string, model: string)
    requires FourNames(a, b, c, model)
    ensures !CyclesBroken(NamesOf({model}, TwinRows(a, b, c, model, 5)))
  {
    var names := NamesOf({model}, TwinRows(a, b, c, model, 5));
    TwinNames(a, b, c, model, 5);
    hide NamesOf;
    ToRefs(2, a, b);
    ToRefs(1, b, a);
    assert Children(names.routings[a]) == Children(To(2, a, b));
    TwoMakeACycle(names, a, b);
  }

  lemma {:induction false} TwoMakeACycle(names: Names, a: string, b: string)
    requires a in names.routings && b in names.routings && names.models !! {a, b}
    requires Refs(Children(names.routings[a])) == {b} && Refs(Children(names.routings[b])) == {a}
    ensures !CyclesBroken(names)
  {
    var w := [a, b, a];
    assert Edge(names, a, b) && Edge(names, b, a);
    assert ClosedWalk(names, w);
    assert forall n | n in w :: n in {a, b};
  }

  lemma {:induction false} TwinRunParts(a: string, b: string, c: string, model: string)
    ensures var ops := TwinRun(a, b, c, model);
      |ops| == 5 && ops[..5] == ops && forall op | op in ops :: op.fault == NO_FAULT
  {
  }

  /**
   * Five mutations that are all accepted, with every read and write answered: after four of them every cycle is
   * broken; the fifth, a rename, uncovers a routing whose members were checked against an older graph.
   */
  lemma {:induction false} SharedNameStoresCycle(a: string, b: string, c: string, model: string)
    requires FourNames(a, b, c, model)
    ensures var ops := TwinRun(a, b, c, model);
      && (forall n: nat | n < 5 :: Step({model}, Run({model}, ops[..n]), ops[n]).err.None?)
      && (forall op | op in ops :: op.fault == NO_FAULT)
      && CyclesBroken(NamesOf({model}, Run({model}, ops[..4]))) && !CyclesBroken(NamesOf({model}, Run({model}, ops)))
  {
    var ops := TwinRun(a, b, c, model);
    TwinRunParts(a, b, c, model);
    hide FourNames, Step, CyclesBroken, NamesOf, Run, TwinRows, TwinRun;
    forall n: nat | n < 5
      ensures Step({model}, Run({model}, ops[..n]), ops[n]).err.None?
    {
      TwinRunRows(a, b, c, model, n);
      EachGoes(a, b, c, model, n);
    }
    TwinRunRows(a, b, c, model, 4);
    TwinRunRows(a, b, c, model, 5);
    BrokenBefore(a, b, c, model);
    CycleAfter(a, b, c, model);
  }
}
