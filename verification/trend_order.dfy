/**
 * When the order of a trend's series lists a name twice (internal/dao/stats.go:1219-1242): the folded rest is
 * called "others" even when a chosen model has that name.  Which of equally costly models is chosen depends on
 * the order a map is iterated in, so that several trends can come of the same rows.
 */
module TrendOrder {
  import opened Sequences
  import opened CostTrends

  /** The models that cost more than one does. */
  ghost function Dearer(rows: seq<Row>, one: string): set<string> {
    set m | m in Models(rows) && Total(rows, m) > Total(rows, one)
  }

  /** The other models that do not cost less than "others" does, as a model. */
  ghost function NoCheaper(rows: seq<Row>): set<string> {
    set m | m in Models(rows) && m != OTHERS && Total(rows, m) >= Total(rows, OTHERS)
  }

  /** There is a rest, and a model with its name. */
  ghost predicate Confusable(rows: seq<Row>, topN: int) {
    OTHERS in Models(rows) && Limit(topN, |Models(rows)|) < |Models(rows)|
  }

  // ---------------------------------------------------------------------------------------------
  // Some trend for each way to choose among equals
  // ---------------------------------------------------------------------------------------------

  /** a is chosen before b: it costs more, or as much and the one model is preferred, or avoided. */
  ghost predicate Above(rows: seq<Row>, one: string, first: bool, a: string, b: string) {
    && Total(rows, a) >= Total(rows, b)
    && (Total(rows, a) == Total(rows, b) ==> if first then b != one || a == one else a != one || b == one)
  }

  lemma {:induction false} Greatest(rows: seq<Row>, models: set<string>, one: string, first: bool) returns (m: string)
    requires models != {}
    ensures m in models && forall n | n in models :: Above(rows, one, first, m, n)
    decreases |models|
  {
    hide Total;
    m :| m in models;
    if models != {m} {
      var other := Greatest(rows, models - {m}, one, first);
      var found := m;
      if !Above(rows, one, first, m, other) {
        m := other;
      }
      forall n | n in models
        ensures Above(rows, one, first, m, n)
      {
        assert n == found || Above(rows, one, first, other, n);
      }
    }
  }

  /** Chosen among some models in that order. */
  ghost predicate Ranked(rows: seq<Row>, models: set<string>, one: string, first: bool, top: seq<string>) {
    && Distinct(top) && Elements(top) <= models
    && (forall i, j | 0 <= i < j < |top| :: Above(rows, one, first, top[i], top[j]))
    && forall m, n | m in models && m !in top && n in top :: Above(rows, one, first, n, m)
  }

  lemma {:induction false} SomeTop(rows: seq<Row>, models: set<string>, k: nat, one: string, first: bool)
    returns (top: seq<string>)
    requires k <= |models|
    ensures |top| == k && Ranked(rows, models, one, first, top)
    decreases k
  {
    hide Above;
    top := [];
    if k > 0 {
      var m := Greatest(rows, models, one, first);
      var rest := SomeTop(rows, models - {m}, k - 1, one, first);
      top := [m] + rest;
      forall n | n in rest
        ensures n in models && n != m
      {
        assert n in Elements(rest);
      }
    }
  }

  lemma {:induction false} RankedIsTop(rows: seq<Row>, one: string, first: bool, top: seq<string>)
    requires Ranked(rows, Models(rows), one, first, top)
    ensures IsTop(top, rows)
  {
    hide Total, Models;
    assert forall n | n in top :: n in Elements(top);
  }

  lemma {:induction false} SomeTrend(rows: seq<Row>, w: Window, topN: int, one: string, first: bool) returns (t: Trend)
    ensures IsTrend(t, rows, w, topN)
    ensures Ranked(rows, Models(rows), one, first, t.seriesOrder[..Limit(topN, |Models(rows)|)])
  {
    hide Models, Regrouped, Ranked, IsTop;
    var k := Limit(topN, |Models(rows)|);
    var top := SomeTop(rows, Models(rows), k, one, first);
    RankedIsTop(rows, one, first, top);
    t := Trend(Regrouped(rows, w, Elements(top)), top + if k < |Models(rows)| then [OTHERS] else []);
    assert t.seriesOrder[..k] == top;
  }

  // ---------------------------------------------------------------------------------------------
  // Repetitions
  // ---------------------------------------------------------------------------------------------

  /** N names, or one for each model if there are no more; five when none are asked for; and one for the rest. */
  lemma {:induction false} OrderSize(t: Trend, rows: seq<Row>, w: Window, topN: int)
    requires IsTrend(t, rows, w, topN)
    ensures var n := if topN <= 0 then 5 else topN;
      |t.seriesOrder| == if |Models(rows)| <= n then |Models(rows)| else n + 1
  {
    hide Regrouped, IsTop, Models;
  }

  /** A name is listed twice exactly when a model called as the rest is chosen and there is a rest. */
  lemma {:induction false} RepeatsOthers(t: Trend, rows: seq<Row>, w: Window, topN: int)
    requires IsTrend(t, rows, w, topN)
    ensures !Distinct(t.seriesOrder)
      <==> Confusable(rows, topN) && OTHERS in t.seriesOrder[..Limit(topN, |Models(rows)|)]
  {
    hide Regrouped, Models, Elements, Total;
    var k := Limit(topN, |Models(rows)|);
    var top := t.seriesOrder[..k];
    assert t.seriesOrder == top + t.seriesOrder[k..];
    if OTHERS in top && k < |Models(rows)| {
      var i :| 0 <= i < k && top[i] == OTHERS;
      assert t.seriesOrder[i] == t.seriesOrder[k];
    }
  }

  /** What is chosen together with "others", and what is when it is not. */
  lemma {:induction false} ChosenSize(top: seq<string>, rows: seq<Row>)
    requires IsTop(top, rows) && OTHERS in Models(rows)
    ensures OTHERS in top ==> |Dearer(rows, OTHERS)| < |top|
    ensures OTHERS !in top ==> |top| <= |NoCheaper(rows)|
  {
    hide Total, Models;
    DistinctSize(top);
    if OTHERS in top {
      assert forall m | m in Dearer(rows, OTHERS) :: m in top;
      SubsetSize(Dearer(rows, OTHERS) + {OTHERS}, Elements(top));
    } else {
      SubsetSize(Elements(top), NoCheaper(rows));
    }
  }

  /**
   * No trend lists a name twice if and only if there is no rest, no model has its name, or enough models cost
   * more than that one.
   */
  lemma {:induction false} OrderIsDistinct(rows: seq<Row>, w: Window, topN: int)
    ensures (forall t | IsTrend(t, rows, w, topN) :: Distinct(t.seriesOrder))
      <==> !Confusable(rows, topN) || |Dearer(rows, OTHERS)| >= Limit(topN, |Models(rows)|)
  {
    hide Models, Total, Regrouped, Dearer, NoCheaper, IsTop, Ranked;
    var k := Limit(topN, |Models(rows)|);
    forall t | IsTrend(t, rows, w, topN)
      ensures !Distinct(t.seriesOrder) ==> Confusable(rows, topN) && |Dearer(rows, OTHERS)| < k
    {
      RepeatsOthers(t, rows, w, topN);
      if !Distinct(t.seriesOrder) {
        ChosenSize(t.seriesOrder[..k], rows);
      }
    }
    if Confusable(rows, topN) && |Dearer(rows, OTHERS)| < k {
      var t := SomeTrend(rows, w, topN, OTHERS, true);
      RepeatsOthers(t, rows, w, topN);
      PreferredIsChosen(t.seriesOrder[..k], rows, OTHERS);
    }
  }

  /** A preferred model is chosen unless enough others cost more. */
  lemma {:induction false} PreferredIsChosen(top: seq<string>, rows: seq<Row>, one: string)
    requires Ranked(rows, Models(rows), one, true, top) && one in Models(rows) && |Dearer(rows, one)| < |top|
    ensures one in top
  {
    hide Total, Models;
    if one !in top {
      DistinctSize(top);
      assert forall n | n in top :: n in Elements(top);
      SubsetSize(Elements(top), Dearer(rows, one));
    }
  }

  /** Every trend lists a name twice if and only if there is a rest, and too few models cost what its namesake does. */
  lemma {:induction false} OrderRepeats(rows: seq<Row>, w: Window, topN: int)
    ensures (forall t | IsTrend(t, rows, w, topN) :: !Distinct(t.seriesOrder))
      <==> Confusable(rows, topN) && |NoCheaper(rows)| < Limit(topN, |Models(rows)|)
  {
    hide Models, Total, Regrouped, Dearer, NoCheaper, IsTop, Ranked;
    var k := Limit(topN, |Models(rows)|);
    forall t | IsTrend(t, rows, w, topN)
      ensures Distinct(t.seriesOrder) ==> !Confusable(rows, topN) || k <= |NoCheaper(rows)|
    {
      RepeatsOthers(t, rows, w, topN);
      if Distinct(t.seriesOrder) && Confusable(rows, topN) {
        ChosenSize(t.seriesOrder[..k], rows);
      }
    }
    if !Confusable(rows, topN) || k <= |NoCheaper(rows)| {
      var t := SomeTrend(rows, w, topN, OTHERS, false);
      RepeatsOthers(t, rows, w, topN);
      if Confusable(rows, topN) {
        AvoidedIsLeft(t.seriesOrder[..k], rows);
      }
      assert Distinct(t.seriesOrder);
    }
  }

  lemma {:induction false} AvoidedIsLeft(top: seq<string>, rows: seq<Row>)
    requires Ranked(rows, Models(rows), OTHERS, false, top) && OTHERS in Models(rows) && |top| <= |NoCheaper(rows)|
    ensures OTHERS !in top
  {
    hide Total, Models;
    if OTHERS in top {
      DistinctSize(top);
      assert forall m | m in NoCheaper(rows) :: m in top;
      SubsetSize(NoCheaper(rows) + {OTHERS}, Elements(top));
    }
  }

  /** Two rows of one hour each: what their models cost. */
  lemma {:induction false} TwoModels(dear: Row, cheap: Row)
    requires dear.model != cheap.model
    ensures Models([dear, cheap]) == {dear.model, cheap.model} && |Models([dear, cheap])| == 2
    ensures Total([dear, cheap], dear.model) == dear.cost && Total([dear, cheap], cheap.model) == cheap.cost
  {
    var rows := [dear, cheap];
    assert dear in rows && cheap in rows;
    assert rows == ([] + [dear]) + [cheap];
    TwoCosts(dear, cheap, OfModel(dear.model));
    TwoCosts(dear, cheap, OfModel(cheap.model));
  }

  lemma {:induction false} TwoCosts(x: Row, y: Row, p: Row -> bool)
    ensures Cost([x, y], p) == (if p(x) then x.cost else 0) + if p(y) then y.cost else 0
  {
    CostMore([], x, p);
    CostMore([] + [x], y, p);
    assert [x, y] == ([] + [x]) + [y];
  }

  /** With one series asked for, the dearer of two models is chosen and the other one is the rest. */
  lemma {:induction false} DearerIsChosen(t: Trend, w: Window, dear: Row, cheap: Row)
    requires dear.model != cheap.model && dear.cost > cheap.cost && IsTrend(t, [dear, cheap], w, 1)
    ensures t.seriesOrder == [dear.model, OTHERS] && t.buckets == Regrouped([dear, cheap], w, {dear.model})
  {
    hide Regrouped, Cost, Total, Models, Distinct;
    TwoModels(dear, cheap);
    var top := t.seriesOrder[..1];
    assert top[0] in top && t.seriesOrder == top + t.seriesOrder[1..];
    assert top == [top[0]] && Elements(top) == {top[0]};
  }

  /** With one series asked for, a dear model called "others" and a cheap one make two series of that name. */
  lemma {:induction false} OthersTwice(t: Trend, w: Window, cheap: string)
    requires cheap != "others" && IsTrend(t, [Row(0, 0, "others", 2), Row(0, 0, cheap, 1)], w, 1)
    ensures t.seriesOrder == ["others", "others"]
  {
    assert OTHERS == "others";
    hide *;
    DearerIsChosen(t, w, Row(0, 0, OTHERS, 2), Row(0, 0, cheap, 1));
  }

  // ---------------------------------------------------------------------------------------------
  // What the chosen models show
  // ---------------------------------------------------------------------------------------------

  /** What a model costs in the window; the query returns whole days. */
  ghost function Shown(rows: seq<Row>, w: Window, m: string): int {
    Cost(rows, (x: Row) => x.model == m && Overlaps(x, w))
  }

  /** The chosen models, by falling cost in the window, leave out none that costs more there. */
  ghost predicate IsShownTop(top: seq<string>, rows: seq<Row>, w: Window) {
    && (forall i, j | 0 <= i < j < |top| :: Shown(rows, w, top[i]) >= Shown(rows, w, top[j]))
    && forall m, n | m in Models(rows) && m !in top && n in top :: Shown(rows, w, m) <= Shown(rows, w, n)
  }

  /** A model that can be chosen costs no less in the window than one it can come before. */
  ghost predicate TotalsAgree(rows: seq<Row>, w: Window, k: nat) {
    forall m, n | m in Models(rows) && n in Models(rows) && m != n && Total(rows, m) >= Total(rows, n)
      && |Dearer(rows, m)| < k :: Shown(rows, w, m) >= Shown(rows, w, n)
  }

  /** All models that cost more than a chosen one are chosen before it. */
  lemma {:induction false} FewDearer(top: seq<string>, rows: seq<Row>, i: nat)
    requires IsTop(top, rows) && i < |top|
    ensures top[i] in Models(rows) && |Dearer(rows, top[i])| < |top|
  {
    hide Total, Models;
    DistinctSize(top);
    assert top[i] in top;
    assert forall m | m in Dearer(rows, top[i]) :: m in top;
    SubsetSize(Dearer(rows, top[i]) + {top[i]}, Elements(top));
  }

  /**
   * Every trend's choice is also a top by what is shown exactly when, among the models that can be chosen, the
   * totals over whole days rank like the costs in the window.
   */
  lemma {:induction false} ChosenIsShownTop(rows: seq<Row>, w: Window, topN: int)
    ensures var k := Limit(topN, |Models(rows)|);
      (forall t | IsTrend(t, rows, w, topN) :: IsShownTop(t.seriesOrder[..k], rows, w)) <==> TotalsAgree(rows, w, k)
  {
    hide Models, Total, Regrouped, Dearer, Ranked, Shown, IsTop, IsShownTop;
    var k := Limit(topN, |Models(rows)|);
    if TotalsAgree(rows, w, k) {
      forall t | IsTrend(t, rows, w, topN)
        ensures IsShownTop(t.seriesOrder[..k], rows, w)
      {
        AgreeingIsShown(t.seriesOrder[..k], rows, w);
      }
    }
    if forall t | IsTrend(t, rows, w, topN) :: IsShownTop(t.seriesOrder[..k], rows, w) {
      forall m, n | m in Models(rows) && n in Models(rows) && m != n && Total(rows, m) >= Total(rows, n)
        && |Dearer(rows, m)| < k
        ensures Shown(rows, w, m) >= Shown(rows, w, n)
      {
        var t := SomeTrend(rows, w, topN, m, true);
        PreferredComesFirst(t.seriesOrder[..k], rows, w, m, n);
      }
    }
  }

  lemma {:induction false} AgreeingIsShown(top: seq<string>, rows: seq<Row>, w: Window)
    requires IsTop(top, rows) && TotalsAgree(rows, w, |top|)
    ensures IsShownTop(top, rows, w)
  {
    hide Models, Total, Dearer, Shown;
    forall i | 0 <= i < |top|
      ensures top[i] in Models(rows) && |Dearer(rows, top[i])| < |top|
    {
      FewDearer(top, rows, i);
    }
  }

  /** A preferred model that is chosen comes before all that do not cost more. */
  lemma {:induction false} PreferredComesFirst(top: seq<string>, rows: seq<Row>, w: Window, m: string, n: string)
    requires Ranked(rows, Models(rows), m, true, top) && IsShownTop(top, rows, w)
    requires m in Models(rows) && n in Models(rows) && m != n && Total(rows, m) >= Total(rows, n)
    requires |Dearer(rows, m)| < |top|
    ensures Shown(rows, w, m) >= Shown(rows, w, n)
  {
    hide Models, Total, Shown, Dearer;
    PreferredIsChosen(top, rows, m);
    var i :| 0 <= i < |top| && top[i] == m;
    if n in top {
      var j :| 0 <= j < |top| && top[j] == n;
      assert j < i ==> Above(rows, m, true, n, m);
    }
  }

  /**
   * A model that cost something early in the day takes the one series from the only model with a cost in the
   * window, the last hour: that one is shown as the rest.
   */
  lemma {:induction false} EarlyTakesPlace(t: Trend, early: string, late: string)
    requires early != late && early != OTHERS
    requires IsTrend(t, [Row(0, 0, early, 2), Row(0, 23, late, 1)], Window(82800, 86400, Hourly), 1)
    ensures t == Trend([Bucket(82800, HourLabel(0, 23), map[OTHERS := 1])], [early, OTHERS])
  {
    var a, b, w := Row(0, 0, early, 2), Row(0, 23, late, 1), Window(82800, 86400, Hourly);
    var rows := [a, b];
    DearerIsChosen(t, w, a, b);
    assert rows[..1] == [a] && [a][..0] == [];
    assert !Overlaps(a, w) && Overlaps(b, w);
    assert Regrouped([a], w, {early}) == [];
    assert Regrouped(rows, w, {early}) == WithRow([], b, w, {early});
    assert Plus(map[], OTHERS, 1) == map[OTHERS := 1];
  }
}
