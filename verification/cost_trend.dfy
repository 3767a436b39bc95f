/**
 * The stacked cost trend (internal/dao/stats.go:1175-1277): of the hourly buckets a query returns, the models
 * with the greatest cost keep a series of their own, the rest is folded into "others", and the costs are
 * regrouped by time slot.  Days are day numbers since the epoch.
 */
module CostTrends {
  import opened Options
  import opened Sequences

  datatype Gran = Hourly | Daily

  datatype Window = Window(start: int, end: int, gran: Gran)

  /** A row of the query, one for each date, hour and model; hour is 0 when the grain is a day. */
  datatype Row = Row(day: int, hour: int, model: string, cost: int)

  /** Identifies a slot and stands for its printed label. */
  datatype Label = HourLabel(day: int, hour: int) | DayLabel(day: int)

  datatype Bucket = Bucket(ts: int, slotLabel: Label, series: map<string, int>)

  datatype Trend = Trend(buckets: seq<Bucket>, seriesOrder: seq<string>)

  datatype ModelTotal = ModelTotal(name: string, cost: int)

  const OTHERS := "others"
  const DAY_SECONDS := 86400
  const HOUR_SECONDS := 3600

  function BucketSeconds(g: Gran): int {
    if g.Daily? then DAY_SECONDS else HOUR_SECONDS
  }

  function Ts(x: Row, g: Gran): int {
    x.day * DAY_SECONDS + if g.Hourly? then x.hour * HOUR_SECONDS else 0
  }

  function LabelOf(x: Row, g: Gran): Label {
    if g.Hourly? then HourLabel(x.day, x.hour) else DayLabel(x.day)
  }

  predicate Overlaps(x: Row, w: Window) {
    Ts(x, w.gran) < w.end && w.start < Ts(x, w.gran) + BucketSeconds(w.gran)
  }

  /** Filtering by date, as the query does, drops no bucket that overlaps the window. */
  lemma {:induction false} DateFilterIsComplete(x: Row, w: Window)
    requires 0 <= x.hour < 24 && Overlaps(x, w)
    ensures w.start / DAY_SECONDS <= x.day <= w.end / DAY_SECONDS
  {
    assert x.day * DAY_SECONDS < w.end && w.start < (x.day + 1) * DAY_SECONDS;
  }

  // ---------------------------------------------------------------------------------------------
  // Specification
  // ---------------------------------------------------------------------------------------------

  function Models(rows: seq<Row>): set<string> {
    set x | x in rows :: x.model
  }

  /** The cost of the rows that meet a condition. */
  function Cost(rows: seq<Row>, p: Row -> bool): int {
    if rows == [] then 0
    else Cost(rows[..|rows| - 1], p) + if p(rows[|rows| - 1]) then rows[|rows| - 1].cost else 0
  }

  function OfModel(m: string): Row -> bool {
    (x: Row) => x.model == m
  }

  function Total(rows: seq<Row>, m: string): int {
    Cost(rows, OfModel(m))
  }

  function SeriesName(top: set<string>, x: Row): string {
    if x.model in top then x.model else OTHERS
  }

  predicate SameSlot(b: Bucket, x: Row, g: Gran) {
    b.ts == Ts(x, g) && b.slotLabel == LabelOf(x, g)
  }

  /** The position of the row's slot, or the number of slots. */
  function SlotAt(buckets: seq<Bucket>, x: Row, g: Gran): (i: nat)
    ensures i <= |buckets|
    ensures i < |buckets| ==> SameSlot(buckets[i], x, g)
    ensures forall j | 0 <= j < i :: !SameSlot(buckets[j], x, g)
  {
    if buckets == [] then 0
    else if SameSlot(buckets[0], x, g) then 0
    else 1 + SlotAt(buckets[1..], x, g)
  }

  function Plus(series: map<string, int>, name: string, cost: int): map<string, int> {
    series[name := (if name in series then series[name] else 0) + cost]
  }

  function WithRow(buckets: seq<Bucket>, x: Row, w: Window, top: set<string>): seq<Bucket> {
    if !Overlaps(x, w) then buckets
    else
      var i := SlotAt(buckets, x, w.gran);
      if i == |buckets| then
        buckets + [Bucket(Ts(x, w.gran), LabelOf(x, w.gran), Plus(map[], SeriesName(top, x), x.cost))]
      else buckets[i := buckets[i].(series := Plus(buckets[i].series, SeriesName(top, x), x.cost))]
  }

  function Regrouped(rows: seq<Row>, w: Window, top: set<string>): seq<Bucket> {
    if rows == [] then []
    else WithRow(Regrouped(rows[..|rows| - 1], w, top), rows[|rows| - 1], w, top)
  }

  /** A selection of models, by falling cost, that leaves out none with more than one it holds. */
  ghost predicate IsTop(top: seq<string>, rows: seq<Row>) {
    && Distinct(top)
    && (forall n | n in top :: n in Models(rows))
    && (forall i, j | 0 <= i < j < |top| :: Total(rows, top[i]) >= Total(rows, top[j]))
    && forall m, n | m in Models(rows) && m !in top && n in top :: Total(rows, m) <= Total(rows, n)
  }

  function Limit(topN: int, models: nat): nat {
    var n := if topN <= 0 then 5 else topN;
    if n < models then n else models
  }

  /** What the trend of an admin over a non-empty window is; which of equal models is chosen stays open. */
  ghost predicate IsTrend(t: Trend, rows: seq<Row>, w: Window, topN: int) {
    var k := Limit(topN, |Models(rows)|);
    && k <= |t.seriesOrder|
    && IsTop(t.seriesOrder[..k], rows)
    && t.seriesOrder[k..] == (if k < |Models(rows)| then [OTHERS] else [])
    && t.buckets == Regrouped(rows, w, Elements(t.seriesOrder[..k]))
  }

  // ---------------------------------------------------------------------------------------------
  // The code
  // ---------------------------------------------------------------------------------------------

  ghost predicate DistinctNames(mts: seq<ModelTotal>) {
    forall i, j | 0 <= i < j < |mts| :: mts[i].name != mts[j].name
  }

  /** The costs added up so far. */
  ghost predicate AreTotals(totals: map<string, int>, rows: seq<Row>) {
    totals.Keys == Models(rows) && forall m | m in totals :: totals[m] == Total(rows, m)
  }

  /** The first pass: the totals, and the models in the order the map is iterated in. */
  method ModelTotals(rows: seq<Row>) returns (mts: seq<ModelTotal>)
    ensures DistinctNames(mts) && |mts| == |Models(rows)|
    ensures forall e :: e in mts <==> e.name in Models(rows) && e.cost == Total(rows, e.name)
  {
    hide AreTotals, Plus;
    var totals: map<string, int> := map[];
    NoTotals();
    var i := 0;
    while i < |rows|
      invariant 0 <= i <= |rows| && AreTotals(totals, rows[..i])
    {
      TotalsMore(totals, rows[..i], rows[i]);
      assert rows[..i + 1] == rows[..i] + [rows[i]];
      totals := Plus(totals, rows[i].model, rows[i].cost);
      i := i + 1;
    }
    assert rows[..i] == rows;
    mts := Listed(totals);
    ListedTotals(totals, rows);
  }

  lemma {:induction false} NoTotals()
    ensures AreTotals(map[], [])
  {
  }

  lemma {:induction false} ListedTotals(totals: map<string, int>, rows: seq<Row>)
    requires AreTotals(totals, rows)
    ensures totals.Keys == Models(rows) && forall m | m in totals :: totals[m] == Total(rows, m)
  {
  }

  lemma {:induction false} TotalsMore(totals: map<string, int>, rows: seq<Row>, x: Row)
    requires AreTotals(totals, rows)
    ensures AreTotals(Plus(totals, x.model, x.cost), rows + [x])
  {
    hide Cost;
    var after := Plus(totals, x.model, x.cost);
    assert Models(rows + [x]) == Models(rows) + {x.model};
    forall m | m in after
      ensures after[m] == Total(rows + [x], m)
    {
      CostMore(rows, x, OfModel(m));
      if m !in totals {
        CostOfNone(rows, OfModel(m));
      }
    }
  }

  method Listed(totals: map<string, int>) returns (mts: seq<ModelTotal>)
    ensures DistinctNames(mts) && |mts| == |totals.Keys|
    ensures forall e :: e in mts <==> e.name in totals && e.cost == totals[e.name]
  {
    mts := [];
    var names := totals.Keys;
    while names != {}
      invariant names <= totals.Keys && DistinctNames(mts) && |mts| == |totals.Keys| - |names|
      invariant forall e :: e in mts <==> e.name in totals.Keys - names && e.cost == totals[e.name]
      decreases |names|
    {
      var n :| n in names;
      names := names - {n};
      mts := mts + [ModelTotal(n, totals[n])];
    }
  }

  /** The selection: again and again the first of the greatest is taken out. */
  method SelectTop(mts: seq<ModelTotal>, n: nat) returns (chosen: seq<ModelTotal>, rest: seq<ModelTotal>)
    requires DistinctNames(mts)
    ensures |chosen| == (if n < |mts| then n else |mts|) && |chosen| + |rest| == |mts|
    ensures DistinctNames(chosen + rest) && forall e :: e in mts <==> e in chosen || e in rest
    ensures forall i, j | 0 <= i < j < |chosen| :: chosen[i].cost >= chosen[j].cost
    ensures forall a: ModelTotal, b: ModelTotal | a in chosen && b in rest :: a.cost >= b.cost
  {
    chosen, rest := [], mts;
    while |chosen| < n && |rest| > 0
      invariant |chosen| <= n && |chosen| + |rest| == |mts|
      invariant DistinctNames(chosen + rest) && forall e :: e in mts <==> e in chosen || e in rest
      invariant forall i, j | 0 <= i < j < |chosen| :: chosen[i].cost >= chosen[j].cost
      invariant forall a: ModelTotal, b: ModelTotal | a in chosen && b in rest :: a.cost >= b.cost
      decreases |rest|
    {
      var idx := GreatestAt(rest);
      TakeOut(chosen, rest, idx);
      chosen, rest := chosen + [rest[idx]], rest[..idx] + rest[idx + 1..];
    }
  }

  method GreatestAt(mts: seq<ModelTotal>) returns (idx: nat)
    requires |mts| > 0
    ensures idx < |mts| && forall e | e in mts :: e.cost <= mts[idx].cost
  {
    idx := 0;
    var j := 1;
    while j < |mts|
      invariant 1 <= j <= |mts| && idx < j
      invariant forall i | 0 <= i < j :: mts[i].cost <= mts[idx].cost
    {
      if mts[j].cost > mts[idx].cost {
        idx := j;
      }
      j := j + 1;
    }
  }

  lemma {:induction false} TakeOut(chosen: seq<ModelTotal>, rest: seq<ModelTotal>, idx: nat)
    requires idx < |rest| && DistinctNames(chosen + rest)
    ensures var c, r := chosen + [rest[idx]], rest[..idx] + rest[idx + 1..];
      DistinctNames(c + r) && forall e :: (e in c || e in r) <==> (e in chosen || e in rest)
  {
    var c, r := chosen + [rest[idx]], rest[..idx] + rest[idx + 1..];
    MovedDistinct(chosen, rest[..idx], rest[idx], rest[idx + 1..], c + r, chosen + rest);
    assert rest == rest[..idx] + [rest[idx]] + rest[idx + 1..];
  }

  /** Moving one forward keeps the names distinct. */
  lemma {:induction false} MovedDistinct(front: seq<ModelTotal>, a: seq<ModelTotal>, e: ModelTotal, b: seq<ModelTotal>,
                                         after: seq<ModelTotal>, before: seq<ModelTotal>)
    requires before == front + (a + [e] + b) && after == (front + [e]) + (a + b) && DistinctNames(before)
    ensures DistinctNames(after)
  {
    forall i, j | 0 <= i < j < |after|
      ensures after[i].name != after[j].name
    {
      var i', j' := Moved(|front|, |a|, i), Moved(|front|, |a|, j);
      assert after[i] == before[i'] && after[j] == before[j'];
    }
  }

  /** Where the entry at `i` was before the one at `n + a` was moved to `n`. */
  function Moved(n: nat, a: nat, i: nat): nat {
    if i < n then i else if i == n then n + a else if i - n - 1 < a then i - 1 else i
  }

  /** The second pass: the slots, found by a map from slot to position. */
  method Regroup(rows: seq<Row>, w: Window, top: set<string>) returns (out: seq<Bucket>)
    ensures out == Regrouped(rows, w, top)
  {
    out := [];
    var slotIdx: map<(int, Label), nat> := map[];
    var i := 0;
    while i < |rows|
      invariant 0 <= i <= |rows| && out == Regrouped(rows[..i], w, top)
      invariant IndexesSlots(slotIdx, out)
    {
      var x := rows[i];
      assert rows[..i + 1][..i] == rows[..i];
      i := i + 1;
      var ts, slotLabel := Ts(x, w.gran), LabelOf(x, w.gran);
      if ts + BucketSeconds(w.gran) <= w.start || ts >= w.end {
        continue;
      }
      var key := (ts, slotLabel);
      SlotIsIndexed(slotIdx, out, x, w.gran);
      if key !in slotIdx {
        out := out + [Bucket(ts, slotLabel, map[])];
        slotIdx := slotIdx[key := |out| - 1];
      }
      var idx := slotIdx[key];
      out := out[idx := out[idx].(series := Plus(out[idx].series, SeriesName(top, x), x.cost))];
    }
    assert rows[..i] == rows;
  }

  ghost predicate IndexesSlots(slotIdx: map<(int, Label), nat>, out: seq<Bucket>) {
    && (forall key | key in slotIdx ::
          slotIdx[key] < |out| && key == (out[slotIdx[key]].ts, out[slotIdx[key]].slotLabel))
    && forall i | 0 <= i < |out| ::
         (out[i].ts, out[i].slotLabel) in slotIdx && slotIdx[(out[i].ts, out[i].slotLabel)] == i
  }

  lemma {:induction false} SlotIsIndexed(slotIdx: map<(int, Label), nat>, out: seq<Bucket>, x: Row, g: Gran)
    requires IndexesSlots(slotIdx, out)
    ensures var key := (Ts(x, g), LabelOf(x, g));
      SlotAt(out, x, g) == if key in slotIdx then slotIdx[key] else |out|
  {
    var i := SlotAt(out, x, g);
    if i < |out| {
      assert (out[i].ts, out[i].slotLabel) in slotIdx;
    }
  }

  /** The guards come before the query; when that fails its error is passed on. */
  method CostTrendStackedByModel(w: Window, isAdmin: bool, topN: int, query: Option<seq<Row>>)
    returns (t: Option<Trend>)
    ensures !isAdmin || w.end <= w.start ==> t == Some(Trend([], []))
    ensures isAdmin && w.start < w.end ==> (t.None? <==> query.None?)
    ensures isAdmin && w.start < w.end && query.Some? ==> IsTrend(t.value, query.value, w, topN)
  {
    if !isAdmin {
      return Some(Trend([], []));
    }
    var n := if topN <= 0 then 5 else topN;
    if w.end <= w.start {
      return Some(Trend([], []));
    }
    if query.None? {
      return None;
    }
    var rows := query.value;
    var mts := ModelTotals(rows);
    var chosen, rest := SelectTop(mts, n);
    var seriesOrder := seq(|chosen|, i requires 0 <= i < |chosen| => chosen[i].name);
    var out := Regroup(rows, w, Elements(seriesOrder));
    ChosenIsTop(chosen, rest, mts, rows, seriesOrder);
    ghost var top := seriesOrder;
    if |rest| > 0 {
      seriesOrder := seriesOrder + [OTHERS];
    }
    t := Some(Trend(out, seriesOrder));
    assert seriesOrder[..|top|] == top && seriesOrder[|top|..] == if |rest| > 0 then [OTHERS] else [];
  }

  lemma {:induction false} ChosenIsTop(chosen: seq<ModelTotal>, rest: seq<ModelTotal>, mts: seq<ModelTotal>,
                                       rows: seq<Row>, names: seq<string>)
    requires DistinctNames(chosen + rest) && forall e :: e in mts <==> e in chosen || e in rest
    requires forall e :: e in mts <==> e.name in Models(rows) && e.cost == Total(rows, e.name)
    requires forall i, j | 0 <= i < j < |chosen| :: chosen[i].cost >= chosen[j].cost
    requires forall a: ModelTotal, b: ModelTotal | a in chosen && b in rest :: a.cost >= b.cost
    requires |names| == |chosen| && forall i | 0 <= i < |names| :: names[i] == chosen[i].name
    ensures IsTop(names, rows)
  {
    forall i | 0 <= i < |chosen|
      ensures chosen[i] in mts && names[i] in Models(rows) && Total(rows, names[i]) == chosen[i].cost
    {
      assert chosen[i] in chosen;
    }
    forall i, j | 0 <= i < j < |names|
      ensures names[i] != names[j] && Total(rows, names[i]) >= Total(rows, names[j])
    {
      assert (chosen + rest)[i] == chosen[i] && (chosen + rest)[j] == chosen[j];
    }
    forall m, n | m in Models(rows) && m !in names && n in names
      ensures Total(rows, m) <= Total(rows, n)
    {
      var e := ModelTotal(m, Total(rows, m));
      var i :| 0 <= i < |names| && names[i] == n;
      assert e in mts && e !in chosen;
      assert chosen[i] in chosen && e in rest;
    }
  }

  // ---------------------------------------------------------------------------------------------
  // What the trend shows
  // ---------------------------------------------------------------------------------------------

  ghost function SumOf(series: map<string, int>): int
    decreases |series|
  {
    if series == map[] then 0
    else
      var n :| n in series;
      assert (series - {n}).Keys == series.Keys - {n};
      series[n] + SumOf(series - {n})
  }

  lemma {:induction false} SumWithout(series: map<string, int>, n: string)
    requires n in series
    ensures SumOf(series) == series[n] + SumOf(series - {n})
    decreases |series|
  {
    var m :| m in series && SumOf(series) == series[m] + SumOf(series - {m});
    if m != n {
      assert (series - {m}).Keys == series.Keys - {m};
      assert (series - {n}).Keys == series.Keys - {n};
      SumWithout(series - {m}, n);
      SumWithout(series - {n}, m);
      assert series - {m} - {n} == series - {n} - {m};
    }
  }

  lemma {:induction false} SumPlus(series: map<string, int>, name: string, cost: int)
    ensures SumOf(Plus(series, name, cost)) == SumOf(series) + cost
  {
    var after := Plus(series, name, cost);
    SumWithout(after, name);
    if name in series {
      SumWithout(series, name);
      assert after - {name} == series - {name};
    } else {
      assert after - {name} == series;
    }
  }

  /** The rows that overlap the window in one slot. */
  function InSlot(ts: int, slotLabel: Label, w: Window): Row -> bool {
    (x: Row) => ts == Ts(x, w.gran) && slotLabel == LabelOf(x, w.gran) && Overlaps(x, w)
  }

  /** Those of them that go into one series. */
  function InSeries(ts: int, slotLabel: Label, w: Window, top: set<string>, name: string): Row -> bool {
    (x: Row) => InSlot(ts, slotLabel, w)(x) && SeriesName(top, x) == name
  }

  /** A bucket says, name by name, what the rows of its slot cost. */
  ghost predicate Accounts(b: Bucket, rows: seq<Row>, w: Window, top: set<string>) {
    && SumOf(b.series) == Cost(rows, InSlot(b.ts, b.slotLabel, w))
    && forall n :: (if n in b.series then b.series[n] else 0) == Cost(rows, InSeries(b.ts, b.slotLabel, w, top, n))
  }

  ghost predicate DistinctSlots(buckets: seq<Bucket>) {
    forall i, j | 0 <= i < j < |buckets| ::
      buckets[i].ts != buckets[j].ts || buckets[i].slotLabel != buckets[j].slotLabel
  }

  ghost predicate ShowsAll(buckets: seq<Bucket>, rows: seq<Row>, w: Window) {
    forall x | x in rows && Overlaps(x, w) :: exists b :: b in buckets && SameSlot(b, x, w.gran)
  }

  ghost predicate ShowsOnly(buckets: seq<Bucket>, rows: seq<Row>, w: Window) {
    forall b | b in buckets :: exists x :: x in rows && Overlaps(x, w) && SameSlot(b, x, w.gran)
  }

  /** There is one bucket for each slot with a row, and no other. */
  ghost predicate Covers(buckets: seq<Bucket>, rows: seq<Row>, w: Window) {
    DistinctSlots(buckets) && ShowsAll(buckets, rows, w) && ShowsOnly(buckets, rows, w)
  }

  lemma {:induction false} CostMore(rows: seq<Row>, x: Row, p: Row -> bool)
    ensures Cost(rows + [x], p) == Cost(rows, p) + if p(x) then x.cost else 0
  {
    assert (rows + [x])[..|rows|] == rows;
  }

  lemma {:induction false} CostOfNone(rows: seq<Row>, p: Row -> bool)
    requires forall x | x in rows :: !p(x)
    ensures Cost(rows, p) == 0
  {
    if rows != [] {
      CostOfNone(rows[..|rows| - 1], p);
    }
  }

  lemma {:induction false} AccountsMore(b: Bucket, rows: seq<Row>, x: Row, w: Window, top: set<string>)
    requires Accounts(b, rows, w, top)
    ensures var grown := b.(series := Plus(b.series, SeriesName(top, x), x.cost));
      Accounts(if InSlot(b.ts, b.slotLabel, w)(x) then grown else b, rows + [x], w, top)
  {
    hide SumOf, Cost, Overlaps, SeriesName;
    var name := SeriesName(top, x);
    CostMore(rows, x, InSlot(b.ts, b.slotLabel, w));
    SumPlus(b.series, name, x.cost);
    var after := if InSlot(b.ts, b.slotLabel, w)(x) then b.(series := Plus(b.series, name, x.cost)) else b;
    forall n
      ensures (if n in after.series then after.series[n] else 0)
        == Cost(rows + [x], InSeries(b.ts, b.slotLabel, w, top, n))
    {
      CostMore(rows, x, InSeries(b.ts, b.slotLabel, w, top, n));
    }
  }

  lemma {:induction false} AccountsNothing(ts: int, slotLabel: Label, rows: seq<Row>, w: Window, top: set<string>)
    requires forall x | x in rows :: !InSlot(ts, slotLabel, w)(x)
    ensures Accounts(Bucket(ts, slotLabel, map[]), rows, w, top)
  {
    CostOfNone(rows, InSlot(ts, slotLabel, w));
    forall n
      ensures Cost(rows, InSeries(ts, slotLabel, w, top, n)) == 0
    {
      CostOfNone(rows, InSeries(ts, slotLabel, w, top, n));
    }
  }

  lemma {:induction false} WithRowAccounts(buckets: seq<Bucket>, rows: seq<Row>, x: Row, w: Window, top: set<string>)
    requires Covers(buckets, rows, w) && forall b | b in buckets :: Accounts(b, rows, w, top)
    ensures forall b | b in WithRow(buckets, x, w, top) :: Accounts(b, rows + [x], w, top)
  {
    hide Accounts, Overlaps;
    var i, after := SlotAt(buckets, x, w.gran), WithRow(buckets, x, w, top);
    forall j | 0 <= j < |after|
      ensures Accounts(after[j], rows + [x], w, top)
    {
      if j < |buckets| {
        assert buckets[j] in buckets;
        AccountsMore(buckets[j], rows, x, w, top);
      } else {
        var added := Bucket(Ts(x, w.gran), LabelOf(x, w.gran), map[]);
        AccountsNothing(added.ts, added.slotLabel, rows, w, top);
        AccountsMore(added, rows, x, w, top);
      }
    }
  }

  /** A row keeps the slots there are and may add its own at the end. */
  lemma {:induction false} WithRowSlots(buckets: seq<Bucket>, x: Row, w: Window, top: set<string>)
    ensures var after := WithRow(buckets, x, w, top);
      && |buckets| <= |after| <= |buckets| + 1
      && (forall j | 0 <= j < |buckets| :: after[j].ts == buckets[j].ts && after[j].slotLabel == buckets[j].slotLabel)
      && (Overlaps(x, w) ==>
        SlotAt(buckets, x, w.gran) < |after| && SameSlot(after[SlotAt(buckets, x, w.gran)], x, w.gran))
      && (|after| > |buckets| ==> Overlaps(x, w) && SlotAt(buckets, x, w.gran) == |buckets|)
  {
    hide Overlaps, SeriesName, Plus;
  }

  lemma {:induction false} StillDistinct(buckets: seq<Bucket>, x: Row, w: Window, top: set<string>)
    requires DistinctSlots(buckets)
    ensures DistinctSlots(WithRow(buckets, x, w, top))
  {
    hide Overlaps, WithRow;
    WithRowSlots(buckets, x, w, top);
    var after := WithRow(buckets, x, w, top);
    assert |after| > |buckets| ==> forall j | 0 <= j < |buckets| :: !SameSlot(buckets[j], x, w.gran);
  }

  lemma {:induction false} StillShowsAll(buckets: seq<Bucket>, rows: seq<Row>, x: Row, w: Window, top: set<string>)
    requires ShowsAll(buckets, rows, w)
    ensures ShowsAll(WithRow(buckets, x, w, top), rows + [x], w)
  {
    hide Overlaps, WithRow;
    WithRowSlots(buckets, x, w, top);
    var after := WithRow(buckets, x, w, top);
    forall y | y in rows + [x] && Overlaps(y, w)
      ensures exists b :: b in after && SameSlot(b, y, w.gran)
    {
      if y in rows {
        var j :| 0 <= j < |buckets| && SameSlot(buckets[j], y, w.gran);
        assert after[j] in after && SameSlot(after[j], y, w.gran);
      } else {
        assert after[SlotAt(buckets, x, w.gran)] in after;
      }
    }
  }

  lemma {:induction false} StillShowsOnly(buckets: seq<Bucket>, rows: seq<Row>, x: Row, w: Window, top: set<string>)
    requires ShowsOnly(buckets, rows, w)
    ensures ShowsOnly(WithRow(buckets, x, w, top), rows + [x], w)
  {
    hide Overlaps, WithRow;
    WithRowSlots(buckets, x, w, top);
    var after := WithRow(buckets, x, w, top);
    forall b | b in after
      ensures exists y :: y in rows + [x] && Overlaps(y, w) && SameSlot(b, y, w.gran)
    {
      var j :| 0 <= j < |after| && after[j] == b;
      if j < |buckets| {
        assert buckets[j] in buckets;
        var y :| y in rows && Overlaps(y, w) && SameSlot(buckets[j], y, w.gran);
        assert y in rows + [x] && SameSlot(b, y, w.gran);
      } else {
        assert x in rows + [x] && SameSlot(b, x, w.gran);
      }
    }
  }

  lemma {:induction false} WithRowCovers(buckets: seq<Bucket>, rows: seq<Row>, x: Row, w: Window, top: set<string>)
    requires Covers(buckets, rows, w)
    ensures Covers(WithRow(buckets, x, w, top), rows + [x], w)
  {
    hide DistinctSlots, ShowsAll, ShowsOnly, WithRow;
    StillDistinct(buckets, x, w, top);
    StillShowsAll(buckets, rows, x, w, top);
    StillShowsOnly(buckets, rows, x, w, top);
  }

  /** Each slot of the trend sums to exactly what the rows overlapping the window in it cost, series by series. */
  lemma {:induction false} SlotsConserveCost(rows: seq<Row>, w: Window, top: set<string>)
    ensures Covers(Regrouped(rows, w, top), rows, w)
    ensures forall b | b in Regrouped(rows, w, top) :: Accounts(b, rows, w, top)
    decreases |rows|
  {
    hide Covers, Accounts, WithRow;
    if rows == [] {
      CoversNothing(w);
    } else {
      var n := |rows| - 1;
      SlotsConserveCost(rows[..n], w, top);
      WithRowCovers(Regrouped(rows[..n], w, top), rows[..n], rows[n], w, top);
      WithRowAccounts(Regrouped(rows[..n], w, top), rows[..n], rows[n], w, top);
      assert rows == rows[..n] + [rows[n]];
    }
  }

  lemma {:induction false} CoversNothing(w: Window)
    ensures Covers([], [], w)
  {
  }

  /** An instant of the window that the row's day, or hour, covers. */
  predicate CoversAt(x: Row, w: Window, t: int) {
    w.start <= t < w.end && t / 86400 == x.day && (w.gran.Hourly? ==> t % 86400 / 3600 == x.hour)
  }

  /** A row is shown if and only if its day, or hour, has an instant in common with the window. */
  lemma {:induction false} OverlapsIff(x: Row, w: Window)
    requires w.start < w.end && 0 <= x.hour < 24
    ensures Overlaps(x, w) <==> exists t :: CoversAt(x, w, t)
  {
    var from := x.day * 86400 + if w.gran.Hourly? then x.hour * 3600 else 0;
    if Overlaps(x, w) {
      var t := if w.start < from then from else w.start;
      assert CoversAt(x, w, t);
    }
    if t :| CoversAt(x, w, t) {
      assert t == t / 86400 * 86400 + t % 86400;
    }
  }

  /** The bucket is for the row's day or hour, and starts with it. */
  predicate IsSlotOf(b: Bucket, x: Row, g: Gran) {
    match g
    case Hourly => b.ts == x.day * 86400 + x.hour * 3600 && b.slotLabel == HourLabel(x.day, x.hour)
    case Daily => b.ts == x.day * 86400 && b.slotLabel == DayLabel(x.day)
  }

  /**
   * There is a bucket for exactly the days, or hours, that a row is about and that have an instant in the
   * window, also where the window cuts them; no two are for the same.
   */
  lemma {:induction false} SlotsShown(rows: seq<Row>, w: Window, top: set<string>)
    requires w.start < w.end && forall x | x in rows :: 0 <= x.hour < 24
    ensures var buckets := Regrouped(rows, w, top);
      && (forall x, t | x in rows && CoversAt(x, w, t) :: exists b :: b in buckets && IsSlotOf(b, x, w.gran))
      && (forall b | b in buckets :: exists x, t :: x in rows && CoversAt(x, w, t) && IsSlotOf(b, x, w.gran))
      && forall i, j | 0 <= i < j < |buckets| :: buckets[i].ts != buckets[j].ts
  {
    SlotsConserveCost(rows, w, top);
    hide Regrouped, Overlaps, Accounts, CoversAt;
    var buckets := Regrouped(rows, w, top);
    forall x | x in rows
      ensures Overlaps(x, w) <==> exists t :: CoversAt(x, w, t)
    {
      OverlapsIff(x, w);
    }
    forall b, x
      ensures SameSlot(b, x, w.gran) <==> IsSlotOf(b, x, w.gran)
    {
    }
    forall i, j | 0 <= i < j < |buckets|
      ensures buckets[i].ts != buckets[j].ts
    {
      assert buckets[i] in buckets && buckets[j] in buckets;
      var x :| x in rows && SameSlot(buckets[i], x, w.gran);
      var y :| y in rows && SameSlot(buckets[j], y, w.gran);
      TsTellsSlots(x, y, w.gran);
    }
  }

  lemma {:induction false} TsTellsSlots(x: Row, y: Row, g: Gran)
    requires 0 <= x.hour < 24 && 0 <= y.hour < 24
    ensures Ts(x, g) == Ts(y, g) ==> LabelOf(x, g) == LabelOf(y, g)
  {
  }

  /** Some row falls in bucket i before any falls in bucket j. */
  ghost predicate SeenBefore(rows: seq<Row>, w: Window, a: Bucket, b: Bucket) {
    exists n :: 0 <= n < |rows| && Overlaps(rows[n], w) && SameSlot(a, rows[n], w.gran)
      && forall m | 0 <= m <= n :: !(Overlaps(rows[m], w) && SameSlot(b, rows[m], w.gran))
  }

  ghost predicate InRowOrder(buckets: seq<Bucket>, rows: seq<Row>, w: Window) {
    forall i, j | 0 <= i < j < |buckets| :: SeenBefore(rows, w, buckets[i], buckets[j])
  }

  lemma {:induction false} SeenBeforeMore(rows: seq<Row>, w: Window, a: Bucket, b: Bucket, a': Bucket, b': Bucket,
                                          x: Row)
    requires SeenBefore(rows, w, a, b) && a.ts == a'.ts && a.slotLabel == a'.slotLabel
    requires b.ts == b'.ts && b.slotLabel == b'.slotLabel
    ensures SeenBefore(rows + [x], w, a', b')
  {
    hide Overlaps;
    var n :| 0 <= n < |rows| && Overlaps(rows[n], w) && SameSlot(a, rows[n], w.gran)
      && forall m | 0 <= m <= n :: !(Overlaps(rows[m], w) && SameSlot(b, rows[m], w.gran));
    assert forall m | 0 <= m <= n :: (rows + [x])[m] == rows[m];
  }

  /** A row in the bucket's slot. */
  lemma {:induction false} RowOfSlot(rows: seq<Row>, w: Window, buckets: seq<Bucket>, i: nat) returns (n: nat)
    requires ShowsOnly(buckets, rows, w) && i < |buckets|
    ensures n < |rows| && Overlaps(rows[n], w) && SameSlot(buckets[i], rows[n], w.gran)
  {
    hide Overlaps, SameSlot;
    assert buckets[i] in buckets;
    var y :| y in rows && Overlaps(y, w) && SameSlot(buckets[i], y, w.gran);
    n :| 0 <= n < |rows| && rows[n] == y;
  }

  /** No row falls in a slot that no bucket is for. */
  lemma {:induction false} NoRowOfSlot(rows: seq<Row>, w: Window, buckets: seq<Bucket>, x: Row, b: Bucket, m: nat)
    requires ShowsAll(buckets, rows, w) && m < |rows| && Overlaps(rows[m], w)
    requires SlotAt(buckets, x, w.gran) == |buckets| && SameSlot(b, x, w.gran)
    ensures !SameSlot(b, rows[m], w.gran)
  {
    hide Overlaps;
    var c :| c in buckets && SameSlot(c, rows[m], w.gran);
    assert !SameSlot(c, x, w.gran);
  }

  /** A slot of its own comes behind all there are. */
  lemma {:induction false} SeenBeforeLast(rows: seq<Row>, w: Window, buckets: seq<Bucket>, x: Row, i: nat, a: Bucket,
                                          b: Bucket)
    requires Covers(buckets, rows, w) && i < |buckets| && SlotAt(buckets, x, w.gran) == |buckets|
    requires a.ts == buckets[i].ts && a.slotLabel == buckets[i].slotLabel && SameSlot(b, x, w.gran)
    ensures SeenBefore(rows + [x], w, a, b)
  {
    hide Overlaps, ShowsAll, ShowsOnly, DistinctSlots, SlotAt;
    var n := RowOfSlot(rows, w, buckets, i);
    forall m | 0 <= m <= n && Overlaps(rows[m], w)
      ensures !SameSlot(b, rows[m], w.gran)
    {
      NoRowOfSlot(rows, w, buckets, x, b, m);
    }
    hide Covers;
    assert forall m | 0 <= m <= n :: (rows + [x])[m] == rows[m];
  }

  /** The slots come in the order in which the rows first fall in them. */
  lemma {:induction false} SlotsInRowOrder(rows: seq<Row>, w: Window, top: set<string>)
    ensures InRowOrder(Regrouped(rows, w, top), rows, w)
    decreases |rows|
  {
    hide SeenBefore, WithRow, Covers, Overlaps;
    if rows != [] {
      var n := |rows| - 1;
      var before, x := Regrouped(rows[..n], w, top), rows[n];
      SlotsInRowOrder(rows[..n], w, top);
      SlotsConserveCost(rows[..n], w, top);
      WithRowSlots(before, x, w, top);
      assert rows == rows[..n] + [x];
      var after := WithRow(before, x, w, top);
      forall i, j | 0 <= i < j < |after|
        ensures SeenBefore(rows, w, after[i], after[j])
      {
        if j < |before| {
          SeenBeforeMore(rows[..n], w, before[i], before[j], after[i], after[j], x);
        } else {
          SeenBeforeLast(rows[..n], w, before, x, i, after[i], after[j]);
        }
      }
    }
  }

  // ---------------------------------------------------------------------------------------------
  // Over all slots
  // ---------------------------------------------------------------------------------------------

  ghost function SumAll(buckets: seq<Bucket>): int {
    if buckets == [] then 0 else SumOf(buckets[0].series) + SumAll(buckets[1..])
  }

  lemma {:induction false} SumAllUpdate(buckets: seq<Bucket>, i: nat, b: Bucket)
    requires i < |buckets|
    ensures SumAll(buckets[i := b]) == SumAll(buckets) - SumOf(buckets[i].series) + SumOf(b.series)
  {
    var after := buckets[i := b];
    if i == 0 {
      assert after[1..] == buckets[1..];
    } else {
      SumAllUpdate(buckets[1..], i - 1, b);
      assert after[1..] == buckets[1..][i - 1 := b];
    }
  }

  lemma {:induction false} SumAllAppend(buckets: seq<Bucket>, b: Bucket)
    ensures SumAll(buckets + [b]) == SumAll(buckets) + SumOf(b.series)
  {
    if buckets == [] {
      assert (buckets + [b])[1..] == [];
    } else {
      assert (buckets + [b])[1..] == buckets[1..] + [b];
      SumAllAppend(buckets[1..], b);
    }
  }

  function InWindow(w: Window): Row -> bool {
    (x: Row) => Overlaps(x, w)
  }

  /** All series together are what the rows overlapping the window cost: folding loses and doubles nothing. */
  lemma {:induction false} TrendConservesCost(rows: seq<Row>, w: Window, top: set<string>)
    ensures SumAll(Regrouped(rows, w, top)) == Cost(rows, InWindow(w))
    decreases |rows|
  {
    hide SumOf, Overlaps, SeriesName;
    if rows != [] {
      var n := |rows| - 1;
      var before, x := Regrouped(rows[..n], w, top), rows[n];
      TrendConservesCost(rows[..n], w, top);
      var i, name := SlotAt(before, x, w.gran), SeriesName(top, x);
      if Overlaps(x, w) {
        if i == |before| {
          SumPlus(map[], name, x.cost);
          SumAllAppend(before, Bucket(Ts(x, w.gran), LabelOf(x, w.gran), Plus(map[], name, x.cost)));
          SumEmpty();
        } else {
          SumPlus(before[i].series, name, x.cost);
          SumAllUpdate(before, i, before[i].(series := Plus(before[i].series, name, x.cost)));
        }
      }
    }
  }

  lemma {:induction false} SumEmpty()
    ensures SumOf(map[]) == 0
  {
  }

  // ---------------------------------------------------------------------------------------------
  // The order of the series
  // ---------------------------------------------------------------------------------------------

  /** Every series that is shown is in the order. */
  lemma {:induction false} SeriesAreListed(t: Trend, rows: seq<Row>, w: Window, topN: int)
    requires IsTrend(t, rows, w, topN)
    ensures forall b, n | b in t.buckets && n in b.series :: n in t.seriesOrder
  {
    hide IsTop, Overlaps, Regrouped;
    var k := Limit(topN, |Models(rows)|);
    var top := Elements(t.seriesOrder[..k]);
    SeriesAreNamed(rows, w, top);
    forall b, n | b in t.buckets && n in b.series
      ensures n in t.seriesOrder
    {
      var x :| x in rows && SeriesName(top, x) == n;
      if x.model !in top {
        MoreModels(t.seriesOrder[..k], rows, x);
        assert t.seriesOrder[k] == OTHERS;
      }
    }
  }

  lemma {:induction false} SeriesAreNamed(rows: seq<Row>, w: Window, top: set<string>)
    ensures forall b, n | b in Regrouped(rows, w, top) && n in b.series ::
      exists x :: x in rows && SeriesName(top, x) == n
    decreases |rows|
  {
    hide Overlaps, SeriesName;
    if rows != [] {
      SeriesAreNamed(rows[..|rows| - 1], w, top);
      assert rows[|rows| - 1] in rows;
    }
  }

  /** A selection that leaves a model out is shorter than the set of models. */
  lemma {:induction false} MoreModels(top: seq<string>, rows: seq<Row>, x: Row)
    requires IsTop(top, rows) && x in rows && x.model !in top
    ensures |top| < |Models(rows)|
  {
    DistinctSize(top);
    assert Elements(top) <= Models(rows) - {x.model};
    SubsetSize(Elements(top), Models(rows) - {x.model});
  }
}
