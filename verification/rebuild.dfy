/**
 * Rebuilding the rollup tables from the logs (internal/dao/billing.go, internal/master/billing/
 * rebuild_runner.go): the one-transaction form, and the job that goes hour by hour, clearing a day's
 * daily rows with its first hour.
 *
 * Logs are in id order and do not change meanwhile; all have a creation time.
 */
module Rebuilds {
  import opened Options
  import opened Rollups
  import opened RowColumns

  // ---------------------------------------------------------------------------------------------
  // Time windows
  // ---------------------------------------------------------------------------------------------

  function Window(from: int, until: int): Log -> bool {
    (log: Log) => from <= log.createdAt < until
  }

  /** hourRangeUnix */
  function HourRange(date: int, hour: int): (r: Option<(int, int)>)
    ensures r.Some? ==> forall log: Log | r.value.0 <= log.createdAt < r.value.1 ::
      DateOf(log) == date && HourOf(log) == hour
    ensures r.Some? <==> 0 <= hour < 24
  {
    if hour < 0 || hour > 23 then None
    else
      var start := date * SECONDS_PER_DAY + hour * SECONDS_PER_HOUR;
      Some((start, start + SECONDS_PER_HOUR))
  }

  /** The n-th hour from midnight of the first day. */
  function SliceStart(first: int, n: nat): int {
    first * SECONDS_PER_DAY + n * SECONDS_PER_HOUR
  }

  lemma {:induction false} SliceIsHour(first: int, n: nat)
    ensures HourRange(first + n / 24, n % 24) == Some((SliceStart(first, n), SliceStart(first, n + 1)))
  {
  }

  lemma {:induction false} WindowsJoin(logs: seq<Log>, a: int, b: int, c: int)
    requires a <= b <= c
    ensures multiset(Filter(logs, Window(a, c))) == multiset(Filter(logs, Window(a, b)) + Filter(logs, Window(b, c)))
    decreases |logs|
  {
    if logs != [] {
      WindowsJoin(logs[..|logs| - 1], a, b, c);
    }
  }

  // ---------------------------------------------------------------------------------------------
  // The two forms of a rebuild, for one table
  // ---------------------------------------------------------------------------------------------

  function Drop(t: Table, p: Key -> bool): Table {
    map k | k in t && !p(k) :: t[k]
  }

  /** Each end of a range of days may be left open. */
  function Dated(from: Option<int>, to: Option<int>): Key -> bool {
    (k: Key) => (from.Some? ==> from.value <= k.date) && (to.Some? ==> k.date <= to.value)
  }

  /** applyUsageLogDateFilter */
  function Created(from: Option<int>, to: Option<int>): Log -> bool {
    (log: Log) =>
      && (from.Some? ==> from.value * SECONDS_PER_DAY <= log.createdAt)
      && (to.Some? ==> log.createdAt < to.value * SECONDS_PER_DAY + SECONDS_PER_DAY)
  }

  /** RebuildDailyRollups: the range's rows are deleted, its logs replayed in id order. */
  function RebuildRange(t: Table, id: TableId, logs: seq<Log>, from: Option<int>, to: Option<int>): Table {
    Fold(Drop(t, Dated(from, to)), id, Filter(logs, Created(from, to)))
  }

  /** What a slice deletes: its hourly rows always, its day's daily rows on request. */
  function ClearedBy(id: TableId, date: int, hour: int, resetDaily: bool): Key -> bool {
    (k: Key) =>
      if id.HourlyBucket? then k.HourlyKey? && k.date == date && k.hour == hour
      else resetDaily && k.date == date
  }

  /** RebuildHourSlice on a table it targets. */
  function RebuildSlice(t: Table, id: TableId, logs: seq<Log>, date: int, hour: int, resetDaily: bool): Table
    requires 0 <= hour < 24
  {
    var range := HourRange(date, hour).value;
    Fold(Drop(t, ClearedBy(id, date, hour, resetDaily)), id, Filter(logs, Window(range.0, range.1)))
  }

  /** A table after the first n slices of a job that starts at midnight of day `first`. */
  function Rebuilt(t: Table, id: TableId, logs: seq<Log>, first: int, n: nat): Table {
    if n == 0 then t
    else
      RebuildSlice(Rebuilt(t, id, logs, first, n - 1), id, logs, first + (n - 1) / 24, (n - 1) % 24, (n - 1) % 24 == 0)
  }

  // ---------------------------------------------------------------------------------------------
  // They agree
  // ---------------------------------------------------------------------------------------------

  /** Only keys that the table can have. */
  ghost predicate Typed(id: TableId, t: Table) {
    forall k | k in t ::
      match id
      case TokenDaily => k.TokenKey?
      case ChannelDaily => k.ChannelKey?
      case HourlyBucket => k.HourlyKey?
  }

  /** The slice of the job that clears a key. */
  function ClearingSlice(id: TableId, first: int, k: Key): int {
    (k.date - first) * 24 + if k.HourlyKey? then k.hour else 0
  }

  function ClearedAt(id: TableId, first: int, n: int): Key -> bool {
    (k: Key) => ClearingSlice(id, first, k) == n
  }

  function ClearedBefore(id: TableId, first: int, n: int): Key -> bool {
    (k: Key) => 0 <= ClearingSlice(id, first, k) < n
  }

  function Replayed(logs: seq<Log>, first: int, n: nat): seq<Log> {
    if n == 0 then []
    else Replayed(logs, first, n - 1) + Filter(logs, Window(SliceStart(first, n - 1), SliceStart(first, n)))
  }

  lemma {:induction false} DropUpsert(t: Table, p: Key -> bool, k: Key, r: Row)
    requires !p(k)
    ensures Drop(Upsert(t, k, r), p) == Upsert(Drop(t, p), k, r)
  {
  }

  lemma {:induction false} DropFold(t: Table, id: TableId, logs: seq<Log>, p: Key -> bool)
    requires forall log | log in logs :: !p(KeyOf(id, log))
    ensures Drop(Fold(t, id, logs), p) == Fold(Drop(t, p), id, logs)
    decreases |logs|
  {
    if logs != [] {
      var n := |logs| - 1;
      assert logs[n] in logs;
      DropFold(t, id, logs[..n], p);
      DropUpsert(Fold(t, id, logs[..n]), p, KeyOf(id, logs[n]), RowOf(id, logs[n]));
    }
  }

  lemma {:induction false} FilterSelects(logs: seq<Log>, p: Log -> bool)
    ensures forall log | log in Filter(logs, p) :: p(log)
    decreases |logs|
  {
    if logs != [] {
      FilterSelects(logs[..|logs| - 1], p);
    }
  }

  /** A replayed log counts under a key that was cleared no later than its own slice. */
  lemma {:induction false} ReplayedKeys(id: TableId, logs: seq<Log>, first: int, n: nat)
    ensures forall log | log in Replayed(logs, first, n) :: ClearingSlice(id, first, KeyOf(id, log)) < n
  {
    if n > 0 {
      ReplayedKeys(id, logs, first, n - 1);
      var w := Window(SliceStart(first, n - 1), SliceStart(first, n));
      FilterSelects(logs, w);
      forall log | log in Filter(logs, w)
        ensures ClearingSlice(id, first, KeyOf(id, log)) < n
      {
        assert w(log);
        SliceIsHour(first, n - 1);
      }
    }
  }

  lemma {:induction false} SliceStartGrows(first: int, n: nat)
    ensures SliceStart(first, 0) <= SliceStart(first, n) <= SliceStart(first, n + 1)
  {
  }

  lemma {:induction false} ReplayedMultiset(logs: seq<Log>, first: int, n: nat)
    ensures multiset(Replayed(logs, first, n))
      == multiset(Filter(logs, Window(SliceStart(first, 0), SliceStart(first, n))))
  {
    if n == 0 {
      FilterNothing(logs, SliceStart(first, 0));
    } else {
      hide Filter, SliceStart;
      ReplayedMultiset(logs, first, n - 1);
      SliceStartGrows(first, n - 1);
      WindowsJoin(logs, SliceStart(first, 0), SliceStart(first, n - 1), SliceStart(first, n));
      SameFront(Replayed(logs, first, n - 1), Filter(logs, Window(SliceStart(first, 0), SliceStart(first, n - 1))),
        Filter(logs, Window(SliceStart(first, n - 1), SliceStart(first, n))));
    }
  }

  lemma {:induction false} SameFront<T>(a: seq<T>, b: seq<T>, end: seq<T>)
    requires multiset(a) == multiset(b)
    ensures multiset(a + end) == multiset(b + end)
  {
  }

  lemma {:induction false} FilterNothing(logs: seq<Log>, a: int)
    ensures Filter(logs, Window(a, a)) == []
    decreases |logs|
  {
    if logs != [] {
      FilterNothing(logs[..|logs| - 1], a);
    }
  }

  lemma {:induction false} DropsJoin(t: Table, id: TableId, first: int, n: nat)
    ensures Drop(Drop(t, ClearedBefore(id, first, n)), ClearedAt(id, first, n))
      == Drop(t, ClearedBefore(id, first, n + 1))
  {
  }

  lemma {:induction false} FoldTyped(t: Table, id: TableId, logs: seq<Log>)
    requires Typed(id, t)
    ensures Typed(id, Fold(t, id, logs))
    decreases |logs|
  {
    if logs != [] {
      FoldTyped(t, id, logs[..|logs| - 1]);
    }
  }

  lemma {:induction false} SliceClears(t: Table, id: TableId, first: int, n: nat)
    requires Typed(id, t)
    ensures Drop(t, ClearedBy(id, first + n / 24, n % 24, n % 24 == 0)) == Drop(t, ClearedAt(id, first, n))
  {
    forall k | k in t
      ensures ClearedBy(id, first + n / 24, n % 24, n % 24 == 0)(k) <==> ClearedAt(id, first, n)(k)
    {
    }
  }

  lemma {:induction false} SliceExtends(t: Table, id: TableId, logs: seq<Log>, first: int, n: nat)
    requires Typed(id, t)
    ensures RebuildSlice(Fold(Drop(t, ClearedBefore(id, first, n)), id, Replayed(logs, first, n)), id, logs,
        first + n / 24, n % 24, n % 24 == 0)
      == Fold(Drop(t, ClearedBefore(id, first, n + 1)), id, Replayed(logs, first, n + 1))
  {
    hide Fold, Filter, ClearedBefore, ClearedAt, ClearedBy, Typed, KeyOf, RowOf, ClearingSlice;
    var cleared, done := Drop(t, ClearedBefore(id, first, n)), Replayed(logs, first, n);
    var next := Filter(logs, Window(SliceStart(first, n), SliceStart(first, n + 1)));
    DropTyped(t, id, ClearedBefore(id, first, n));
    FoldTyped(cleared, id, done);
    SliceClears(Fold(cleared, id, done), id, first, n);
    ReplayedKeysKept(id, logs, first, n);
    DropFold(cleared, id, done, ClearedAt(id, first, n));
    DropsJoin(t, id, first, n);
    SliceIsHour(first, n);
    FoldAppend(Drop(t, ClearedBefore(id, first, n + 1)), id, done, next);
    assert Replayed(logs, first, n + 1) == done + next;
  }

  lemma {:induction false} DropTyped(t: Table, id: TableId, p: Key -> bool)
    requires Typed(id, t)
    ensures Typed(id, Drop(t, p))
  {
  }

  lemma {:induction false} ReplayedKeysKept(id: TableId, logs: seq<Log>, first: int, n: nat)
    ensures forall log | log in Replayed(logs, first, n) :: !ClearedAt(id, first, n)(KeyOf(id, log))
  {
    ReplayedKeys(id, logs, first, n);
  }

  lemma {:induction false} RebuiltMore(t: Table, id: TableId, logs: seq<Log>, first: int, n: nat)
    ensures Rebuilt(t, id, logs, first, n + 1)
      == RebuildSlice(Rebuilt(t, id, logs, first, n), id, logs, first + n / 24, n % 24, n % 24 == 0)
  {
    hide RebuildSlice;
  }

  lemma {:induction false} NothingRebuilt(t: Table, id: TableId, logs: seq<Log>, first: int)
    ensures Drop(t, ClearedBefore(id, first, 0)) == t
    ensures Rebuilt(t, id, logs, first, 0) == Fold(t, id, Replayed(logs, first, 0))
  {
    forall k | k in t
      ensures !ClearedBefore(id, first, 0)(k)
    {
    }
  }

  /** After n slices the table is what clearing n slices at once and then replaying them in order gives. */
  lemma {:induction false} RebuiltIsFold(t: Table, id: TableId, logs: seq<Log>, first: int, n: nat)
    requires Typed(id, t)
    ensures Rebuilt(t, id, logs, first, n)
      == Fold(Drop(t, ClearedBefore(id, first, n)), id, Replayed(logs, first, n))
  {
    hide *;
    if n == 0 {
      NothingRebuilt(t, id, logs, first);
    } else {
      RebuiltMore(t, id, logs, first, n - 1);
      RebuiltIsFold(t, id, logs, first, n - 1);
      SliceExtends(t, id, logs, first, n - 1);
    }
  }

  lemma {:induction false} AllSlicesClearRange(t: Table, id: TableId, first: int, last: int)
    requires first <= last
    ensures Drop(t, ClearedBefore(id, first, 24 * (last - first + 1))) == Drop(t, Dated(Some(first), Some(last)))
  {
    forall k | k in t
      ensures ClearedBefore(id, first, 24 * (last - first + 1))(k) <==> Dated(Some(first), Some(last))(k)
    {
    }
  }

  /**
   * All slices of a range give every targeted table the counters and last_used_at of the one-transaction
   * rebuild, whatever was stored before.  (Names may differ: a daily row sees its logs hour by hour.)
   */
  lemma {:induction false} SlicesRebuildRange(t: Table, id: TableId, logs: seq<Log>, first: int, last: int)
    requires first <= last && Typed(id, t)
    ensures Strip(Rebuilt(t, id, logs, first, 24 * (last - first + 1)))
      == Strip(RebuildRange(t, id, logs, Some(first), Some(last)))
  {
    hide Fold, Filter, Drop, Strip, Rebuilt, Replayed, Typed, SliceStart;
    var n := 24 * (last - first + 1);
    RebuiltIsFold(t, id, logs, first, n);
    AllSlicesClearRange(t, id, first, last);
    ReplayedMultiset(logs, first, n);
    RangeIsSlices(logs, first, last);
    StripPermuted(Drop(t, Dated(Some(first), Some(last))), id, Replayed(logs, first, n),
      Filter(logs, Created(Some(first), Some(last))));
  }

  lemma {:induction false} RangeIsSlices(logs: seq<Log>, first: int, last: int)
    requires first <= last
    ensures Filter(logs, Window(SliceStart(first, 0), SliceStart(first, 24 * (last - first + 1))))
      == Filter(logs, Created(Some(first), Some(last)))
  {
    assert SliceStart(first, 24 * (last - first + 1)) == last * SECONDS_PER_DAY + SECONDS_PER_DAY;
    SameFilter(logs, Window(SliceStart(first, 0), SliceStart(first, 24 * (last - first + 1))),
      Created(Some(first), Some(last)));
  }

  lemma {:induction false} SameFilter(logs: seq<Log>, p: Log -> bool, q: Log -> bool)
    requires forall log | log in logs :: p(log) == q(log)
    ensures Filter(logs, p) == Filter(logs, q)
    decreases |logs|
  {
    if logs != [] {
      SameFilter(logs[..|logs| - 1], p, q);
    }
  }

  // ---------------------------------------------------------------------------------------------
  // What a rebuild repairs
  // ---------------------------------------------------------------------------------------------

  /** The range selects the logs that count under the days it clears. */
  lemma {:induction false} CreatedIsDated(id: TableId, log: Log, from: Option<int>, to: Option<int>)
    ensures Created(from, to)(log) <==> Dated(from, to)(KeyOf(id, log))
  {
    assert KeyOf(id, log).date == DateOf(log);
  }

  function Spared(id: TableId, p: Key -> bool): Log -> bool {
    (log: Log) => !p(KeyOf(id, log))
  }

  lemma {:induction false} FilterMore(logs: seq<Log>, log: Log, p: Log -> bool)
    ensures Filter(logs + [log], p) == Filter(logs, p) + if p(log) then [log] else []
  {
    assert (logs + [log])[..|logs|] == logs;
  }

  lemma {:induction false} ForgetsMore(id: TableId, logs: seq<Log>, log: Log, p: Key -> bool)
    requires Drop(Fold(map[], id, logs), p) == Fold(map[], id, Filter(logs, Spared(id, p)))
    ensures Drop(Fold(map[], id, logs + [log]), p) == Fold(map[], id, Filter(logs + [log], Spared(id, p)))
  {
    hide Fold, Filter, Drop, KeyOf, RowOf, Upsert;
    FoldMore(map[], id, logs, log);
    FilterMore(logs, log, Spared(id, p));
    if p(KeyOf(id, log)) {
      DropDropped(Fold(map[], id, logs), p, KeyOf(id, log), RowOf(id, log));
      assert Filter(logs, Spared(id, p)) + [] == Filter(logs, Spared(id, p));
    } else {
      DropUpsert(Fold(map[], id, logs), p, KeyOf(id, log), RowOf(id, log));
      FoldMore(map[], id, Filter(logs, Spared(id, p)), log);
    }
  }

  /** Dropping rows forgets the logs that count under them. */
  lemma {:induction false} DropForgets(id: TableId, logs: seq<Log>, p: Key -> bool)
    ensures Drop(Fold(map[], id, logs), p) == Fold(map[], id, Filter(logs, Spared(id, p)))
    decreases |logs|
  {
    if logs != [] {
      hide Drop, Fold, Filter, Spared;
      var n := |logs| - 1;
      DropForgets(id, logs[..n], p);
      ForgetsMore(id, logs[..n], logs[n], p);
      assert logs == logs[..n] + [logs[n]];
    }
  }

  lemma {:induction false} DropDropped(t: Table, p: Key -> bool, k: Key, r: Row)
    requires p(k)
    ensures Drop(Upsert(t, k, r), p) == Drop(t, p)
  {
    SameDrop(Upsert(t, k, r), t, p);
  }

  lemma {:induction false} SameDrop(s: Table, t: Table, p: Key -> bool)
    requires forall k | !p(k) :: (k in s <==> k in t) && (k in s ==> s[k] == t[k])
    ensures Drop(s, p) == Drop(t, p) && (s == map[] ==> Drop(s, p) == map[])
  {
  }

  lemma {:induction false} FiltersPart(logs: seq<Log>, p: Log -> bool, q: Log -> bool)
    requires forall log | log in logs :: p(log) != q(log)
    ensures multiset(Filter(logs, p) + Filter(logs, q)) == multiset(logs)
    decreases |logs|
  {
    if logs != [] {
      hide Filter;
      var n := |logs| - 1;
      FiltersPart(logs[..n], p, q);
      assert logs == logs[..n] + [logs[n]];
      FilterMore(logs[..n], logs[n], p);
      FilterMore(logs[..n], logs[n], q);
      PartsMore(Filter(logs[..n], p), Filter(logs[..n], q), logs[..n], logs[n]);
    }
  }

  lemma {:induction false} PartsMore<T>(a: seq<T>, b: seq<T>, whole: seq<T>, x: T)
    requires multiset(a + b) == multiset(whole)
    ensures multiset((a + [x]) + (b + [])) == multiset(whole + [x])
    ensures multiset((a + []) + (b + [x])) == multiset(whole + [x])
  {
    assert b + [] == b && a + [] == a;
    assert a + (b + [x]) == (a + b) + [x];
  }

  /** Folding touches only the rows of its logs. */
  lemma {:induction false} FoldElsewhere(t: Table, id: TableId, logs: seq<Log>, k: Key)
    requires forall log | log in logs :: KeyOf(id, log) != k
    ensures k in Fold(t, id, logs) <==> k in t
    ensures k in t ==> Fold(t, id, logs)[k] == t[k]
    decreases |logs|
  {
    if logs != [] {
      FoldElsewhere(t, id, logs[..|logs| - 1], k);
      assert logs[|logs| - 1] in logs;
    }
  }

  /** Rebuilding one range of what the logs give changes no counter. */
  lemma {:induction false} RebuildOfFold(id: TableId, logs: seq<Log>, from: Option<int>, to: Option<int>)
    ensures Strip(RebuildRange(Fold(map[], id, logs), id, logs, from, to)) == Strip(Fold(map[], id, logs))
  {
    hide Fold, Filter, Drop, Strip, KeyOf, Dated, Created;
    var p, q := Spared(id, Dated(from, to)), Created(from, to);
    DropForgets(id, logs, Dated(from, to));
    FoldAppend(map[], id, Filter(logs, p), Filter(logs, q));
    forall log | log in logs
      ensures p(log) != q(log)
    {
      CreatedIsDated(id, log, from, to);
    }
    FiltersPart(logs, p, q);
    StripPermuted(map[], id, Filter(logs, p) + Filter(logs, q), logs);
  }

  lemma {:induction false} RebuildElsewhere(t: Table, id: TableId, logs: seq<Log>, from: Option<int>, to: Option<int>)
    ensures Drop(RebuildRange(t, id, logs, from, to), Dated(from, to)) == Drop(t, Dated(from, to))
  {
    hide Fold, Filter, Created, KeyOf;
    var cleared, replayed := Drop(t, Dated(from, to)), Filter(logs, Created(from, to));
    FilterSelects(logs, Created(from, to));
    forall k | !Dated(from, to)(k)
      ensures k in RebuildRange(t, id, logs, from, to) <==> k in t
      ensures k in t ==> RebuildRange(t, id, logs, from, to)[k] == t[k]
    {
      forall log | log in replayed
        ensures KeyOf(id, log) != k
      {
        CreatedIsDated(id, log, from, to);
      }
      FoldElsewhere(cleared, id, replayed, k);
    }
    hide Drop;
    SameDrop(RebuildRange(t, id, logs, from, to), t, Dated(from, to));
  }

  lemma {:induction false} StripDrop(s: Table, t: Table, p: Key -> bool)
    requires Strip(s) == Strip(t)
    ensures Strip(Drop(s, p)) == Strip(Drop(t, p))
  {
    assert s.Keys == Strip(s).Keys == Strip(t).Keys == t.Keys;
    assert forall k | k in s :: CountersOf(s[k]) == Strip(s)[k] && CountersOf(t[k]) == Strip(t)[k];
  }

  /**
   * A rebuild of a range, open or not, leaves the counters the logs give in the whole table exactly when they
   * were right outside the range: whatever was wrong inside is repaired, and nothing else is touched.
   */
  lemma {:induction false} RebuildRepairs(t: Table, id: TableId, logs: seq<Log>, from: Option<int>, to: Option<int>)
    ensures var right := Fold(map[], id, logs);
      Strip(RebuildRange(t, id, logs, from, to)) == Strip(right)
      <==> Strip(Drop(t, Dated(from, to))) == Strip(Drop(right, Dated(from, to)))
  {
    hide Fold, Filter, Drop, Strip;
    var right, rebuilt := Fold(map[], id, logs), RebuildRange(t, id, logs, from, to);
    if Strip(Drop(t, Dated(from, to))) == Strip(Drop(right, Dated(from, to))) {
      StripFold(Drop(t, Dated(from, to)), Drop(right, Dated(from, to)), id, Filter(logs, Created(from, to)));
      RebuildOfFold(id, logs, from, to);
    }
    if Strip(rebuilt) == Strip(right) {
      RebuildElsewhere(t, id, logs, from, to);
      StripDrop(rebuilt, right, Dated(from, to));
    }
  }

  predicate Within(date: int, from: Option<int>, to: Option<int>) {
    (from.Some? ==> from.value <= date) && (to.Some? ==> date <= to.value)
  }

  /**
   * Row by row: inside the range the table is what upserting all logs into an empty one gives, outside it is as
   * it was; an open end has no limit, a closed one includes its day.
   */
  lemma {:induction false} RangeRebuilt(t: Table, id: TableId, logs: seq<Log>, from: Option<int>, to: Option<int>,
                                        k: Key)
    ensures var now, all := RebuildRange(t, id, logs, from, to), Fold(map[], id, logs);
      if Within(k.date, from, to) then (k in now <==> k in all) && (k in now ==> now[k] == all[k])
      else (k in now <==> k in t) && (k in now ==> now[k] == t[k])
  {
    hide Fold, Filter, KeyOf, Created;
    var cleared, replayed := Drop(t, Dated(from, to)), Filter(logs, Created(from, to));
    FilterSelects(logs, Created(from, to));
    if Within(k.date, from, to) {
      forall log | log in logs && KeyOf(id, log) == k
        ensures Created(from, to)(log)
      {
        CreatedIsDated(id, log, from, to);
      }
      FoldOfKey(cleared, id, logs, Created(from, to), k);
    } else {
      forall log | log in replayed
        ensures KeyOf(id, log) != k
      {
        CreatedIsDated(id, log, from, to);
      }
      FoldElsewhere(cleared, id, replayed, k);
    }
  }

  ghost predicate SameAt(s: Table, t: Table, k: Key) {
    (k in s <==> k in t) && (k in s ==> s[k] == t[k])
  }

  lemma {:induction false} UpsertSame(s: Table, t: Table, k: Key, at: Key, r: Row)
    requires SameAt(s, t, k)
    ensures SameAt(Upsert(s, at, r), Upsert(t, at, r), k)
    ensures at != k ==> SameAt(s, Upsert(t, at, r), k)
  {
  }

  /** Leaving out logs of other keys does not matter to a row. */
  lemma {:induction false} FoldOfKey(t: Table, id: TableId, logs: seq<Log>, p: Log -> bool, k: Key)
    requires k !in t && forall log | log in logs && KeyOf(id, log) == k :: p(log)
    ensures SameAt(Fold(t, id, Filter(logs, p)), Fold(map[], id, logs), k)
    decreases |logs|
  {
    if logs != [] {
      hide KeyOf, RowOf, Upsert, SameAt, Filter, Fold;
      var n := |logs| - 1;
      assert logs == logs[..n] + [logs[n]];
      FoldOfKey(t, id, logs[..n], p, k);
      FilterMore(logs[..n], logs[n], p);
      FoldMore(map[], id, logs[..n], logs[n]);
      UpsertSame(Fold(t, id, Filter(logs[..n], p)), Fold(map[], id, logs[..n]), k,
        KeyOf(id, logs[n]), RowOf(id, logs[n]));
      if p(logs[n]) {
        FoldMore(t, id, Filter(logs[..n], p), logs[n]);
      } else {
        assert Filter(logs[..n], p) + [] == Filter(logs[..n], p);
      }
    }
  }

  // ---------------------------------------------------------------------------------------------
  // What a slice rebuilds
  // ---------------------------------------------------------------------------------------------

  predicate InHour(log: Log, date: int, hour: int) {
    log.createdAt / 86400 == date && log.createdAt % 86400 / 3600 == hour
  }

  /** A slice empties its hourly rows, and on request, whatever its hour, the daily rows of its day. */
  predicate Emptied(id: TableId, k: Key, date: int, hour: int, resetDaily: bool) {
    if id.HourlyBucket? then k.HourlyKey? && k.date == date && k.hour == hour else resetDaily && k.date == date
  }

  /** Row by row, a slice adds the logs of its hour to what the table had, or to nothing where it empties a row. */
  lemma {:induction false} SliceMeaning(t: Table, id: TableId, logs: seq<Log>, date: int, hour: int, resetDaily: bool,
                                        k: Key)
    requires 0 <= hour < 24
    ensures var mine := (log: Log) => InHour(log, date, hour);
      Adds(id, if Emptied(id, k, date, hour, resetDaily) then None else At(t, k),
        At(RebuildSlice(t, id, logs, date, hour, resetDaily), k), Filter(Filter(logs, mine), Counted(id, k)))
  {
    hide Adds, Fold, Filter, Counted;
    var range := HourRange(date, hour).value;
    var mine := (log: Log) => InHour(log, date, hour);
    forall log
      ensures Window(range.0, range.1)(log) == mine(log)
    {
    }
    SameFilter(logs, Window(range.0, range.1), mine);
    ColumnsAdd(Drop(t, ClearedBy(id, date, hour, resetDaily)), id, Filter(logs, mine), k);
  }
}
