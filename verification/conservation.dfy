/**
 * What the rollup tables say about the logs behind them: the meaning of one row, and the sums that agree
 * between the three tables.  All statements are about `Strip`, which flushes keep in any interleaving.
 */
module Conservation {
  import opened Rollups
  import opened Pipelines

  // ---------------------------------------------------------------------------------------------
  // One row
  // ---------------------------------------------------------------------------------------------

  function SumUsage(logs: seq<Log>): Usage {
    if logs == [] then NO_USAGE else AddUsage(SumUsage(logs[..|logs| - 1]), UsageOf(logs[|logs| - 1]))
  }

  /** The latency columns of a table; only the hourly one has them. */
  function PerfIn(id: TableId, log: Log): Perf {
    if id.HourlyBucket? then PerfOf(log) else NO_PERF
  }

  function SumPerf(id: TableId, logs: seq<Log>): Perf {
    if logs == [] then NO_PERF
    else if |logs| == 1 then PerfIn(id, logs[0])
    else AddPerf(SumPerf(id, logs[..|logs| - 1]), PerfIn(id, logs[|logs| - 1]))
  }

  function Latest(logs: seq<Log>): int {
    if logs == [] then 0
    else if |logs| == 1 then logs[0].createdAt
    else
      var before, last := Latest(logs[..|logs| - 1]), logs[|logs| - 1].createdAt;
      if before < last then last else before
  }

  /** A row counts the logs with its key: sums, the latest time, and the names of the last of them. */
  ghost predicate Represents(r: Row, id: TableId, logs: seq<Log>) {
    && logs != []
    && r.usage == SumUsage(logs)
    && r.perf == SumPerf(id, logs)
    && r.lastUsedAt == Latest(logs)
    && r.names == RowOf(id, logs[|logs| - 1]).names
    && r.updatedAt == logs[|logs| - 1].createdAt
  }

  lemma {:induction false} SumUsageMore(logs: seq<Log>, log: Log)
    ensures SumUsage(logs + [log]) == AddUsage(SumUsage(logs), UsageOf(log))
  {
    assert (logs + [log])[..|logs|] == logs;
  }

  lemma {:induction false} SumPerfMore(id: TableId, logs: seq<Log>, log: Log)
    requires logs != []
    ensures SumPerf(id, logs + [log]) == AddPerf(SumPerf(id, logs), PerfIn(id, log))
  {
    assert (logs + [log])[..|logs|] == logs;
  }

  lemma {:induction false} LatestMore(logs: seq<Log>, log: Log)
    requires logs != []
    ensures Latest(logs + [log]) == if Latest(logs) < log.createdAt then log.createdAt else Latest(logs)
  {
    assert (logs + [log])[..|logs|] == logs;
  }

  lemma {:induction false} SumsOfOne(id: TableId, log: Log)
    ensures SumUsage([log]) == UsageOf(log) && SumPerf(id, [log]) == PerfIn(id, log)
  {
    assert [log][..0] == [];
  }

  lemma {:induction false} RowPerf(id: TableId, log: Log)
    ensures RowOf(id, log).usage == UsageOf(log) && RowOf(id, log).perf == PerfIn(id, log)
  {
  }

  lemma {:induction false} RowTimes(id: TableId, log: Log)
    ensures RowOf(id, log).lastUsedAt == RowOf(id, log).updatedAt == log.createdAt
  {
  }

  lemma {:induction false} RepresentsOne(id: TableId, log: Log)
    ensures Represents(RowOf(id, log), id, [log])
  {
    RowPerf(id, log);
    RowTimes(id, log);
    SumsOfOne(id, log);
  }

  lemma {:induction false} RepresentsMore(r: Row, id: TableId, logs: seq<Log>, log: Log)
    requires Represents(r, id, logs)
    ensures Represents(Merge(r, RowOf(id, log)), id, logs + [log])
  {
    RowPerf(id, log);
    RowTimes(id, log);
    SumUsageMore(logs, log);
    SumPerfMore(id, logs, log);
    LatestMore(logs, log);
  }

  function HasKey(id: TableId, k: Key): Log -> bool {
    log => KeyOf(id, log) == k
  }

  lemma {:induction false} RowMeaningStep(id: TableId, t: Table, before: seq<Log>, k: Key, log: Log)
    requires (k in t <==> before != []) && (k in t ==> Represents(t[k], id, before))
    ensures var mine, u := before + (if HasKey(id, k)(log) then [log] else []), UpsertLog(t, id, log);
      && (k in u <==> mine != [])
      && (k in u ==> Represents(u[k], id, mine))
  {
    if KeyOf(id, log) != k {
      assert before + [] == before;
    } else if before == [] {
      assert before + [log] == [log];
      RepresentsOne(id, log);
    } else {
      RepresentsMore(t[k], id, before, log);
    }
  }

  lemma {:induction false} RowMeaning(id: TableId, logs: seq<Log>, k: Key)
    ensures var mine, t := Filter(logs, HasKey(id, k)), Fold(map[], id, logs);
      && (k in t <==> mine != [])
      && (k in t ==> Represents(t[k], id, mine))
    decreases |logs|
  {
    if logs != [] {
      var n := |logs| - 1;
      RowMeaning(id, logs[..n], k);
      RowMeaningStep(id, Fold(map[], id, logs[..n]), Filter(logs[..n], HasKey(id, k)), k, logs[n]);
    }
  }

  // ---------------------------------------------------------------------------------------------
  // Sums over a table
  // ---------------------------------------------------------------------------------------------

  type Stripped = map<Key, Counters>

  /** The rows whose key satisfies p. */
  function Where(t: Stripped, p: Key -> bool): Stripped {
    map k | k in t && p(k) :: t[k]
  }

  ghost function Total(t: Stripped): Usage {
    if t == map[] then NO_USAGE
    else
      var k :| k in t;
      AddUsage(t[k].usage, Total(t - {k}))
  }

  lemma {:induction false} AddUsageSwaps(a: Usage, b: Usage, c: Usage)
    ensures AddUsage(a, AddUsage(b, c)) == AddUsage(b, AddUsage(a, c))
  {
  }

  lemma {:induction false} TotalWithout(t: Stripped, k: Key)
    requires k in t
    ensures Total(t) == AddUsage(t[k].usage, Total(t - {k}))
    decreases |t|
  {
    var k0 :| k0 in t && Total(t) == AddUsage(t[k0].usage, Total(t - {k0}));
    if k0 != k {
      TotalWithout(t - {k0}, k);
      TotalWithout(t - {k}, k0);
      assert t - {k0} - {k} == t - {k} - {k0};
      AddUsageSwaps(t[k0].usage, t[k].usage, Total(t - {k0} - {k}));
    }
  }

  lemma {:induction false} TotalUpdated(t: Stripped, k: Key, c: Counters)
    ensures Total(t[k := c]) == AddUsage(c.usage, Total(t - {k}))
  {
    TotalWithout(t[k := c], k);
    assert t[k := c] - {k} == t - {k};
  }

  lemma {:induction false} TotalBumped(t: Stripped, k: Key, c: Counters, add: Usage)
    requires c.usage == (if k in t then AddUsage(t[k].usage, add) else add)
    ensures Total(t[k := c]) == AddUsage(Total(t), add)
  {
    TotalUpdated(t, k, c);
    if k in t {
      TotalWithout(t, k);
    } else {
      assert t - {k} == t;
    }
  }

  lemma {:induction false} WhereUpsert(t: Table, p: Key -> bool, k: Key, r: Row)
    ensures var before, after := Where(Strip(t), p), Where(Strip(Upsert(t, k, r)), p);
      after == if p(k) then before[k := CountersOf(Upsert(t, k, r)[k])] else before
  {
  }

  lemma {:induction false} TotalUpsert(t: Table, p: Key -> bool, k: Key, r: Row)
    ensures Total(Where(Strip(Upsert(t, k, r)), p))
      == var before := Total(Where(Strip(t), p)); if p(k) then AddUsage(before, r.usage) else before
  {
    WhereUpsert(t, p, k, r);
    if p(k) {
      TotalBumped(Where(Strip(t), p), k, CountersOf(Upsert(t, k, r)[k]), r.usage);
    }
  }

  function KeySatisfies(id: TableId, p: Key -> bool): Log -> bool {
    log => p(KeyOf(id, log))
  }

  /** Summing rows is summing logs, for any selection of keys. */
  lemma {:induction false} TotalIsSum(id: TableId, logs: seq<Log>, p: Key -> bool)
    ensures Total(Where(Strip(Fold(map[], id, logs)), p)) == SumUsage(Filter(logs, KeySatisfies(id, p)))
    decreases |logs|
  {
    if logs == [] {
      assert Where(Strip(Fold(map[], id, logs)), p) == map[];
    } else {
      var n := |logs| - 1;
      TotalIsSum(id, logs[..n], p);
      TotalUpsert(Fold(map[], id, logs[..n]), p, KeyOf(id, logs[n]), RowOf(id, logs[n]));
      FilteredSumMore(logs, id, p);
      RowPerf(id, logs[n]);
    }
  }

  lemma {:induction false} FilteredSumMore(logs: seq<Log>, id: TableId, p: Key -> bool)
    requires logs != []
    ensures var n := |logs| - 1;
      SumUsage(Filter(logs, KeySatisfies(id, p))) ==
        var before := SumUsage(Filter(logs[..n], KeySatisfies(id, p)));
        if p(KeyOf(id, logs[n])) then AddUsage(before, UsageOf(logs[n])) else before
  {
    var n := |logs| - 1;
    var before := Filter(logs[..n], KeySatisfies(id, p));
    if p(KeyOf(id, logs[n])) {
      SumUsageMore(before, logs[n]);
    } else {
      assert before + [] == before;
    }
  }

  lemma {:induction false} FilterSame(logs: seq<Log>, p: Log -> bool, q: Log -> bool)
    requires forall log :: p(log) == q(log)
    ensures Filter(logs, p) == Filter(logs, q)
    decreases |logs|
  {
    if logs != [] {
      FilterSame(logs[..|logs| - 1], p, q);
    }
  }

  // ---------------------------------------------------------------------------------------------
  // Agreement between the tables
  // ---------------------------------------------------------------------------------------------

  function OnDate(d: int): Key -> bool {
    (k: Key) => k.date == d
  }

  /** The keys of the hourly rows that roll up into one channel row. */
  function OfChannel(c: Key): Key -> bool
    requires c.ChannelKey?
  {
    (k: Key) =>
      !k.TokenKey? && k.date == c.date && k.channelId == c.channelId && k.privateChannelId == c.privateChannelId
  }

  ghost function UsageAt(t: Stripped, k: Key): Usage {
    if k in t then t[k].usage else NO_USAGE
  }

  ghost predicate RowSane(c: Counters) {
    c.usage.succeeded + c.usage.failed == c.usage.requests && 0 <= c.perf.streamRequests <= c.usage.succeeded
  }

  /** The sums a reader may compare across the three tables. */
  ghost predicate Conserved(tokens: Stripped, channels: Stripped, hourly: Stripped) {
    && (forall c: Key :: c.ChannelKey? ==> Total(Where(hourly, OfChannel(c))) == UsageAt(channels, c))
    && (forall d: int :: Total(Where(tokens, OnDate(d))) == Total(Where(channels, OnDate(d))))
    && (forall k | k in tokens :: RowSane(tokens[k]))
    && (forall k | k in channels :: RowSane(channels[k]))
    && (forall k | k in hourly :: RowSane(hourly[k]))
  }

  lemma {:induction false} HourlyKeyOfChannel(c: Key, log: Log)
    requires c.ChannelKey?
    ensures KeySatisfies(HourlyBucket, OfChannel(c))(log) == HasKey(ChannelDaily, c)(log)
  {
    assert OfChannel(c)(KeyOf(HourlyBucket, log)) <==> KeyOf(ChannelDaily, log) == c;
  }

  lemma {:induction false} KeysShareDate(d: int, log: Log)
    ensures KeySatisfies(TokenDaily, OnDate(d))(log) == KeySatisfies(ChannelDaily, OnDate(d))(log)
  {
    assert OnDate(d)(KeyOf(TokenDaily, log)) == OnDate(d)(KeyOf(ChannelDaily, log));
  }

  lemma {:induction false} HourlyMatchesChannel(logs: seq<Log>, c: Key)
    requires c.ChannelKey?
    ensures Total(Where(Strip(Fold(map[], HourlyBucket, logs)), OfChannel(c)))
      == UsageAt(Strip(Fold(map[], ChannelDaily, logs)), c)
  {
    TotalIsSum(HourlyBucket, logs, OfChannel(c));
    RowMeaning(ChannelDaily, logs, c);
    forall log {
      HourlyKeyOfChannel(c, log);
    }
    FilterSame(logs, KeySatisfies(HourlyBucket, OfChannel(c)), HasKey(ChannelDaily, c));
  }

  lemma {:induction false} TokensMatchChannels(logs: seq<Log>, d: int)
    ensures Total(Where(Strip(Fold(map[], TokenDaily, logs)), OnDate(d)))
      == Total(Where(Strip(Fold(map[], ChannelDaily, logs)), OnDate(d)))
  {
    TotalIsSum(TokenDaily, logs, OnDate(d));
    TotalIsSum(ChannelDaily, logs, OnDate(d));
    forall log {
      KeysShareDate(d, log);
    }
    FilterSame(logs, KeySatisfies(TokenDaily, OnDate(d)), KeySatisfies(ChannelDaily, OnDate(d)));
  }

  lemma {:induction false} MergeSane(r: Row, id: TableId, log: Log)
    ensures RowSane(CountersOf(RowOf(id, log)))
    ensures RowSane(CountersOf(r)) ==> RowSane(CountersOf(Merge(r, RowOf(id, log))))
  {
  }

  ghost predicate TableSane(t: Table) {
    forall k | k in t :: RowSane(CountersOf(t[k]))
  }

  lemma {:induction false} UpsertSane(t: Table, id: TableId, log: Log)
    requires TableSane(t)
    ensures TableSane(UpsertLog(t, id, log))
  {
    var k := KeyOf(id, log);
    MergeSane(if k in t then t[k] else NO_ROW, id, log);
  }

  lemma {:induction false} RowsSane(id: TableId, logs: seq<Log>)
    ensures TableSane(Fold(map[], id, logs))
    decreases |logs|
  {
    if logs != [] {
      var n := |logs| - 1;
      RowsSane(id, logs[..n]);
      UpsertSane(Fold(map[], id, logs[..n]), id, logs[n]);
    }
  }

  lemma {:induction false} FoldsConserve(logs: seq<Log>)
    ensures Conserved(Strip(Fold(map[], TokenDaily, logs)), Strip(Fold(map[], ChannelDaily, logs)),
      Strip(Fold(map[], HourlyBucket, logs)))
  {
    var tokens, channels := Strip(Fold(map[], TokenDaily, logs)), Strip(Fold(map[], ChannelDaily, logs));
    var hourly := Strip(Fold(map[], HourlyBucket, logs));
    forall c: Key | c.ChannelKey?
      ensures Total(Where(hourly, OfChannel(c))) == UsageAt(channels, c)
    {
      HourlyMatchesChannel(logs, c);
    }
    forall d: int
      ensures Total(Where(tokens, OnDate(d))) == Total(Where(channels, OnDate(d)))
    {
      TokensMatchChannels(logs, d);
    }
    RowsSane(TokenDaily, logs);
    RowsSane(ChannelDaily, logs);
    RowsSane(HourlyBucket, logs);
  }

  // ---------------------------------------------------------------------------------------------
  // The running system
  // ---------------------------------------------------------------------------------------------

  /** Submits and drains act on the three buffers at once; each table's batches are written on their own. */
  datatype SystemEvent =
    | SubmitAll(log: Log, now: int)
    | DrainAll
    | WriteBatch(id: TableId, i: nat)
    | FailBatch(id: TableId, i: nat)

  function EventsOf(id: TableId, events: seq<SystemEvent>): seq<Event> {
    if events == [] then []
    else
      var last := events[|events| - 1];
      var before := EventsOf(id, events[..|events| - 1]);
      match last
      case SubmitAll(log, now) => before + [Submit(log, now)]
      case DrainAll => before + [Drain]
      case WriteBatch(other, i) => if other == id then before + [Write(i)] else before
      case FailBatch(other, i) => if other == id then before + [Fail(i)] else before
  }

  function TableAfter(id: TableId, events: seq<SystemEvent>): Pipeline {
    Run(id, map[], EventsOf(id, events))
  }

  function AllSubmitted(events: seq<SystemEvent>): seq<Log> {
    if events == [] then []
    else
      var last := events[|events| - 1];
      var before := AllSubmitted(events[..|events| - 1]);
      if last.SubmitAll? then before + [Stamp(last.log, last.now)] else before
  }

  lemma {:induction false} SubmittedToAll(id: TableId, events: seq<SystemEvent>)
    requires forall e | e in events && e.SubmitAll? :: e.now > 0
    ensures Submitted(EventsOf(id, events)) == AllSubmitted(events)
    ensures ClockRuns(EventsOf(id, events))
    decreases |events|
  {
    if events != [] {
      var n := |events| - 1;
      assert forall e | e in events[..n] :: e in events;
      assert events[n] in events;
      SubmittedToAll(id, events[..n]);
      var before := EventsOf(id, events[..n]);
      match events[n]
      case SubmitAll(log, now) => RunMore(id, map[], before, Submit(log, now));
      case DrainAll => RunMore(id, map[], before, Drain);
      case WriteBatch(other, i) => if other == id { RunMore(id, map[], before, Write(i)); }
      case FailBatch(other, i) => if other == id { RunMore(id, map[], before, Fail(i)); }
    }
  }

  /**
   * In every reachable state in which no batch was lost, the tables - each merged with its own batches in
   * flight and its buffer - agree with one another, and hold the counters of one upsert per log.
   */
  lemma {:induction false} SystemConserves(events: seq<SystemEvent>)
    requires forall e | e in events && e.SubmitAll? :: e.now > 0
    requires forall id: TableId :: TableAfter(id, events).lost == []
    ensures forall id: TableId ::
      Strip(View(TableAfter(id, events))) == Strip(Fold(map[], id, AllSubmitted(events)))
    ensures Conserved(Strip(View(TableAfter(TokenDaily, events))), Strip(View(TableAfter(ChannelDaily, events))),
      Strip(View(TableAfter(HourlyBucket, events))))
  {
    forall id: TableId
      ensures Strip(View(TableAfter(id, events))) == Strip(Fold(map[], id, AllSubmitted(events)))
    {
      SubmittedToAll(id, events);
      assert TableAfter(id, events).lost == [];
      CountersSurviveOverlap(id, map[], EventsOf(id, events), AllSubmitted(events));
    }
    FoldsConserve(AllSubmitted(events));
  }
}
