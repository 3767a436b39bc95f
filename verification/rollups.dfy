/**
 * The rollup rows and tables of billing (internal/dao/billing.go): per-log upserts, batch upserts, and
 * why a batch of pre-aggregated deltas has the effect of the upserts it stands for.
 *
 * Dates are day numbers since 1970-01-01 UTC.  One `Row` type carries the columns of the three tables;
 * a table leaves the columns it does not have at their zero value.
 */
module Rollups {
  import opened Options

  datatype Log = Log(
    userId: nat, tokenId: nat, channelId: nat, privateChannelId: nat,
    ownerType: string, agentId: string, modelName: string,
    tokenName: string, channelName: string, channelType: int,
    createdAt: int, status: int, isStream: bool,
    promptTokens: int, completionTokens: int, cacheReadTokens: int, cacheWriteTokens: int,
    inputCost: int, outputCost: int, totalCost: int,
    durationMs: int, firstResponseMs: int,
    inboundDecodeMs: int, upstreamDispatchMs: int, upstreamDecodeMs: int,
    outboundEncodeMs: int, clientEncodeMs: int)

  datatype Usage = Usage(
    requests: int, succeeded: int, failed: int,
    promptTokens: int, completionTokens: int, cacheReadTokens: int, cacheWriteTokens: int,
    inputCost: int, outputCost: int, totalCost: int)

  datatype Perf = Perf(
    streamRequests: int, firstResponseMs: int, generationMs: int, streamCompletionTokens: int,
    inboundDecodeMs: int, upstreamDispatchMs: int, upstreamDecodeMs: int,
    outboundEncodeMs: int, clientEncodeMs: int)

  datatype Names = Names(name: string, channelType: int, ownerType: string)

  datatype Row = Row(names: Names, usage: Usage, perf: Perf, lastUsedAt: int, updatedAt: int)

  type Hour = h: int | 0 <= h < 24

  datatype Key =
    | TokenKey(date: int, userId: nat, tokenId: nat)
    | ChannelKey(date: int, channelId: nat, privateChannelId: nat)
    | HourlyKey(date: int, hour: Hour, channelId: nat, privateChannelId: nat, modelName: string, agentId: string)

  datatype TableId = TokenDaily | ChannelDaily | HourlyBucket

  type Table = map<Key, Row>

  const NO_USAGE := Usage(0, 0, 0, 0, 0, 0, 0, 0, 0, 0)
  const NO_PERF := Perf(0, 0, 0, 0, 0, 0, 0, 0, 0)
  const NO_ROW := Row(Names("", 0, ""), NO_USAGE, NO_PERF, 0, 0)

  const SECONDS_PER_DAY := 86400
  const SECONDS_PER_HOUR := 3600

  // ---------------------------------------------------------------------------------------------
  // Rows
  // ---------------------------------------------------------------------------------------------

  function AddUsage(a: Usage, b: Usage): Usage {
    Usage(a.requests + b.requests, a.succeeded + b.succeeded, a.failed + b.failed,
      a.promptTokens + b.promptTokens, a.completionTokens + b.completionTokens,
      a.cacheReadTokens + b.cacheReadTokens, a.cacheWriteTokens + b.cacheWriteTokens,
      a.inputCost + b.inputCost, a.outputCost + b.outputCost, a.totalCost + b.totalCost)
  }

  function AddPerf(a: Perf, b: Perf): Perf {
    Perf(a.streamRequests + b.streamRequests, a.firstResponseMs + b.firstResponseMs,
      a.generationMs + b.generationMs, a.streamCompletionTokens + b.streamCompletionTokens,
      a.inboundDecodeMs + b.inboundDecodeMs, a.upstreamDispatchMs + b.upstreamDispatchMs,
      a.upstreamDecodeMs + b.upstreamDecodeMs, a.outboundEncodeMs + b.outboundEncodeMs,
      a.clientEncodeMs + b.clientEncodeMs)
  }

  /** The conflict rule of every upsert: counters add, last_used_at is a maximum, the rest is overwritten. */
  function Merge(was: Row, add: Row): Row {
    Row(add.names, AddUsage(was.usage, add.usage), AddPerf(was.perf, add.perf),
      if was.lastUsedAt < add.lastUsedAt then add.lastUsedAt else was.lastUsedAt, add.updatedAt)
  }

  /** The log with its creation time filled in from the clock where it has none. */
  function Stamp(log: Log, now: int): Log {
    if log.createdAt > 0 then log else log.(createdAt := now)
  }

  function DateOf(log: Log): int {
    log.createdAt / SECONDS_PER_DAY
  }

  function HourOf(log: Log): Hour {
    log.createdAt % SECONDS_PER_DAY / SECONDS_PER_HOUR
  }

  function UsageOf(log: Log): Usage {
    Usage(1, if log.status == 0 then 0 else 1, if log.status == 0 then 1 else 0,
      log.promptTokens, log.completionTokens, log.cacheReadTokens, log.cacheWriteTokens,
      log.inputCost, log.outputCost, log.totalCost)
  }

  function PerfOf(log: Log): Perf {
    var succeeded := log.status == 1;
    var streamed := log.isStream && succeeded && log.completionTokens > 0;
    Perf(
      if streamed then 1 else 0,
      if streamed then log.firstResponseMs else 0,
      if streamed then log.durationMs - log.firstResponseMs else 0,
      if streamed then log.completionTokens else 0,
      if succeeded then log.inboundDecodeMs else 0,
      if succeeded then log.upstreamDispatchMs else 0,
      if succeeded then log.upstreamDecodeMs else 0,
      if succeeded then log.outboundEncodeMs else 0,
      if succeeded then log.clientEncodeMs else 0)
  }

  function KeyOf(id: TableId, log: Log): Key {
    match id
    case TokenDaily => TokenKey(DateOf(log), log.userId, log.tokenId)
    case ChannelDaily => ChannelKey(DateOf(log), log.channelId, log.privateChannelId)
    case HourlyBucket =>
      HourlyKey(DateOf(log), HourOf(log), log.channelId, log.privateChannelId, log.modelName, log.agentId)
  }

  function RowOf(id: TableId, log: Log): Row {
    var channel := Names(log.channelName, log.channelType, if log.ownerType == "" then "admin" else log.ownerType);
    match id
    case TokenDaily => Row(Names(log.tokenName, 0, ""), UsageOf(log), NO_PERF, log.createdAt, log.createdAt)
    case ChannelDaily => Row(channel, UsageOf(log), NO_PERF, log.createdAt, log.createdAt)
    case HourlyBucket => Row(channel, UsageOf(log), PerfOf(log), log.createdAt, log.createdAt)
  }

  // ---------------------------------------------------------------------------------------------
  // Tables
  // ---------------------------------------------------------------------------------------------

  function Upsert(t: Table, k: Key, r: Row): Table {
    t[k := if k in t then Merge(t[k], r) else r]
  }

  function UpsertLog(t: Table, id: TableId, log: Log): Table {
    Upsert(t, KeyOf(id, log), RowOf(id, log))
  }

  /** The simple form: one upsert a log, in order. */
  function Fold(t: Table, id: TableId, logs: seq<Log>): Table {
    if logs == [] then t else UpsertLog(Fold(t, id, logs[..|logs| - 1]), id, logs[|logs| - 1])
  }

  /** The buffered form of one log: a zero delta is created first, then bumped. */
  function Bump(buffer: Table, k: Key, r: Row): Table {
    buffer[k := Merge(if k in buffer then buffer[k] else NO_ROW, r)]
  }

  /** A batch upsert, in the order of its rows. */
  function BatchUpsert(t: Table, rows: seq<(Key, Row)>): Table {
    if rows == [] then t
    else
      var last := rows[|rows| - 1];
      Upsert(BatchUpsert(t, rows[..|rows| - 1]), last.0, last.1)
  }

  /** Every buffered delta upserted once. */
  function MergeTables(t: Table, buffer: Table): Table {
    map k | k in t.Keys + buffer.Keys ::
      if k in t && k in buffer then Merge(t[k], buffer[k]) else if k in buffer then buffer[k] else t[k]
  }

  /** The rows list the buffer, each key once, in any order. */
  ghost predicate Lists(rows: seq<(Key, Row)>, buffer: Table) {
    && (forall i | 0 <= i < |rows| :: rows[i].0 in buffer && buffer[rows[i].0] == rows[i].1)
    && (forall i, j | 0 <= i < j < |rows| :: rows[i].0 != rows[j].0)
    && forall k | k in buffer :: exists i | 0 <= i < |rows| :: rows[i].0 == k
  }

  lemma {:induction false} MergeAssociative(a: Row, b: Row, c: Row)
    ensures Merge(Merge(a, b), c) == Merge(a, Merge(b, c))
  {
  }

  lemma {:induction false} BumpIsUpsert(buffer: Table, k: Key, r: Row)
    requires r.lastUsedAt > 0
    ensures Bump(buffer, k, r) == Upsert(buffer, k, r)
  {
    assert Merge(NO_ROW, r) == r;
  }

  lemma {:induction false} MergeOneMore(t: Table, buffer: Table, k: Key)
    requires k in buffer
    ensures MergeTables(t, buffer) == Upsert(MergeTables(t, buffer - {k}), k, buffer[k])
  {
  }

  lemma {:induction false} ListsPrefix(rows: seq<(Key, Row)>, buffer: Table)
    requires rows != [] && Lists(rows, buffer)
    ensures Lists(rows[..|rows| - 1], buffer - {rows[|rows| - 1].0})
  {
    var n := |rows| - 1;
    var rest := buffer - {rows[n].0};
    forall k | k in rest
      ensures exists i | 0 <= i < n :: rows[..n][i].0 == k
    {
      var i :| 0 <= i < |rows| && rows[i].0 == k;
      assert rows[..n][i].0 == k;
    }
  }

  /** The order in which a batch lists its rows does not matter. */
  lemma {:induction false} BatchMerges(t: Table, rows: seq<(Key, Row)>, buffer: Table)
    requires Lists(rows, buffer)
    ensures BatchUpsert(t, rows) == MergeTables(t, buffer)
    decreases |rows|
  {
    if rows == [] {
      assert buffer == map[];
      assert MergeTables(t, buffer) == t;
    } else {
      var n := |rows| - 1;
      ListsPrefix(rows, buffer);
      BatchMerges(t, rows[..n], buffer - {rows[n].0});
      MergeOneMore(t, buffer, rows[n].0);
    }
  }

  lemma {:induction false} MergeUpsert(t: Table, buffer: Table, k: Key, r: Row)
    ensures MergeTables(t, Upsert(buffer, k, r)) == Upsert(MergeTables(t, buffer), k, r)
  {
    if k in t && k in buffer {
      MergeAssociative(t[k], buffer[k], r);
    }
  }

  /** Buffering logs and flushing the buffer once is upserting the logs one by one. */
  lemma {:induction false} MergeOfFold(t: Table, id: TableId, logs: seq<Log>)
    ensures MergeTables(t, Fold(map[], id, logs)) == Fold(t, id, logs)
    decreases |logs|
  {
    if logs != [] {
      var n := |logs| - 1;
      MergeOfFold(t, id, logs[..n]);
      MergeUpsert(t, Fold(map[], id, logs[..n]), KeyOf(id, logs[n]), RowOf(id, logs[n]));
    }
  }

  lemma {:induction false} FoldAppend(t: Table, id: TableId, a: seq<Log>, b: seq<Log>)
    ensures Fold(t, id, a + b) == Fold(Fold(t, id, a), id, b)
    decreases |b|
  {
    if b == [] {
      assert a + b == a;
    } else {
      var n := |b| - 1;
      assert (a + b)[..|a + b| - 1] == a + b[..n];
      FoldAppend(t, id, a, b[..n]);
    }
  }

  lemma {:induction false} FoldMore(t: Table, id: TableId, logs: seq<Log>, log: Log)
    ensures Fold(t, id, logs + [log]) == UpsertLog(Fold(t, id, logs), id, log)
  {
    assert (logs + [log])[..|logs|] == logs;
  }

  lemma {:induction false} FoldEmptyIff(id: TableId, logs: seq<Log>)
    ensures Fold(map[], id, logs) == map[] <==> logs == []
  {
    if logs != [] {
      assert KeyOf(id, logs[|logs| - 1]) in Fold(map[], id, logs);
    }
  }

  /** The logs a query selects, in id order. */
  function Filter(logs: seq<Log>, p: Log -> bool): seq<Log> {
    if logs == [] then []
    else Filter(logs[..|logs| - 1], p) + if p(logs[|logs| - 1]) then [logs[|logs| - 1]] else []
  }

  // ---------------------------------------------------------------------------------------------
  // Counters: what does not depend on the order of the logs
  // ---------------------------------------------------------------------------------------------

  datatype Counters = Counters(usage: Usage, perf: Perf, lastUsedAt: int)

  function CountersOf(r: Row): Counters {
    Counters(r.usage, r.perf, r.lastUsedAt)
  }

  /** A table without its names and its updated_at column. */
  function Strip(t: Table): map<Key, Counters> {
    map k | k in t :: CountersOf(t[k])
  }

  lemma {:induction false} StripUpsert(s: Table, t: Table, k: Key, r: Row)
    requires Strip(s) == Strip(t)
    ensures Strip(Upsert(s, k, r)) == Strip(Upsert(t, k, r))
  {
    assert s.Keys == Strip(s).Keys == Strip(t).Keys == t.Keys;
    forall k' | k' in Upsert(s, k, r)
      ensures CountersOf(Upsert(s, k, r)[k']) == CountersOf(Upsert(t, k, r)[k'])
    {
      if k' in s {
        assert Strip(s)[k'] == Strip(t)[k'];
      }
    }
  }

  lemma {:induction false} StripFold(s: Table, t: Table, id: TableId, logs: seq<Log>)
    requires Strip(s) == Strip(t)
    ensures Strip(Fold(s, id, logs)) == Strip(Fold(t, id, logs))
    decreases |logs|
  {
    if logs != [] {
      var n := |logs| - 1;
      StripFold(s, t, id, logs[..n]);
      StripUpsert(Fold(s, id, logs[..n]), Fold(t, id, logs[..n]), KeyOf(id, logs[n]), RowOf(id, logs[n]));
    }
  }

  lemma {:induction false} StripSwap(t: Table, k: Key, r: Row, k': Key, r': Row)
    ensures Strip(Upsert(Upsert(t, k, r), k', r')) == Strip(Upsert(Upsert(t, k', r'), k, r))
  {
    var a, b := Upsert(Upsert(t, k, r), k', r'), Upsert(Upsert(t, k', r'), k, r);
    assert a.Keys == t.Keys + {k, k'} == b.Keys;
    forall x | x in a
      ensures CountersOf(a[x]) == CountersOf(b[x])
    {
      if x == k == k' {
      } else {
        assert x != k && x != k' ==> a[x] == t[x] == b[x];
      }
    }
  }

  /** A log may be moved to the end. */
  lemma {:induction false} StripRotate(t: Table, id: TableId, log: Log, logs: seq<Log>)
    ensures Strip(Fold(t, id, [log] + logs)) == Strip(Fold(t, id, logs + [log]))
    decreases |logs|
  {
    if logs == [] {
      assert [log] + logs == logs + [log];
    } else {
      var n := |logs| - 1;
      var init, last := logs[..n], logs[n];
      StripRotate(t, id, log, init);
      assert [log] + logs == ([log] + init) + [last];
      assert logs == init + [last];
      FoldMore(t, id, [log] + init, last);
      FoldMore(t, id, init + [log], last);
      FoldMore(t, id, init, log);
      FoldMore(t, id, init, last);
      FoldMore(t, id, logs, log);
      StripUpsert(Fold(t, id, [log] + init), Fold(t, id, init + [log]), KeyOf(id, last), RowOf(id, last));
      StripSwap(Fold(t, id, init), KeyOf(id, log), RowOf(id, log), KeyOf(id, last), RowOf(id, last));
    }
  }

  lemma {:induction false} StripMoveToEnd(t: Table, id: TableId, before: seq<Log>, log: Log, after: seq<Log>)
    ensures Strip(Fold(t, id, before + ([log] + after))) == Strip(Fold(t, id, (before + after) + [log]))
  {
    FoldAppend(t, id, before, [log] + after);
    StripRotate(Fold(t, id, before), id, log, after);
    FoldAppend(t, id, before, after + [log]);
    assert before + (after + [log]) == (before + after) + [log];
  }

  lemma {:induction false} TakeOut<T>(a: seq<T>, b: seq<T>) returns (before: seq<T>, after: seq<T>)
    requires a != [] && multiset(a) == multiset(b)
    ensures b == before + ([a[|a| - 1]] + after)
    ensures multiset(a[..|a| - 1]) == multiset(before + after)
  {
    var n := |a| - 1;
    assert a[n] in multiset(b);
    var i :| 0 <= i < |b| && b[i] == a[n];
    before, after := b[..i], b[i + 1..];
    assert b == before + ([a[n]] + after);
    assert a == a[..n] + [a[n]];
    CancelOne(multiset(a[..n]), multiset(before + after), a[n], multiset(a));
  }

  lemma {:induction false} CancelOne<T>(a: multiset<T>, b: multiset<T>, x: T, whole: multiset<T>)
    requires a + multiset{x} == whole && b + multiset{x} == whole
    ensures a == b
  {
    assert a == whole - multiset{x} == b;
  }

  /** All counters and last_used_at depend only on which logs were counted. */
  lemma {:induction false} StripPermuted(t: Table, id: TableId, a: seq<Log>, b: seq<Log>)
    requires multiset(a) == multiset(b)
    ensures Strip(Fold(t, id, a)) == Strip(Fold(t, id, b))
    decreases |a|
  {
    if a == [] {
      assert |multiset(b)| == 0;
    } else {
      var n := |a| - 1;
      var before, after := TakeOut(a, b);
      StripPermuted(t, id, a[..n], before + after);
      StripUpsert(Fold(t, id, a[..n]), Fold(t, id, before + after), KeyOf(id, a[n]), RowOf(id, a[n]));
      FoldMore(t, id, before + after, a[n]);
      StripMoveToEnd(t, id, before, a[n], after);
    }
  }
}
