/**
 * What each column of a rollup row holds (internal/dao/billing.go:525-578, 827-892, 1028-1066 and
 * internal/master/billing/aggregator.go:195-297): the row a table had, plus the fields of the logs that count
 * under its key, read off the logs themselves.
 */
module RowColumns {
  import opened Options
  import opened Rollups

  function Sum(logs: seq<Log>, f: Log -> int): int {
    if logs == [] then 0 else Sum(logs[..|logs| - 1], f) + f(logs[|logs| - 1])
  }

  /** The sum of a field over the logs that meet a condition. */
  function SumIf(logs: seq<Log>, p: Log -> bool, f: Log -> int): int {
    Sum(logs, x => if p(x) then f(x) else 0)
  }

  /** The logs that count under a key: those of its day, or its hour, with its ids. */
  predicate Under(id: TableId, k: Key, log: Log) {
    match k
    case TokenKey(date, userId, tokenId) =>
      id.TokenDaily? && log.createdAt / 86400 == date && log.userId == userId && log.tokenId == tokenId
    case ChannelKey(date, channelId, privateChannelId) =>
      && id.ChannelDaily? && log.createdAt / 86400 == date
      && log.channelId == channelId && log.privateChannelId == privateChannelId
    case HourlyKey(date, hour, channelId, privateChannelId, modelName, agentId) =>
      && id.HourlyBucket? && log.createdAt / 86400 == date && log.createdAt % 86400 / 3600 == hour
      && log.channelId == channelId && log.privateChannelId == privateChannelId
      && log.modelName == modelName && log.agentId == agentId
  }

  function Counted(id: TableId, k: Key): Log -> bool {
    (log: Log) => Under(id, k, log)
  }

  /** Every log is a request; status 0 is a failure; tokens and costs add up, each from its own field. */
  ghost predicate UsageAdds(was: Usage, now: Usage, logs: seq<Log>) {
    && now.requests == was.requests + |logs|
    && now.succeeded == was.succeeded + SumIf(logs, (x: Log) => x.status != 0, (x: Log) => 1)
    && now.failed == was.failed + SumIf(logs, (x: Log) => x.status == 0, (x: Log) => 1)
    && now.promptTokens == was.promptTokens + Sum(logs, (x: Log) => x.promptTokens)
    && now.completionTokens == was.completionTokens + Sum(logs, (x: Log) => x.completionTokens)
    && now.cacheReadTokens == was.cacheReadTokens + Sum(logs, (x: Log) => x.cacheReadTokens)
    && now.cacheWriteTokens == was.cacheWriteTokens + Sum(logs, (x: Log) => x.cacheWriteTokens)
    && now.inputCost == was.inputCost + Sum(logs, (x: Log) => x.inputCost)
    && now.outputCost == was.outputCost + Sum(logs, (x: Log) => x.outputCost)
    && now.totalCost == was.totalCost + Sum(logs, (x: Log) => x.totalCost)
  }

  /** A streamed reply that can be measured. */
  predicate Streamed(x: Log) {
    x.isStream && x.status == 1 && x.completionTokens > 0
  }

  /** Latencies of streamed replies and stages of successful requests; the daily tables have neither. */
  ghost predicate PerfAdds(id: TableId, was: Perf, now: Perf, logs: seq<Log>) {
    if !id.HourlyBucket? then now == was
    else
      && now.streamRequests == was.streamRequests + SumIf(logs, Streamed, (x: Log) => 1)
      && now.firstResponseMs == was.firstResponseMs + SumIf(logs, Streamed, (x: Log) => x.firstResponseMs)
      && now.generationMs
        == was.generationMs + SumIf(logs, Streamed, (x: Log) => x.durationMs - x.firstResponseMs)
      && now.streamCompletionTokens
        == was.streamCompletionTokens + SumIf(logs, Streamed, (x: Log) => x.completionTokens)
      && now.inboundDecodeMs
        == was.inboundDecodeMs + SumIf(logs, (x: Log) => x.status == 1, (x: Log) => x.inboundDecodeMs)
      && now.upstreamDispatchMs
        == was.upstreamDispatchMs + SumIf(logs, (x: Log) => x.status == 1, (x: Log) => x.upstreamDispatchMs)
      && now.upstreamDecodeMs
        == was.upstreamDecodeMs + SumIf(logs, (x: Log) => x.status == 1, (x: Log) => x.upstreamDecodeMs)
      && now.outboundEncodeMs
        == was.outboundEncodeMs + SumIf(logs, (x: Log) => x.status == 1, (x: Log) => x.outboundEncodeMs)
      && now.clientEncodeMs
        == was.clientEncodeMs + SumIf(logs, (x: Log) => x.status == 1, (x: Log) => x.clientEncodeMs)
  }

  /** The names and updated_at are those of one log; a channel without an owner type is the admin's. */
  ghost predicate NamedBy(id: TableId, now: Row, last: Log) {
    && now.updatedAt == last.createdAt
    && if id.TokenDaily? then now.names == Names(last.tokenName, 0, "")
       else
         && now.names.name == last.channelName && now.names.channelType == last.channelType
         && now.names.ownerType == (if last.ownerType == "" then "admin" else last.ownerType)
  }

  /** last_used_at is the latest of the logs and of what the row had. */
  ghost predicate LatestOf(was: Option<Row>, now: Row, logs: seq<Log>) {
    && (forall x | x in logs :: x.createdAt <= now.lastUsedAt)
    && (was.Some? ==> was.value.lastUsedAt <= now.lastUsedAt)
    && ((exists x :: x in logs && x.createdAt == now.lastUsedAt)
        || (was.Some? && was.value.lastUsedAt == now.lastUsedAt))
  }

  /** A row after some logs, if any, that count under its key. */
  ghost predicate Adds(id: TableId, was: Option<Row>, now: Option<Row>, logs: seq<Log>) {
    if logs == [] then now == was
    else
      && now.Some?
      && UsageAdds(if was.Some? then was.value.usage else NO_USAGE, now.value.usage, logs)
      && PerfAdds(id, if was.Some? then was.value.perf else NO_PERF, now.value.perf, logs)
      && NamedBy(id, now.value, logs[|logs| - 1])
      && LatestOf(was, now.value, logs)
  }

  function At(t: Table, k: Key): Option<Row> {
    if k in t then Some(t[k]) else None
  }

  lemma {:induction false} SumMore(logs: seq<Log>, x: Log)
    ensures forall f: Log -> int :: Sum(logs + [x], f) == Sum(logs, f) + f(x)
  {
    assert (logs + [x])[..|logs|] == logs;
  }

  lemma {:induction false} SumNone()
    ensures forall f: Log -> int :: Sum([], f) == 0
  {
  }

  lemma {:induction false} UsageMore(was: Usage, now: Usage, logs: seq<Log>, x: Log)
    requires UsageAdds(was, now, logs)
    ensures UsageAdds(was, AddUsage(now, UsageOf(x)), logs + [x])
  {
    hide Sum;
    SumMore(logs, x);
  }

  lemma {:induction false} UsageNone(u: Usage)
    ensures UsageAdds(u, u, []) && AddUsage(NO_USAGE, u) == u
  {
    hide Sum;
    SumNone();
  }

  lemma {:induction false} PerfMore(id: TableId, was: Perf, now: Perf, logs: seq<Log>, x: Log)
    requires PerfAdds(id, was, now, logs)
    ensures PerfAdds(id, was, AddPerf(now, if id.HourlyBucket? then PerfOf(x) else NO_PERF), logs + [x])
  {
    hide Sum;
    SumMore(logs, x);
  }

  lemma {:induction false} PerfNone(id: TableId, p: Perf)
    ensures PerfAdds(id, p, p, []) && AddPerf(NO_PERF, p) == p
  {
    hide Sum;
    SumNone();
  }

  /** One log upserted into a row that already has some. */
  lemma {:induction false} AddsOne(id: TableId, was: Option<Row>, now: Option<Row>, logs: seq<Log>, x: Log)
    requires Adds(id, was, now, logs)
    ensures Adds(id, was, Some(if now.Some? then Merge(now.value, RowOf(id, x)) else RowOf(id, x)), logs + [x])
  {
    hide UsageAdds, PerfAdds, AddUsage, AddPerf, UsageOf, PerfOf;
    var usage := if was.Some? then was.value.usage else NO_USAGE;
    var perf := if was.Some? then was.value.perf else NO_PERF;
    var next := if now.Some? then Merge(now.value, RowOf(id, x)) else RowOf(id, x);
    UsageNone(usage);
    PerfNone(id, perf);
    UsageNone(UsageOf(x));
    PerfNone(id, if id.HourlyBucket? then PerfOf(x) else NO_PERF);
    UsageMore(usage, if now.Some? then now.value.usage else NO_USAGE, logs, x);
    PerfMore(id, perf, if now.Some? then now.value.perf else NO_PERF, logs, x);
    LatestMore(id, was, now, logs, x, next);
  }

  lemma {:induction false} LatestMore(id: TableId, was: Option<Row>, now: Option<Row>, logs: seq<Log>, x: Log,
                                      next: Row)
    requires next == if now.Some? then Merge(now.value, RowOf(id, x)) else RowOf(id, x)
    requires if logs == [] then now == was else now.Some? && LatestOf(was, now.value, logs)
    ensures LatestOf(was, next, logs + [x])
  {
    hide AddUsage, AddPerf, UsageOf, PerfOf;
    assert RowOf(id, x).lastUsedAt == x.createdAt;
    assert x in logs + [x] && forall y | y in logs :: y in logs + [x];
  }

  lemma {:induction false} UnderItsKey(id: TableId, k: Key, log: Log)
    ensures Under(id, k, log) <==> KeyOf(id, log) == k
  {
  }

  /**
   * After logs were upserted one by one each row is the one the table had plus the logs under its key, column by
   * column; a row no log counts under is as it was.
   */
  lemma {:induction false} ColumnsAdd(t: Table, id: TableId, logs: seq<Log>, k: Key)
    ensures Adds(id, At(t, k), At(Fold(t, id, logs), k), Filter(logs, Counted(id, k)))
    decreases |logs|
  {
    hide Adds, Merge, RowOf, KeyOf, Under;
    if logs == [] {
      AddsNothing(id, At(t, k));
    } else {
      var n := |logs| - 1;
      ColumnsAdd(t, id, logs[..n], k);
      UnderItsKey(id, k, logs[n]);
      var before := Filter(logs[..n], Counted(id, k));
      if KeyOf(id, logs[n]) == k {
        AddsOne(id, At(t, k), At(Fold(t, id, logs[..n]), k), before, logs[n]);
      } else {
        assert before + [] == before;
      }
    }
  }

  lemma {:induction false} AddsNothing(id: TableId, row: Option<Row>)
    ensures Adds(id, row, row, [])
  {
  }
}
