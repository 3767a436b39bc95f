/**
 * The in-memory aggregator (internal/master/billing/aggregator.go) in front of the rollup tables.
 *
 * The class is the sequential code: every method has the effect the per-log upserts would have had.
 * The module Pipelines is the same machine with flushes split where the mutex is released: new logs and
 * other flushes come in between draining the buffer and writing a batch.
 */
module Aggregation {
  import opened Options
  import opened Rollups

  datatype FlushOutcome = Written | WriteFailed | NoFlushFn

  datatype Error = FlushError(table: TableId)

  /** The three rollup tables; a batch is one transaction, so a failed one changes nothing. */
  class Database {
    var tokens: Table
    var channels: Table
    var hourly: Table

    constructor ()
      ensures tokens == map[] && channels == map[] && hourly == map[]
    {
      tokens, channels, hourly := map[], map[], map[];
    }

    /** The loop of the BatchUpsert methods over their rows. */
    static method BatchUpsertRows(t: Table, rows: seq<(Key, Row)>) returns (changed: Table)
      ensures changed == BatchUpsert(t, rows)
    {
      changed := t;
      for i := 0 to |rows|
        invariant changed == BatchUpsert(t, rows[..i])
      {
        assert rows[..i + 1][..i] == rows[..i];
        changed := Upsert(changed, rows[i].0, rows[i].1);
      }
      assert rows[..|rows|] == rows;
    }

    method BatchUpsertTokenDaily(rows: seq<(Key, Row)>, fate: FlushOutcome) returns (err: Option<Error>)
      modifies this`tokens
      ensures tokens == if fate.Written? then BatchUpsert(old(tokens), rows) else old(tokens)
      ensures err == if fate.WriteFailed? then Some(FlushError(TokenDaily)) else None
    {
      err := if fate.WriteFailed? then Some(FlushError(TokenDaily)) else None;
      if fate.Written? {
        tokens := BatchUpsertRows(tokens, rows);
      }
    }

    method BatchUpsertChannelDaily(rows: seq<(Key, Row)>, fate: FlushOutcome) returns (err: Option<Error>)
      modifies this`channels
      ensures channels == if fate.Written? then BatchUpsert(old(channels), rows) else old(channels)
      ensures err == if fate.WriteFailed? then Some(FlushError(ChannelDaily)) else None
    {
      err := if fate.WriteFailed? then Some(FlushError(ChannelDaily)) else None;
      if fate.Written? {
        channels := BatchUpsertRows(channels, rows);
      }
    }

    method BatchUpsertHourlyBucket(rows: seq<(Key, Row)>, fate: FlushOutcome) returns (err: Option<Error>)
      modifies this`hourly
      ensures hourly == if fate.Written? then BatchUpsert(old(hourly), rows) else old(hourly)
      ensures err == if fate.WriteFailed? then Some(FlushError(HourlyBucket)) else None
    {
      err := if fate.WriteFailed? then Some(FlushError(HourlyBucket)) else None;
      if fate.Written? {
        hourly := BatchUpsertRows(hourly, rows);
      }
    }
  }

  lemma {:induction false} BatchIsFold(t: Table, id: TableId, rows: seq<(Key, Row)>, logs: seq<Log>)
    requires Lists(rows, Fold(map[], id, logs))
    ensures BatchUpsert(t, rows) == Fold(t, id, logs)
  {
    BatchMerges(t, rows, Fold(map[], id, logs));
    MergeOfFold(t, id, logs);
  }

  lemma {:induction false} BumpIsFold(buffer: Table, id: TableId, logs: seq<Log>, log: Log)
    requires buffer == Fold(map[], id, logs) && log.createdAt > 0
    ensures Bump(buffer, KeyOf(id, log), RowOf(id, log)) == Fold(map[], id, logs + [log])
  {
    BumpIsUpsert(buffer, KeyOf(id, log), RowOf(id, log));
    FoldMore(map[], id, logs, log);
  }

  class Aggregator {
    const maxRows: int
    var tokens: Table
    var channels: Table
    var hourly: Table
    /** The pending signal on the channel of capacity one. */
    var flushRequested: bool
    /** The logs submitted since the buffers were last drained. */
    ghost var pending: seq<Log>

    ghost predicate Valid()
      reads this
    {
      && tokens == Fold(map[], TokenDaily, pending)
      && channels == Fold(map[], ChannelDaily, pending)
      && hourly == Fold(map[], HourlyBucket, pending)
    }

    constructor (maxRows: int)
      ensures Valid() && pending == [] && this.maxRows == maxRows && !flushRequested
    {
      this.maxRows := maxRows;
      tokens, channels, hourly := map[], map[], map[];
      flushRequested := false;
      pending := [];
    }

    static method BumpLog(buffer: Table, id: TableId, log: Log, ghost logs: seq<Log>) returns (bumped: Table)
      requires buffer == Fold(map[], id, logs) && log.createdAt > 0
      ensures bumped == Fold(map[], id, logs + [log])
    {
      BumpIsFold(buffer, id, logs, log);
      bumped := Bump(buffer, KeyOf(id, log), RowOf(id, log));
    }

    method Submit(log: Log, now: int)
      requires Valid() && now > 0
      modifies this
      ensures Valid() && pending == old(pending) + [Stamp(log, now)]
      ensures pending[|old(pending)|] == if log.createdAt > 0 then log else log.(createdAt := now)
      ensures flushRequested
        == (old(flushRequested) || (maxRows > 0 && |tokens| + |channels| + |hourly| >= maxRows))
    {
      var stamped := Stamp(log, now);
      tokens := BumpLog(tokens, TokenDaily, stamped, pending);
      channels := BumpLog(channels, ChannelDaily, stamped, pending);
      hourly := BumpLog(hourly, HourlyBucket, stamped, pending);
      pending := pending + [stamped];
      if maxRows > 0 && |tokens| + |channels| + |hourly| >= maxRows {
        flushRequested := true;
      }
    }

    /** Row slices are built by ranging over a map: any order, each key once. */
    static method BuildRows(buffer: Table) returns (rows: seq<(Key, Row)>)
      ensures Lists(rows, buffer)
    {
      rows := [];
      var keys := buffer.Keys;
      while keys != {}
        invariant keys <= buffer.Keys
        invariant Lists(rows, buffer - keys)
        decreases keys
      {
        var k :| k in keys;
        ListsMore(rows, buffer, keys, k);
        rows := rows + [(k, buffer[k])];
        keys := keys - {k};
      }
      assert buffer - keys == buffer;
    }

    static lemma {:induction false} ListsMore(rows: seq<(Key, Row)>, buffer: Table, keys: set<Key>, k: Key)
      requires keys <= buffer.Keys && k in keys && Lists(rows, buffer - keys)
      ensures Lists(rows + [(k, buffer[k])], buffer - (keys - {k}))
    {
      var more, grown := rows + [(k, buffer[k])], buffer - (keys - {k});
      forall x | x in grown
        ensures exists i | 0 <= i < |more| :: more[i].0 == x
      {
        if x == k {
          assert more[|rows|].0 == x;
        } else {
          assert x in buffer - keys;
          var i :| 0 <= i < |rows| && rows[i].0 == x;
          assert more[i].0 == x;
        }
      }
    }

    method IsEmpty() returns (empty: bool)
      requires Valid()
      ensures empty <==> pending == []
    {
      FoldEmptyIff(TokenDaily, pending);
      FoldEmptyIff(ChannelDaily, pending);
      FoldEmptyIff(HourlyBucket, pending);
      empty := tokens == map[] && channels == map[] && hourly == map[];
    }

    /** The part of a flush under the mutex: rows out, buffers reset. */
    method Drain() returns (tokenRows: seq<(Key, Row)>, channelRows: seq<(Key, Row)>, hourlyRows: seq<(Key, Row)>)
      requires Valid()
      modifies this
      ensures Valid() && pending == [] && flushRequested == old(flushRequested)
      ensures Lists(tokenRows, Fold(map[], TokenDaily, old(pending)))
      ensures Lists(channelRows, Fold(map[], ChannelDaily, old(pending)))
      ensures Lists(hourlyRows, Fold(map[], HourlyBucket, old(pending)))
    {
      tokenRows := BuildRows(tokens);
      channelRows := BuildRows(channels);
      hourlyRows := BuildRows(hourly);
      tokens, channels, hourly := map[], map[], map[];
      pending := [];
    }

    /**
     * A flush with nothing else running: each written table becomes what upserting the pending logs one
     * by one would have made it, a table whose write fails loses exactly this batch, and the first error
     * in table order is returned.
     */
    method Flush(db: Database, t: FlushOutcome, c: FlushOutcome, h: FlushOutcome) returns (err: Option<Error>)
      requires Valid()
      modifies this, db
      ensures Valid() && pending == [] && flushRequested == old(flushRequested)
      ensures db.tokens == if t.Written? then Fold(old(db.tokens), TokenDaily, old(pending)) else old(db.tokens)
      ensures db.channels == if c.Written? then Fold(old(db.channels), ChannelDaily, old(pending)) else old(db.channels)
      ensures db.hourly == if h.Written? then Fold(old(db.hourly), HourlyBucket, old(pending)) else old(db.hourly)
      ensures old(pending) == [] ==> err == None
      ensures old(pending) != [] ==> err == FirstError(t, c, h)
    {
      hide Fold, Lists, BatchUpsert;
      var empty := IsEmpty();
      if empty {
        FoldNothing(db.tokens, TokenDaily);
        FoldNothing(db.channels, ChannelDaily);
        FoldNothing(db.hourly, HourlyBucket);
        return None;
      }
      ghost var logs := pending;
      var tokenRows, channelRows, hourlyRows := Drain();
      BatchIsFold(db.tokens, TokenDaily, tokenRows, logs);
      BatchIsFold(db.channels, ChannelDaily, channelRows, logs);
      BatchIsFold(db.hourly, HourlyBucket, hourlyRows, logs);
      var te := db.BatchUpsertTokenDaily(tokenRows, t);
      var ce := db.BatchUpsertChannelDaily(channelRows, c);
      var he := db.BatchUpsertHourlyBucket(hourlyRows, h);
      err := if te.Some? then te else if ce.Some? then ce else he;
    }
  }

  lemma {:induction false} FoldNothing(t: Table, id: TableId)
    ensures Fold(t, id, []) == t
  {
  }

  /** The first error in table order. */
  function FirstError(t: FlushOutcome, c: FlushOutcome, h: FlushOutcome): Option<Error> {
    if t.WriteFailed? then Some(FlushError(TokenDaily))
    else if c.WriteFailed? then Some(FlushError(ChannelDaily))
    else if h.WriteFailed? then Some(FlushError(HourlyBucket))
    else None
  }
}
