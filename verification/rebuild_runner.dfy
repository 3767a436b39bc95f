/**
 * The rebuild transactions and the background job (internal/dao/billing.go:634-825,
 * internal/master/billing/rebuild_runner.go).  A clock-free model of one job: cancellation and slice
 * errors are given per slice; a failed transaction leaves the tables as they were.
 */
module RebuildRunner {
  import opened Options
  import opened Sequences
  import opened Rollups
  import opened Aggregation
  import opened Rebuilds

  datatype JobStatus = Running | Succeeded | Failed | Canceled

  datatype SliceFate = Commits | Errors | ContextDone

  /** resolveRebuildTargets: no names mean all tables, an unknown name is an error. */
  function ResolveTargets(names: seq<string>): (targets: Option<set<TableId>>)
    ensures names == [] ==> targets == Some({TokenDaily, ChannelDaily, HourlyBucket})
    ensures names != [] ==> (targets.Some? <==> forall name | name in names :: TargetOf(name).Some?)
    ensures names != [] && targets.Some? ==>
      forall id: TableId :: id in targets.value <==> exists name | name in names :: TargetOf(name) == Some(id)
  {
    if names == [] then Some({TokenDaily, ChannelDaily, HourlyBucket})
    else if forall name | name in names :: TargetOf(name).Some? then
      Some(set name | name in names :: TargetOf(name).value)
    else None
  }

  function TargetOf(name: string): Option<TableId> {
    if name == "token_daily" then Some(TokenDaily)
    else if name == "channel_daily" then Some(ChannelDaily)
    else if name == "hourly_bucket" then Some(HourlyBucket)
    else None
  }

  /** Which table a name stands for, and when a list of names is refused. */
  lemma {:induction false} TargetsMeaning(names: seq<string>)
    ensures var targets := ResolveTargets(names);
      && (targets.None? <==> exists n :: n in names && n !in {"token_daily", "channel_daily", "hourly_bucket"})
      && (targets.Some? ==>
            && (TokenDaily in targets.value <==> names == [] || "token_daily" in names)
            && (ChannelDaily in targets.value <==> names == [] || "channel_daily" in names)
            && (HourlyBucket in targets.value <==> names == [] || "hourly_bucket" in names))
  {
    hide ResolveTargets;
    forall n
      ensures TargetOf(n).None? <==> n !in {"token_daily", "channel_daily", "hourly_bucket"}
      ensures TargetOf(n) == Some(TokenDaily) <==> n == "token_daily"
      ensures TargetOf(n) == Some(ChannelDaily) <==> n == "channel_daily"
      ensures TargetOf(n) == Some(HourlyBucket) <==> n == "hourly_bucket"
    {
      assert "token_daily"[0] == 't' && "channel_daily"[0] == 'c' && "hourly_bucket"[0] == 'h';
    }
  }

  /** A table that is replayed into only when it is targeted. */
  function Replay(targets: set<TableId>, t: Table, id: TableId, logs: seq<Log>): Table {
    if id in targets then Fold(t, id, logs) else t
  }

  lemma {:induction false} ReplayMore(targets: set<TableId>, t: Table, id: TableId, logs: seq<Log>, i: nat)
    requires i < |logs|
    ensures Replay(targets, t, id, logs[..i + 1])
      == if id in targets then UpsertLog(Replay(targets, t, id, logs[..i]), id, logs[i]) else t
  {
    hide UpsertLog;
    assert logs[..i + 1][..i] == logs[..i];
  }

  /** The replay loop: every log into each targeted table, counting the logs. */
  method ReplayLogs(targets: set<TableId>, t: Table, c: Table, h: Table, logs: seq<Log>)
    returns (tokens: Table, channels: Table, hourly: Table, replayed: nat)
    ensures tokens == Replay(targets, t, TokenDaily, logs)
    ensures channels == Replay(targets, c, ChannelDaily, logs)
    ensures hourly == Replay(targets, h, HourlyBucket, logs)
    ensures replayed == |logs|
  {
    hide Replay, UpsertLog, Fold;
    ReplayNone(targets, t, TokenDaily);
    ReplayNone(targets, c, ChannelDaily);
    ReplayNone(targets, h, HourlyBucket);
    tokens, channels, hourly, replayed := t, c, h, 0;
    for i := 0 to |logs|
      invariant tokens == Replay(targets, t, TokenDaily, logs[..i])
      invariant channels == Replay(targets, c, ChannelDaily, logs[..i])
      invariant hourly == Replay(targets, h, HourlyBucket, logs[..i])
      invariant replayed == i
    {
      ReplayMore(targets, t, TokenDaily, logs, i);
      ReplayMore(targets, c, ChannelDaily, logs, i);
      ReplayMore(targets, h, HourlyBucket, logs, i);
      ReplayUntargeted(targets, t, TokenDaily, logs[..i]);
      ReplayUntargeted(targets, c, ChannelDaily, logs[..i]);
      ReplayUntargeted(targets, h, HourlyBucket, logs[..i]);
      if TokenDaily in targets {
        tokens := UpsertLog(tokens, TokenDaily, logs[i]);
      }
      if ChannelDaily in targets {
        channels := UpsertLog(channels, ChannelDaily, logs[i]);
      }
      if HourlyBucket in targets {
        hourly := UpsertLog(hourly, HourlyBucket, logs[i]);
      }
      replayed := replayed + 1;
    }
    assert logs[..|logs|] == logs;
  }

  lemma {:induction false} ReplayNone(targets: set<TableId>, t: Table, id: TableId)
    ensures Replay(targets, t, id, []) == t
  {
  }

  lemma {:induction false} ReplayUntargeted(targets: set<TableId>, t: Table, id: TableId, logs: seq<Log>)
    ensures id !in targets ==> Replay(targets, t, id, logs) == t
  {
  }

  /** One targeted table after a slice; the others stay as they are. */
  function SliceTable(targets: set<TableId>, t: Table, id: TableId, logs: seq<Log>, date: int, hour: int,
                      reset: bool): Table
    requires 0 <= hour < 24
  {
    if id in targets then RebuildSlice(t, id, logs, date, hour, reset) else t
  }

  method RebuildHourSlice(db: Database, names: seq<string>, logs: seq<Log>, date: int, hour: int, resetDaily: bool,
                          commits: bool)
    returns (replayed: Option<nat>)
    modifies db
    ensures replayed.Some? <==> ResolveTargets(names).Some? && 0 <= hour < 24 && commits
    ensures replayed.None? ==> unchanged(db)
    ensures replayed.Some? ==>
      var targets := ResolveTargets(names).value;
      && db.tokens == SliceTable(targets, old(db.tokens), TokenDaily, logs, date, hour, resetDaily)
      && db.channels == SliceTable(targets, old(db.channels), ChannelDaily, logs, date, hour, resetDaily)
      && db.hourly == SliceTable(targets, old(db.hourly), HourlyBucket, logs, date, hour, resetDaily)
      && replayed.value == |Filter(logs, Window(HourRange(date, hour).value.0, HourRange(date, hour).value.1))|
  {
    hide Fold, Filter, Drop, HourRange, ClearedBy;
    var resolved := ResolveTargets(names);
    var range := HourRange(date, hour);
    if resolved.None? || range.None? || !commits {
      return None;
    }
    var targets := resolved.value;
    var tokens, channels, hourly := db.tokens, db.channels, db.hourly;
    if TokenDaily in targets {
      tokens := Drop(tokens, ClearedBy(TokenDaily, date, hour, resetDaily));
    }
    if ChannelDaily in targets {
      channels := Drop(channels, ClearedBy(ChannelDaily, date, hour, resetDaily));
    }
    if HourlyBucket in targets {
      hourly := Drop(hourly, ClearedBy(HourlyBucket, date, hour, resetDaily));
    }
    var selected := Filter(logs, Window(range.value.0, range.value.1));
    var t, c, h, n := ReplayLogs(targets, tokens, channels, hourly, selected);
    db.tokens, db.channels, db.hourly := t, c, h;
    replayed := Some(n);
  }

  /**
   * RebuildDailyRollups: all or nothing, in one transaction.  That the database may refuse to delete without
   * any condition, when both ends are open, is one way not to commit.
   */
  method RebuildDailyRollups(
    db: Database, names: seq<string>, logs: seq<Log>, from: Option<int>, to: Option<int>, commits: bool)
    returns (replayed: Option<nat>)
    modifies db
    ensures replayed.Some? <==> ResolveTargets(names).Some? && commits
    ensures replayed.None? ==> unchanged(db)
    ensures replayed.Some? ==>
      var targets := ResolveTargets(names).value;
      && db.tokens == (if TokenDaily in targets then RebuildRange(old(db.tokens), TokenDaily, logs, from, to)
        else old(db.tokens))
      && db.channels
        == (if ChannelDaily in targets then RebuildRange(old(db.channels), ChannelDaily, logs, from, to)
          else old(db.channels))
      && db.hourly
        == (if HourlyBucket in targets then RebuildRange(old(db.hourly), HourlyBucket, logs, from, to)
          else old(db.hourly))
      && replayed.value == |Filter(logs, Created(from, to))|
  {
    hide Fold, Filter, Drop, Dated, Created;
    var resolved := ResolveTargets(names);
    if resolved.None? || !commits {
      return None;
    }
    var targets := resolved.value;
    var tokens, channels, hourly := db.tokens, db.channels, db.hourly;
    if TokenDaily in targets {
      tokens := Drop(tokens, Dated(from, to));
    }
    if ChannelDaily in targets {
      channels := Drop(channels, Dated(from, to));
    }
    if HourlyBucket in targets {
      hourly := Drop(hourly, Dated(from, to));
    }
    var selected := Filter(logs, Created(from, to));
    var t, c, h, n := ReplayLogs(targets, tokens, channels, hourly, selected);
    db.tokens, db.channels, db.hourly := t, c, h;
    replayed := Some(n);
  }

  /** runnerNormalizeDateRange together with the check in Submit that one end is given. */
  function NormalizeRange(start: Option<int>, end: Option<int>): (range: Option<(int, int)>)
    ensures range.None? <==> (start.None? && end.None?) || (start.Some? && end.Some? && start.value > end.value)
    ensures range.Some? ==> range.value.0 <= range.value.1
    ensures range.Some? && start.Some? ==> range.value.0 == start.value
    ensures range.Some? && end.Some? ==> range.value.1 == end.value
  {
    match (start, end)
    case (None, None) => None
    case (Some(s), None) => Some((s, s))
    case (None, Some(e)) => Some((e, e))
    case (Some(s), Some(e)) => if s > e then None else Some((s, e))
  }

  method EnumerateDays(start: int, end: int) returns (days: seq<int>)
    requires start <= end
    ensures |days| == end - start + 1 && forall i | 0 <= i < |days| :: days[i] == start + i
  {
    days := [];
    var d := start;
    while d <= end
      invariant start <= d <= end + 1 && |days| == d - start
      invariant forall i | 0 <= i < |days| :: days[i] == start + i
    {
      days := days + [d];
      d := d + 1;
    }
  }

  class RebuildJob {
    const first: int
    const last: int
    const targets: seq<string>
    var status: JobStatus
    var doneSlices: nat
    var totalSlices: nat
    var replayedLogs: nat

    constructor (first: int, last: int, targets: seq<string>)
      requires first <= last
      ensures this.first == first && this.last == last && this.targets == targets
      ensures status == Running && doneSlices == 0 && totalSlices == 24 * (last - first + 1) && replayedLogs == 0
    {
      this.first, this.last, this.targets := first, last, targets;
      status, doneSlices, totalSlices, replayedLogs := Running, 0, 24 * (last - first + 1), 0;
    }

    /**
     * The worker: 24 slices a day, the first of each day clearing its daily rows.  Whatever happens, the
     * tables hold exactly the committed slices; all of them if and only if the job succeeded.
     */
    method Run(db: Database, logs: seq<Log>, fates: seq<SliceFate>)
      requires status == Running && doneSlices == 0 && replayedLogs == 0
      requires first <= last && totalSlices == 24 * (last - first + 1) && |fates| == totalSlices
      modifies this, db
      ensures status != Running && totalSlices == old(totalSlices)
      ensures doneSlices == totalSlices <==> status == Succeeded
      ensures status == Succeeded <==> ResolveTargets(targets).Some? && forall f | f in fates :: f == Commits
      ensures status == Canceled ==> doneSlices < totalSlices && fates[doneSlices] == ContextDone
      ensures status == Failed ==>
        doneSlices < totalSlices && (fates[doneSlices] == Errors || ResolveTargets(targets).None?)
      ensures db.tokens == JobTable(targets, old(db.tokens), TokenDaily, logs, first, doneSlices)
      ensures db.channels == JobTable(targets, old(db.channels), ChannelDaily, logs, first, doneSlices)
      ensures db.hourly == JobTable(targets, old(db.hourly), HourlyBucket, logs, first, doneSlices)
      ensures replayedLogs == |Replayed(logs, first, doneSlices)|
    {
      hide JobTable, Replayed, SliceTable, Filter, HourRange, ResolveTargets, SliceStart, Window, Holds;
      var days := EnumerateDays(first, last);
      ghost var (t, c, h) := (db.tokens, db.channels, db.hourly);
      HoldsStart(targets, t, c, h, logs, first);
      for d := 0 to |days|
        invariant status == Running && doneSlices == 24 * d && totalSlices == 24 * |days|
        invariant d > 0 ==> ResolveTargets(targets).Some?
        invariant forall k | 0 <= k < doneSlices :: fates[k] == Commits
        invariant Holds(targets, t, c, h, logs, first, doneSlices, db.tokens, db.channels, db.hourly, replayedLogs)
      {
        for hour := 0 to 24
          invariant status == Running && doneSlices == 24 * d + hour && totalSlices == 24 * |days|
          invariant d > 0 || hour > 0 ==> ResolveTargets(targets).Some?
          invariant forall k | 0 <= k < doneSlices :: fates[k] == Commits
          invariant Holds(targets, t, c, h, logs, first, doneSlices, db.tokens, db.channels, db.hourly, replayedLogs)
        {
          assert fates[doneSlices] in fates;
          HoldsMeans(targets, t, c, h, logs, first, doneSlices, db.tokens, db.channels, db.hourly, replayedLogs);
          if fates[doneSlices] == ContextDone {
            status := Canceled;
            return;
          }
          var res := RebuildHourSlice(db, targets, logs, days[d], hour, hour == 0, fates[doneSlices] == Commits);
          if res.None? {
            status := Failed;
            return;
          }
          HoldsMore(targets, t, c, h, logs, first, doneSlices, days[d], hour);
          doneSlices := doneSlices + 1;
          replayedLogs := replayedLogs + res.value;
        }
      }
      HoldsMeans(targets, t, c, h, logs, first, doneSlices, db.tokens, db.channels, db.hourly, replayedLogs);
      status := Succeeded;
    }
  }

  /** The tables and the number of logs replayed are those of n committed slices. */
  ghost predicate Holds(names: seq<string>, t: Table, c: Table, h: Table, logs: seq<Log>, first: int, n: nat,
                        tokens: Table, channels: Table, hourly: Table, replayed: nat) {
    && tokens == JobTable(names, t, TokenDaily, logs, first, n)
    && channels == JobTable(names, c, ChannelDaily, logs, first, n)
    && hourly == JobTable(names, h, HourlyBucket, logs, first, n)
    && replayed == |Replayed(logs, first, n)|
  }

  lemma {:induction false} HoldsMeans(names: seq<string>, t: Table, c: Table, h: Table, logs: seq<Log>, first: int,
                                      n: nat, tokens: Table, channels: Table, hourly: Table, replayed: nat)
    requires Holds(names, t, c, h, logs, first, n, tokens, channels, hourly, replayed)
    ensures tokens == JobTable(names, t, TokenDaily, logs, first, n)
    ensures channels == JobTable(names, c, ChannelDaily, logs, first, n)
    ensures hourly == JobTable(names, h, HourlyBucket, logs, first, n)
    ensures replayed == |Replayed(logs, first, n)|
  {
  }

  lemma {:induction false} HoldsStart(names: seq<string>, t: Table, c: Table, h: Table, logs: seq<Log>, first: int)
    ensures Holds(names, t, c, h, logs, first, 0, t, c, h, 0)
  {
    hide JobTable, Replayed;
    JobTableStart(names, t, TokenDaily, logs, first);
    JobTableStart(names, c, ChannelDaily, logs, first);
    JobTableStart(names, h, HourlyBucket, logs, first);
  }

  /** A table when one more slice follows the first n. */
  function AfterSlice(names: seq<string>, t: Table, id: TableId, logs: seq<Log>, first: int, n: nat, date: int,
                      hour: int): Table
    requires ResolveTargets(names).Some? && 0 <= hour < 24
  {
    SliceTable(ResolveTargets(names).value, JobTable(names, t, id, logs, first, n), id, logs, date, hour, hour == 0)
  }

  lemma {:induction false} HoldsMore(names: seq<string>, t: Table, c: Table, h: Table, logs: seq<Log>, first: int,
                                     n: nat, date: int, hour: int)
    requires ResolveTargets(names).Some? && date == first + n / 24 && hour == n % 24
    ensures var range := HourRange(date, hour).value;
      Holds(names, t, c, h, logs, first, n + 1,
        AfterSlice(names, t, TokenDaily, logs, first, n, date, hour),
        AfterSlice(names, c, ChannelDaily, logs, first, n, date, hour),
        AfterSlice(names, h, HourlyBucket, logs, first, n, date, hour),
        |Replayed(logs, first, n)| + |Filter(logs, Window(range.0, range.1))|)
  {
    hide JobTable, Replayed, SliceTable, Filter, HourRange, ResolveTargets, SliceStart, Window;
    JobTableMore(names, t, TokenDaily, logs, first, n);
    JobTableMore(names, c, ChannelDaily, logs, first, n);
    JobTableMore(names, h, HourlyBucket, logs, first, n);
    ReplayedMore(logs, first, n);
  }

  /** A table after the first n slices of a job with these targets. */
  function JobTable(names: seq<string>, t: Table, id: TableId, logs: seq<Log>, first: int, n: nat): Table {
    var targets := ResolveTargets(names);
    if targets.Some? && id in targets.value then Rebuilt(t, id, logs, first, n) else t
  }

  lemma {:induction false} JobTableStart(names: seq<string>, t: Table, id: TableId, logs: seq<Log>, first: int)
    ensures JobTable(names, t, id, logs, first, 0) == t
    ensures Replayed(logs, first, 0) == []
  {
  }

  lemma {:induction false} JobTableMore(names: seq<string>, t: Table, id: TableId, logs: seq<Log>, first: int, n: nat)
    requires ResolveTargets(names).Some?
    ensures JobTable(names, t, id, logs, first, n + 1) == SliceTable(ResolveTargets(names).value,
      JobTable(names, t, id, logs, first, n), id, logs, first + n / 24, n % 24, n % 24 == 0)
  {
    hide Rebuilt, RebuildSlice, ResolveTargets;
    RebuiltMore(t, id, logs, first, n);
  }

  lemma {:induction false} ReplayedMore(logs: seq<Log>, first: int, n: nat)
    ensures var range := HourRange(first + n / 24, n % 24).value;
      |Replayed(logs, first, n + 1)| == |Replayed(logs, first, n)| + |Filter(logs, Window(range.0, range.1))|
  {
    SliceIsHour(first, n);
  }

  /**
   * A succeeded job and RebuildDailyRollups over the same range report the same number of logs and leave
   * every targeted table with the same keys, counters and last_used_at.
   */
  lemma {:induction false} JobMatchesRollups(
    names: seq<string>, t: Table, id: TableId, logs: seq<Log>, first: int, last: int)
    requires first <= last && Typed(id, t)
    requires ResolveTargets(names).Some? && id in ResolveTargets(names).value
    ensures var total := 24 * (last - first + 1);
      && Strip(JobTable(names, t, id, logs, first, total)) == Strip(RebuildRange(t, id, logs, Some(first), Some(last)))
      && |Replayed(logs, first, total)| == |Filter(logs, Created(Some(first), Some(last)))|
  {
    hide Strip, Rebuilt, RebuildRange, ResolveTargets, Replayed, Filter, SliceStart, Created;
    var total := 24 * (last - first + 1);
    SlicesRebuildRange(t, id, logs, first, last);
    ReplayedMultiset(logs, first, total);
    RangeIsSlices(logs, first, last);
    SameSize(Replayed(logs, first, total), Filter(logs, Window(SliceStart(first, 0), SliceStart(first, total))));
  }
}
