/**
 * Flushes that overlap (internal/master/billing/aggregator.go:371-457).  The buffer is drained under the
 * mutex, but batches are written after it is released: new logs, the ticker's flush and the one of Stop
 * may come in between, and batches may reach the table in another order than they were drained in.
 */
module Pipelines {
  import opened Rollups
  import opened Sequences

  datatype Batch = Batch(rows: Table, logs: seq<Log>)

  const EMPTY := Batch(map[], [])

  /** One table behind the aggregator; `written` and `lost` are the history of its batches. */
  datatype Pipeline = Pipeline(stored: Table, inFlight: seq<Batch>, buffer: Batch, written: seq<Log>, lost: seq<Log>)

  datatype Event = Submit(log: Log, now: int) | Drain | Write(i: nat) | Fail(i: nat)

  function Step(id: TableId, s: Pipeline, e: Event): Pipeline {
    match e
    case Submit(log, now) =>
      s.(buffer := Bumped(id, s.buffer, Stamp(log, now)))
    case Drain =>
      if s.buffer.rows == map[] then s else s.(inFlight := s.inFlight + [s.buffer], buffer := EMPTY)
    case Write(i) =>
      if i >= |s.inFlight| then s
      else
        var b := s.inFlight[i];
        s.(stored := MergeTables(s.stored, b.rows), inFlight := Without(s.inFlight, i),
          written := s.written + b.logs)
    case Fail(i) =>
      if i >= |s.inFlight| then s
      else s.(inFlight := Without(s.inFlight, i), lost := s.lost + s.inFlight[i].logs)
  }

  function Run(id: TableId, t0: Table, events: seq<Event>): Pipeline {
    if events == [] then Pipeline(t0, [], EMPTY, [], [])
    else Step(id, Run(id, t0, events[..|events| - 1]), events[|events| - 1])
  }

  predicate ClockRuns(events: seq<Event>) {
    forall e | e in events && e.Submit? :: e.now > 0
  }

  function Stamped(e: Event): seq<Log> {
    if e.Submit? then [Stamp(e.log, e.now)] else []
  }

  function Submitted(events: seq<Event>): seq<Log> {
    if events == [] then [] else Submitted(events[..|events| - 1]) + Stamped(events[|events| - 1])
  }

  function LogsOf(batches: seq<Batch>): seq<seq<Log>> {
    seq(|batches|, i requires 0 <= i < |batches| => batches[i].logs)
  }

  /** What is in the table or on its way there. */
  function Live(s: Pipeline): seq<Log> {
    s.written + Flatten(LogsOf(s.inFlight)) + s.buffer.logs
  }

  function MergeBatches(t: Table, batches: seq<Batch>): Table
    decreases |batches|
  {
    if batches == [] then t else MergeBatches(MergeTables(t, batches[0].rows), batches[1..])
  }

  /** The table as it will be once everything on its way has been written. */
  function View(s: Pipeline): Table {
    MergeTables(MergeBatches(s.stored, s.inFlight), s.buffer.rows)
  }

  // ---------------------------------------------------------------------------------------------
  // The invariant
  // ---------------------------------------------------------------------------------------------

  ghost predicate Faithful(id: TableId, b: Batch) {
    b.rows == Fold(map[], id, b.logs)
  }

  ghost predicate Inv(id: TableId, t0: Table, s: Pipeline, submitted: seq<Log>) {
    && s.stored == Fold(t0, id, s.written)
    && Faithful(id, s.buffer)
    && (forall b | b in s.inFlight :: Faithful(id, b))
    && multiset(s.written) + multiset(Flatten(LogsOf(s.inFlight))) + multiset(s.buffer.logs) + multiset(s.lost)
      == multiset(submitted)
  }

  /** The buffer with one more log in it. */
  function Bumped(id: TableId, b: Batch, log: Log): Batch {
    Batch(Bump(b.rows, KeyOf(id, log), RowOf(id, log)), b.logs + [log])
  }

  lemma {:induction false} BumpedFaithful(id: TableId, b: Batch, log: Log)
    requires Faithful(id, b) && log.createdAt > 0
    ensures Faithful(id, Bumped(id, b, log))
  {
    BumpIsUpsert(b.rows, KeyOf(id, log), RowOf(id, log));
    FoldMore(map[], id, b.logs, log);
  }

  lemma {:induction false} SubmitKeepsInv(id: TableId, t0: Table, s: Pipeline, submitted: seq<Log>, b: Batch, log: Log)
    requires Inv(id, t0, s, submitted) && Faithful(id, b) && b.logs == s.buffer.logs + [log]
    ensures Inv(id, t0, s.(buffer := b), submitted + [log])
  {
  }

  lemma {:induction false} DrainKeepsInv(id: TableId, t0: Table, s: Pipeline, submitted: seq<Log>)
    requires Inv(id, t0, s, submitted)
    ensures Inv(id, t0, s.(inFlight := s.inFlight + [s.buffer], buffer := EMPTY), submitted)
  {
    assert LogsOf(s.inFlight + [s.buffer]) == LogsOf(s.inFlight) + [s.buffer.logs];
    FlattenAppend(LogsOf(s.inFlight), [s.buffer.logs]);
    FlattenOne(s.buffer.logs);
  }

  lemma {:induction false} TakenOut(batches: seq<Batch>, i: nat)
    requires i < |batches|
    ensures multiset(Flatten(LogsOf(batches)))
      == multiset(Flatten(LogsOf(Without(batches, i)))) + multiset(batches[i].logs)
    ensures forall b | b in Without(batches, i) :: b in batches
  {
    assert LogsOf(Without(batches, i)) == Without(LogsOf(batches), i);
    FlattenWithout(LogsOf(batches), i);
  }

  lemma {:induction false} WriteKeepsInv(id: TableId, t0: Table, s: Pipeline, submitted: seq<Log>, i: nat)
    requires Inv(id, t0, s, submitted) && i < |s.inFlight|
    ensures Inv(id, t0, s.(stored := MergeTables(s.stored, s.inFlight[i].rows),
      inFlight := Without(s.inFlight, i), written := s.written + s.inFlight[i].logs), submitted)
  {
    hide Merge, RowOf, KeyOf, MergeTables;
    var b := s.inFlight[i];
    assert b in s.inFlight;
    TakenOut(s.inFlight, i);
    MergeOfFold(s.stored, id, b.logs);
    FoldAppend(t0, id, s.written, b.logs);
  }

  lemma {:induction false} FailKeepsInv(id: TableId, t0: Table, s: Pipeline, submitted: seq<Log>, i: nat)
    requires Inv(id, t0, s, submitted) && i < |s.inFlight|
    ensures Inv(id, t0, s.(inFlight := Without(s.inFlight, i), lost := s.lost + s.inFlight[i].logs),
      submitted)
  {
    TakenOut(s.inFlight, i);
  }

  lemma {:induction false} StepKeepsInv(id: TableId, t0: Table, s: Pipeline, submitted: seq<Log>, e: Event)
    requires Inv(id, t0, s, submitted) && (e.Submit? ==> e.now > 0)
    ensures Inv(id, t0, Step(id, s, e), submitted + Stamped(e))
  {
    hide Fold, Merge, RowOf, KeyOf, Bump, MergeTables, Flatten;
    assert !e.Submit? ==> submitted + Stamped(e) == submitted;
    match e
    case Submit(log, now) =>
      var b := Bumped(id, s.buffer, Stamp(log, now));
      BumpedFaithful(id, s.buffer, Stamp(log, now));
      SubmitKeepsInv(id, t0, s, submitted, b, Stamp(log, now));
      assert Step(id, s, e) == s.(buffer := b);
    case Drain => DrainKeepsInv(id, t0, s, submitted);
    case Write(i) => if i < |s.inFlight| { WriteKeepsInv(id, t0, s, submitted, i); }
    case Fail(i) => if i < |s.inFlight| { FailKeepsInv(id, t0, s, submitted, i); }
  }

  lemma {:induction false} RunKeepsInv(id: TableId, t0: Table, events: seq<Event>)
    requires ClockRuns(events)
    ensures Inv(id, t0, Run(id, t0, events), Submitted(events))
    decreases |events|
  {
    if events != [] {
      var n := |events| - 1;
      RunKeepsInv(id, t0, events[..n]);
      StepKeepsInv(id, t0, Run(id, t0, events[..n]), Submitted(events[..n]), events[n]);
    }
  }

  // ---------------------------------------------------------------------------------------------
  // What a reader of the table can rely on
  // ---------------------------------------------------------------------------------------------

  lemma {:induction false} MergeBatchesIsFold(t: Table, id: TableId, batches: seq<Batch>)
    requires forall b | b in batches :: Faithful(id, b)
    ensures MergeBatches(t, batches) == Fold(t, id, Flatten(LogsOf(batches)))
    decreases |batches|
  {
    if batches != [] {
      assert batches[0] in batches;
      MergeOfFold(t, id, batches[0].logs);
      MergeBatchesIsFold(Fold(t, id, batches[0].logs), id, batches[1..]);
      assert LogsOf(batches)[1..] == LogsOf(batches[1..]);
      FoldAppend(t, id, batches[0].logs, Flatten(LogsOf(batches[1..])));
    }
  }

  lemma {:induction false} ViewIsFold(id: TableId, t0: Table, s: Pipeline, submitted: seq<Log>)
    requires Inv(id, t0, s, submitted)
    ensures View(s) == Fold(t0, id, Live(s))
  {
    MergeBatchesIsFold(s.stored, id, s.inFlight);
    FoldAppend(t0, id, s.written, Flatten(LogsOf(s.inFlight)));
    MergeOfFold(Fold(t0, id, s.written + Flatten(LogsOf(s.inFlight))), id, s.buffer.logs);
    FoldAppend(t0, id, s.written + Flatten(LogsOf(s.inFlight)), s.buffer.logs);
  }

  /**
   * Whatever overlaps: stored rows merged with the batches in flight and the buffered deltas carry the
   * counters and last_used_at of one upsert per log, over exactly the logs that are not in a lost batch.
   */
  lemma {:induction false} CountersSurviveOverlap(id: TableId, t0: Table, events: seq<Event>, kept: seq<Log>)
    requires ClockRuns(events)
    requires multiset(kept) + multiset(Run(id, t0, events).lost) == multiset(Submitted(events))
    ensures Strip(View(Run(id, t0, events))) == Strip(Fold(t0, id, kept))
  {
    var s := Run(id, t0, events);
    RunKeepsInv(id, t0, events);
    ViewIsFold(id, t0, s, Submitted(events));
    assert multiset(Live(s)) == multiset(Submitted(events)) - multiset(s.lost) == multiset(kept);
    StripPermuted(t0, id, Live(s), kept);
  }

  /** Batches are written or lost in the order they were drained in, as when flushes do not overlap. */
  predicate InOrder(events: seq<Event>) {
    forall e | e in events :: (e.Write? || e.Fail?) ==> e.i == 0
  }

  lemma {:induction false} LiveDrain(s: Pipeline)
    ensures Live(s.(inFlight := s.inFlight + [s.buffer], buffer := EMPTY)) == Live(s)
  {
    assert LogsOf(s.inFlight + [s.buffer]) == LogsOf(s.inFlight) + [s.buffer.logs];
    FlattenAppend(LogsOf(s.inFlight), [s.buffer.logs]);
    FlattenOne(s.buffer.logs);
  }

  /** The oldest batch in flight is what comes behind the written logs. */
  lemma {:induction false} LiveFirst(s: Pipeline)
    requires s.inFlight != []
    ensures Without(s.inFlight, 0) == s.inFlight[1..]
    ensures Live(s) == s.written + s.inFlight[0].logs + (Flatten(LogsOf(s.inFlight[1..])) + s.buffer.logs)
  {
    assert LogsOf(s.inFlight)[1..] == LogsOf(s.inFlight[1..]);
  }

  lemma {:induction false} LiveStep(id: TableId, s: Pipeline, e: Event, submitted: seq<Log>)
    requires Subsequence(Live(s), submitted) && (e.Write? || e.Fail? ==> e.i == 0)
    ensures Subsequence(Live(Step(id, s, e)), submitted + Stamped(e))
  {
    hide MergeTables, Subsequence, Flatten, LogsOf, Bumped, Without;
    assert !e.Submit? ==> submitted + Stamped(e) == submitted;
    match e
    case Submit(log, now) =>
      SubsequenceMore(Live(s), submitted, Stamp(log, now));
      BumpedLogs(id, s.buffer, Stamp(log, now));
      assert Live(Step(id, s, e)) == Live(s) + [Stamp(log, now)];
    case Drain => LiveDrain(s);
    case Write(i) =>
      if s.inFlight != [] {
        LiveFirst(s);
        assert Live(Step(id, s, e)) == Live(s);
      }
    case Fail(i) =>
      if s.inFlight != [] {
        LiveFirst(s);
        var rest := Flatten(LogsOf(s.inFlight[1..])) + s.buffer.logs;
        SubsequenceCut(s.written, s.inFlight[0].logs, rest, submitted);
        assert Live(Step(id, s, e)) == s.written + rest;
      }
  }

  lemma {:induction false} BumpedLogs(id: TableId, b: Batch, log: Log)
    ensures Bumped(id, b, log).logs == b.logs + [log]
  {
  }

  lemma {:induction false} InOrderPrefix(events: seq<Event>)
    requires events != [] && InOrder(events)
    ensures var n := |events| - 1; InOrder(events[..n]) && (events[n].Write? || events[n].Fail? ==> events[n].i == 0)
  {
    assert forall e | e in events[..|events| - 1] :: e in events;
    assert events[|events| - 1] in events;
  }

  lemma {:induction false} NothingLive(id: TableId, t0: Table)
    ensures Live(Run(id, t0, [])) == [] && Submitted([]) == []
  {
  }

  lemma {:induction false} LiveInOrder(id: TableId, t0: Table, events: seq<Event>)
    requires InOrder(events)
    ensures Subsequence(Live(Run(id, t0, events)), Submitted(events))
    decreases |events|
  {
    hide Step, Live, Subsequence, Run, Submitted, InOrder;
    if events == [] {
      NothingLive(id, t0);
      SubsequenceOfNone<Log>();
    } else {
      var n := |events| - 1;
      InOrderPrefix(events);
      LiveInOrder(id, t0, events[..n]);
      RunMore(id, t0, events[..n], events[n]);
      assert events == events[..n] + [events[n]];
      LiveStep(id, Run(id, t0, events[..n]), events[n], Submitted(events[..n]));
    }
  }

  /**
   * When batches reach the table in the order they were drained in, names and updated_at are right as well,
   * whatever batches are lost: the tables agree column by column with one upsert for each kept log, in the
   * order they were submitted in, and with no batch lost those are all logs.
   */
  lemma {:induction false} InOrderIsExact(id: TableId, t0: Table, events: seq<Event>)
    requires ClockRuns(events) && InOrder(events)
    ensures var s := Run(id, t0, events);
      && View(s) == Fold(t0, id, Live(s))
      && Subsequence(Live(s), Submitted(events))
      && multiset(Live(s)) + multiset(s.lost) == multiset(Submitted(events))
      && (s.lost == [] ==> Live(s) == Submitted(events))
  {
    hide Subsequence, Run, Submitted;
    var s := Run(id, t0, events);
    RunKeepsInv(id, t0, events);
    ViewIsFold(id, t0, s, Submitted(events));
    LiveInOrder(id, t0, events);
    if s.lost == [] {
      SameSize(Live(s), Submitted(events));
      SubsequenceOfSameLength(Live(s), Submitted(events));
    }
  }

  lemma {:induction false} RunMore(id: TableId, t0: Table, events: seq<Event>, e: Event)
    ensures Run(id, t0, events + [e]) == Step(id, Run(id, t0, events), e)
    ensures Submitted(events + [e]) == Submitted(events) + Stamped(e)
  {
    hide Step;
    assert (events + [e])[..|events|] == events;
  }

  lemma {:induction false} RunTwoMore(id: TableId, t0: Table, events: seq<Event>, e: Event, e': Event)
    ensures Run(id, t0, events + [e, e']) == Step(id, Step(id, Run(id, t0, events), e), e')
    ensures Submitted(events + [e, e']) == Submitted(events) + Stamped(e) + Stamped(e')
  {
    hide Step;
    RunMore(id, t0, events, e);
    RunMore(id, t0, events + [e], e');
    assert events + [e] + [e'] == events + [e, e'];
  }

  lemma {:induction false} SubmitAndDrain(id: TableId, s: Pipeline, log: Log, now: int)
    requires s.buffer == EMPTY && log.createdAt > 0
    ensures Step(id, Step(id, s, Submit(log, now)), Drain) == s.(inFlight := s.inFlight + [Bumped(id, EMPTY, log)])
  {
    assert KeyOf(id, log) in Bumped(id, EMPTY, log).rows;
  }

  /** Two flushes drained in order and written the other way round. */
  function Overlap(first: Log, second: Log, now: int): seq<Event> {
    [Submit(first, now), Drain] + [Submit(second, now), Drain] + [Write(1), Write(0)]
  }

  lemma {:induction false} SwappedWrites(id: TableId, s: Pipeline, b1: Batch, b2: Batch)
    requires s.inFlight == [b1, b2]
    ensures Step(id, Step(id, s, Write(1)), Write(0)) == s.(
      stored := MergeTables(MergeTables(s.stored, b2.rows), b1.rows), inFlight := [],
      written := s.written + b2.logs + b1.logs)
  {
    assert Without(s.inFlight, 1) == [b1] && Without([b1], 0) == [];
  }

  lemma {:induction false} FlushOne(id: TableId, t0: Table, events: seq<Event>, log: Log, now: int)
    requires Run(id, t0, events).buffer == EMPTY && log.createdAt > 0
    ensures var s := Run(id, t0, events);
      Run(id, t0, events + [Submit(log, now), Drain]) == s.(inFlight := s.inFlight + [Bumped(id, EMPTY, log)])
    ensures Submitted(events + [Submit(log, now), Drain]) == Submitted(events) + [log]
  {
    hide Merge, RowOf, KeyOf, Bump;
    SubmitAndDrain(id, Run(id, t0, events), log, now);
    RunTwoMore(id, t0, events, Submit(log, now), Drain);
    assert Submitted(events) + [log] + [] == Submitted(events) + [log];
  }

  lemma {:induction false} OverlapDrains(id: TableId, t0: Table, first: Log, second: Log, now: int)
    requires first.createdAt > 0 && second.createdAt > 0
    ensures var events := [Submit(first, now), Drain] + [Submit(second, now), Drain];
      && Run(id, t0, events).inFlight == [Bumped(id, EMPTY, first), Bumped(id, EMPTY, second)]
      && Run(id, t0, events).stored == t0
      && Submitted(events) == [first, second]
  {
    hide Merge, RowOf, KeyOf, Bump;
    var one := [Submit(first, now), Drain];
    FlushOne(id, t0, [], first, now);
    assert [] + one == one;
    FlushOne(id, t0, one, second, now);
  }

  lemma {:induction false} OverlapRuns(id: TableId, t0: Table, first: Log, second: Log, now: int)
    requires first.createdAt > 0 && second.createdAt > 0
    ensures var b1, b2 := Bumped(id, EMPTY, first), Bumped(id, EMPTY, second);
      var s := Run(id, t0, Overlap(first, second, now));
      s.stored == MergeTables(MergeTables(t0, b2.rows), b1.rows) && s.inFlight == []
    ensures Submitted(Overlap(first, second, now)) == [first, second]
  {
    hide Merge, RowOf, KeyOf, Bump;
    var events := [Submit(first, now), Drain] + [Submit(second, now), Drain];
    OverlapDrains(id, t0, first, second, now);
    RunTwoMore(id, t0, events, Write(1), Write(0));
    SwappedWrites(id, Run(id, t0, events), Bumped(id, EMPTY, first), Bumped(id, EMPTY, second));
  }

  lemma {:induction false} BumpedNames(id: TableId, t: Table, log: Log)
    ensures var k, u := KeyOf(id, log), MergeTables(t, Bumped(id, EMPTY, log).rows);
      k in u && u[k].names == RowOf(id, log).names
  {
  }

  lemma {:induction false} UpsertNames(t: Table, id: TableId, log: Log)
    ensures var k, u := KeyOf(id, log), UpsertLog(t, id, log);
      k in u && u[k].names == RowOf(id, log).names
  {
  }

  /**
   * Overlapping flushes can leave an outdated name in a row: no batch fails and no log is lost, but the
   * older batch is written last and overwrites the newer name.
   */
  lemma {:induction false} OverlapCanLeaveOldName(id: TableId, t0: Table, first: Log, second: Log, now: int)
    requires first.createdAt > 0 && second.createdAt > 0
    requires KeyOf(id, first) == KeyOf(id, second) && RowOf(id, first).names != RowOf(id, second).names
    ensures forall e | e in Overlap(first, second, now) :: !e.Fail?
    ensures var stored, wanted, k := Run(id, t0, Overlap(first, second, now)).stored,
        Fold(t0, id, Submitted(Overlap(first, second, now))), KeyOf(id, first);
      k in stored && k in wanted && stored[k].names != wanted[k].names
  {
    hide Merge, RowOf, KeyOf;
    OverlapRuns(id, t0, first, second, now);
    BumpedNames(id, MergeTables(t0, Bumped(id, EMPTY, second).rows), first);
    FoldMore(t0, id, [first], second);
    assert [first] + [second] == [first, second];
    UpsertNames(Fold(t0, id, [first]), id, second);
  }
}
