/**
 * Whose names a rollup row shows when flushes overlap (internal/master/billing/aggregator.go:371-457),
 * read off the schedule: which stretch of the submitted logs each batch holds, and in which order the
 * batches are written.
 */
module RowNames {
  import opened Rollups
  import opened Sequences
  import opened Pipelines

  /** The logs of a batch: a stretch of the submitted ones. */
  datatype Span = Span(from: nat, until: nat)

  /** The schedule alone: no rows, no logs. */
  datatype Schedule = Schedule(written: seq<Span>, inFlight: seq<Span>, buffer: Span)

  function Next(s: Schedule, e: Event): Schedule {
    match e
    case Submit(_, _) => s.(buffer := Span(s.buffer.from, s.buffer.until + 1))
    case Drain =>
      if s.buffer.from == s.buffer.until then s
      else s.(inFlight := s.inFlight + [s.buffer], buffer := Span(s.buffer.until, s.buffer.until))
    case Write(i) =>
      if i >= |s.inFlight| then s
      else s.(inFlight := Without(s.inFlight, i), written := s.written + [s.inFlight[i]])
    case Fail(i) =>
      if i >= |s.inFlight| then s else s.(inFlight := Without(s.inFlight, i))
  }

  function ScheduleOf(events: seq<Event>): Schedule {
    if events == [] then Schedule([], [], Span(0, 0))
    else Next(ScheduleOf(events[..|events| - 1]), events[|events| - 1])
  }

  /** The stretches that are not lost, in the order they reach the table. */
  function Kept(s: Schedule): seq<Span> {
    s.written + s.inFlight + [s.buffer]
  }

  // ---------------------------------------------------------------------------------------------
  // The schedule of a run
  // ---------------------------------------------------------------------------------------------

  ghost predicate Inside(sp: Span, n: nat) {
    sp.from <= sp.until <= n
  }

  ghost predicate Apart(a: Span, b: Span) {
    a.until <= b.from || b.until <= a.from
  }

  ghost predicate PairwiseApart(spans: seq<Span>) {
    forall p, q | 0 <= p < q < |spans| :: Apart(spans[p], spans[q])
  }

  ghost predicate AllApart(a: seq<Span>, b: seq<Span>) {
    forall x, y | x in a && y in b :: Apart(x, y)
  }

  ghost predicate AllInside(spans: seq<Span>, n: nat) {
    forall sp | sp in spans :: Inside(sp, n)
  }

  /** Stretches of submissions that do not overlap, the buffer being the newest. */
  ghost predicate Disjoint(sch: Schedule) {
    && sch.buffer.from <= sch.buffer.until
    && AllInside(sch.written, sch.buffer.from) && AllInside(sch.inFlight, sch.buffer.from)
    && PairwiseApart(sch.written) && PairwiseApart(sch.inFlight) && AllApart(sch.written, sch.inFlight)
  }

  lemma {:induction false} DrainDisjoint(sch: Schedule)
    requires Disjoint(sch)
    ensures Disjoint(Schedule(sch.written, sch.inFlight + [sch.buffer], Span(sch.buffer.until, sch.buffer.until)))
  {
    var more := sch.inFlight + [sch.buffer];
    forall p, q | 0 <= p < q < |more|
      ensures Apart(more[p], more[q])
    {
      assert p < |sch.inFlight| && more[p] in sch.inFlight;
    }
  }

  lemma {:induction false} FewerApart(spans: seq<Span>, i: nat)
    requires PairwiseApart(spans) && i < |spans|
    ensures PairwiseApart(Without(spans, i))
    ensures forall sp | sp in Without(spans, i) :: sp in spans && Apart(spans[i], sp)
  {
    var fewer := Without(spans, i);
    forall p, q | 0 <= p < q < |fewer|
      ensures Apart(fewer[p], fewer[q])
    {
      assert fewer[p] == spans[if p < i then p else p + 1] && fewer[q] == spans[if q < i then q else q + 1];
    }
    forall sp | sp in fewer
      ensures sp in spans && Apart(spans[i], sp)
    {
      var p :| 0 <= p < |fewer| && fewer[p] == sp;
      assert sp == spans[if p < i then p else p + 1];
    }
  }

  lemma {:induction false} WriteDisjoint(sch: Schedule, i: nat)
    requires Disjoint(sch) && i < |sch.inFlight|
    ensures Disjoint(sch.(inFlight := Without(sch.inFlight, i), written := sch.written + [sch.inFlight[i]]))
    ensures Disjoint(sch.(inFlight := Without(sch.inFlight, i)))
  {
    hide Inside, Apart;
    FewerApart(sch.inFlight, i);
    assert sch.inFlight[i] in sch.inFlight;
    var more := sch.written + [sch.inFlight[i]];
    forall p, q | 0 <= p < q < |more|
      ensures Apart(more[p], more[q])
    {
      assert p < |sch.written| && more[p] in sch.written;
    }
  }

  function Part(submitted: seq<Log>, sp: Span): seq<Log> {
    if sp.from <= sp.until <= |submitted| then submitted[sp.from..sp.until] else []
  }

  function Parts(submitted: seq<Log>, spans: seq<Span>): seq<seq<Log>> {
    seq(|spans|, i requires 0 <= i < |spans| => Part(submitted, spans[i]))
  }

  /** The schedule tells which logs a run has where. */
  ghost predicate Describes(sch: Schedule, s: Pipeline, submitted: seq<Log>) {
    && Disjoint(sch) && sch.buffer.until == |submitted|
    && LogsOf(s.inFlight) == Parts(submitted, sch.inFlight)
    && s.buffer.logs == Part(submitted, sch.buffer)
    && s.written == Flatten(Parts(submitted, sch.written))
  }

  lemma {:induction false} PartsStay(submitted: seq<Log>, log: Log, spans: seq<Span>)
    requires AllInside(spans, |submitted|)
    ensures Parts(submitted + [log], spans) == Parts(submitted, spans)
  {
    forall i | 0 <= i < |spans|
      ensures Part(submitted + [log], spans[i]) == Part(submitted, spans[i])
    {
      assert Inside(spans[i], |submitted|);
    }
  }

  lemma {:induction false} SubmitDescribed(sch: Schedule, s: Pipeline, submitted: seq<Log>, log: Log, t: Pipeline)
    requires Describes(sch, s, submitted)
    requires t.inFlight == s.inFlight && t.written == s.written && t.buffer.logs == s.buffer.logs + [log]
    ensures Describes(sch.(buffer := Span(sch.buffer.from, sch.buffer.until + 1)), t, submitted + [log])
  {
    assert AllInside(sch.written, |submitted|) && AllInside(sch.inFlight, |submitted|);
    PartsStay(submitted, log, sch.written);
    PartsStay(submitted, log, sch.inFlight);
  }

  lemma {:induction false} DrainDescribed(sch: Schedule, s: Pipeline, submitted: seq<Log>)
    requires Describes(sch, s, submitted)
    ensures Describes(Schedule(sch.written, sch.inFlight + [sch.buffer], Span(sch.buffer.until, sch.buffer.until)),
      s.(inFlight := s.inFlight + [s.buffer], buffer := EMPTY), submitted)
  {
    hide PairwiseApart, AllApart, AllInside;
    DrainDisjoint(sch);
    assert LogsOf(s.inFlight + [s.buffer]) == LogsOf(s.inFlight) + [s.buffer.logs];
    assert Parts(submitted, sch.inFlight + [sch.buffer])
      == Parts(submitted, sch.inFlight) + [Part(submitted, sch.buffer)];
  }

  lemma {:induction false} WriteDescribed(sch: Schedule, s: Pipeline, submitted: seq<Log>, i: nat, stored: Table,
                                          lost: seq<Log>)
    requires Describes(sch, s, submitted) && i < |s.inFlight|
    ensures i < |sch.inFlight|
    ensures Describes(sch.(inFlight := Without(sch.inFlight, i), written := sch.written + [sch.inFlight[i]]),
      s.(stored := stored, inFlight := Without(s.inFlight, i), written := s.written + s.inFlight[i].logs), submitted)
    ensures Describes(sch.(inFlight := Without(sch.inFlight, i)),
      s.(inFlight := Without(s.inFlight, i), lost := lost), submitted)
  {
    hide PairwiseApart, AllApart, AllInside, Part;
    assert |sch.inFlight| == |LogsOf(s.inFlight)|;
    WriteDisjoint(sch, i);
    assert LogsOf(Without(s.inFlight, i)) == Without(LogsOf(s.inFlight), i);
    assert Parts(submitted, Without(sch.inFlight, i)) == Without(Parts(submitted, sch.inFlight), i);
    assert LogsOf(s.inFlight)[i] == s.inFlight[i].logs
      && Parts(submitted, sch.inFlight)[i] == Part(submitted, sch.inFlight[i]);
    var last := [Part(submitted, sch.inFlight[i])];
    assert Parts(submitted, sch.written + [sch.inFlight[i]]) == Parts(submitted, sch.written) + last;
    FlattenAppend(Parts(submitted, sch.written), last);
    FlattenOne(last[0]);
  }

  lemma {:induction false} StepDescribed(id: TableId, sch: Schedule, s: Pipeline, submitted: seq<Log>, e: Event)
    requires Describes(sch, s, submitted) && Faithful(id, s.buffer)
    ensures Describes(Next(sch, e), Step(id, s, e), submitted + Stamped(e))
  {
    assert |sch.inFlight| == |LogsOf(s.inFlight)| == |s.inFlight|;
    assert s.buffer.logs == [] <==> sch.buffer.from == sch.buffer.until;
    hide Describes, MergeTables, Bumped, Part, Parts, LogsOf, Without, Flatten;
    assert !e.Submit? ==> submitted + Stamped(e) == submitted;
    match e
    case Submit(log, now) =>
      BumpedLogs(id, s.buffer, Stamp(log, now));
      SubmitDescribed(sch, s, submitted, Stamp(log, now), Step(id, s, e));
    case Drain =>
      FoldEmptyIff(id, s.buffer.logs);
      DrainDescribed(sch, s, submitted);
    case Write(i) =>
      if i < |s.inFlight| {
        WriteDescribed(sch, s, submitted, i, MergeTables(s.stored, s.inFlight[i].rows), s.lost);
      }
    case Fail(i) =>
      if i < |s.inFlight| {
        WriteDescribed(sch, s, submitted, i, s.stored, s.lost + s.inFlight[i].logs);
      }
  }

  lemma {:induction false} RunDescribed(id: TableId, t0: Table, events: seq<Event>)
    requires ClockRuns(events)
    ensures Describes(ScheduleOf(events), Run(id, t0, events), Submitted(events))
    decreases |events|
  {
    if events == [] {
      assert LogsOf([]) == [] == Parts([], []);
    } else {
      hide Describes, Step, Next, Inv, Faithful;
      var n := |events| - 1;
      RunDescribed(id, t0, events[..n]);
      RunKeepsInv(id, t0, events[..n]);
      BufferFaithful(id, t0, Run(id, t0, events[..n]), Submitted(events[..n]));
      StepDescribed(id, ScheduleOf(events[..n]), Run(id, t0, events[..n]), Submitted(events[..n]), events[n]);
    }
  }

  lemma {:induction false} BufferFaithful(id: TableId, t0: Table, s: Pipeline, submitted: seq<Log>)
    requires Inv(id, t0, s, submitted)
    ensures Faithful(id, s.buffer)
  {
  }

  lemma {:induction false} LiveIsKept(sch: Schedule, s: Pipeline, submitted: seq<Log>)
    requires Describes(sch, s, submitted)
    ensures Live(s) == Flatten(Parts(submitted, Kept(sch)))
  {
    hide Disjoint, Part;
    var w, f, b := Parts(submitted, sch.written), Parts(submitted, sch.inFlight), [Part(submitted, sch.buffer)];
    assert Parts(submitted, Kept(sch)) == w + f + b;
    FlattenAppend(w + f, b);
    FlattenAppend(w, f);
    FlattenOne(b[0]);
  }

  // ---------------------------------------------------------------------------------------------
  // The names of a row
  // ---------------------------------------------------------------------------------------------

  /** Submission j is kept in stretch p and counts under the key. */
  ghost predicate Counts(id: TableId, k: Key, submitted: seq<Log>, spans: seq<Span>, p: int, j: int) {
    0 <= p < |spans| && spans[p].from <= j < spans[p].until <= |submitted| && KeyOf(id, submitted[j]) == k
  }

  ghost predicate HasKey(id: TableId, k: Key, submitted: seq<Log>, spans: seq<Span>, p: int) {
    exists j :: Counts(id, k, submitted, spans, p, j)
  }

  /** The last such submission of the last such stretch: the one that is upserted last. */
  ghost predicate WrittenLast(id: TableId, k: Key, submitted: seq<Log>, spans: seq<Span>, p: int, j: int) {
    && Counts(id, k, submitted, spans, p, j)
    && (forall i | i > j :: !Counts(id, k, submitted, spans, p, i))
    && forall q | q > p :: !HasKey(id, k, submitted, spans, q)
  }

  ghost predicate NoKey(id: TableId, k: Key, logs: seq<Log>) {
    forall log | log in logs :: KeyOf(id, log) != k
  }

  lemma {:induction false} LastOneNames(id: TableId, t: Table, before: seq<Log>, log: Log, after: seq<Log>)
    requires NoKey(id, KeyOf(id, log), after)
    ensures var k, u := KeyOf(id, log), Fold(t, id, before + [log] + after);
      k in u && u[k].names == RowOf(id, log).names && u[k].updatedAt == log.createdAt
    decreases |after|
  {
    hide AddUsage, AddPerf, UsageOf, PerfOf, KeyOf;
    if after == [] {
      assert before + [log] + after == before + [log];
      FoldMore(t, id, before, log);
    } else {
      var n := |after| - 1;
      assert after[n] in after;
      LastOneNames(id, t, before, log, after[..n]);
      assert before + [log] + after == (before + [log] + after[..n]) + [after[n]];
      FoldMore(t, id, before + [log] + after[..n], after[n]);
    }
  }

  lemma {:induction false} NoKeyInParts(id: TableId, k: Key, submitted: seq<Log>, spans: seq<Span>)
    requires forall q | 0 <= q < |spans| :: !HasKey(id, k, submitted, spans, q)
    ensures NoKey(id, k, Flatten(Parts(submitted, spans)))
    decreases |spans|
  {
    if spans != [] {
      var parts := Parts(submitted, spans);
      assert parts[1..] == Parts(submitted, spans[1..]);
      var rest := spans[1..];
      forall q | 0 <= q < |rest|
        ensures !HasKey(id, k, submitted, rest, q)
      {
        if HasKey(id, k, submitted, rest, q) {
          KeyBehind(id, k, submitted, spans, 1, q);
        }
      }
      NoKeyInParts(id, k, submitted, spans[1..]);
      forall log | log in parts[0]
        ensures KeyOf(id, log) != k
      {
        var j :| 0 <= j < |parts[0]| && parts[0][j] == log;
        assert !HasKey(id, k, submitted, spans, 0);
        assert !Counts(id, k, submitted, spans, 0, spans[0].from + j);
      }
    }
  }

  /** A row with a kept log has the names and updated_at of the one that is written last. */
  lemma {:induction false} NamesFromSchedule(id: TableId, t0: Table, events: seq<Event>, k: Key, p: nat, j: nat)
    requires ClockRuns(events) && WrittenLast(id, k, Submitted(events), Kept(ScheduleOf(events)), p, j)
    ensures var u := View(Run(id, t0, events));
      k in u && u[k].names == RowOf(id, Submitted(events)[j]).names && u[k].updatedAt == Submitted(events)[j].createdAt
  {
    hide Run, ScheduleOf, Submitted, Describes, Kept, View, Live, Fold, RowOf, KeyOf;
    var s, submitted, spans := Run(id, t0, events), Submitted(events), Kept(ScheduleOf(events));
    RunKeepsInv(id, t0, events);
    ViewIsFold(id, t0, s, submitted);
    RunDescribed(id, t0, events);
    LiveIsKept(ScheduleOf(events), s, submitted);
    var before, after := SplitAtLast(id, k, submitted, spans, p, j);
    LastOneNames(id, t0, before, submitted[j], after);
  }

  lemma {:induction false} SplitAtLast(id: TableId, k: Key, submitted: seq<Log>, spans: seq<Span>, p: nat, j: nat)
    returns (before: seq<Log>, after: seq<Log>)
    requires WrittenLast(id, k, submitted, spans, p, j)
    ensures KeyOf(id, submitted[j]) == k && NoKey(id, k, after)
    ensures Flatten(Parts(submitted, spans)) == before + [submitted[j]] + after
  {
    hide KeyOf, Flatten, HasKey;
    var parts, sp := Parts(submitted, spans), spans[p];
    FlattenSplit(parts, p);
    assert parts[p] == submitted[sp.from..j] + [submitted[j]] + submitted[j + 1..sp.until];
    assert parts[p + 1..] == Parts(submitted, spans[p + 1..]);
    hide Parts, Counts, WrittenLast, Part;
    NoKeyBehind(id, k, submitted, spans, p, j);
    NoKeyLater(id, k, submitted, spans, p, j);
    var head, tail, later := Flatten(parts[..p]), submitted[j + 1..sp.until], Flatten(parts[p + 1..]);
    before, after := head + submitted[sp.from..j], tail + later;
    assert head + (submitted[sp.from..j] + [submitted[j]] + tail) + later == before + [submitted[j]] + after;
  }

  lemma {:induction false} NoKeyLater(id: TableId, k: Key, submitted: seq<Log>, spans: seq<Span>, p: nat, j: nat)
    requires WrittenLast(id, k, submitted, spans, p, j)
    ensures NoKey(id, k, Flatten(Parts(submitted, spans[p + 1..])))
  {
    hide KeyOf, HasKey, NoKey;
    var rest := spans[p + 1..];
    forall q | 0 <= q < |rest|
      ensures !HasKey(id, k, submitted, rest, q)
    {
      if HasKey(id, k, submitted, rest, q) {
        KeyBehind(id, k, submitted, spans, p + 1, q);
      }
    }
    NoKeyInParts(id, k, submitted, rest);
  }

  lemma {:induction false} KeyBehind(id: TableId, k: Key, submitted: seq<Log>, spans: seq<Span>, m: nat, q: nat)
    requires m <= |spans| && HasKey(id, k, submitted, spans[m..], q)
    ensures HasKey(id, k, submitted, spans, m + q)
  {
    var j :| Counts(id, k, submitted, spans[m..], q, j);
    assert Counts(id, k, submitted, spans, m + q, j);
  }

  lemma {:induction false} NoKeyBehind(id: TableId, k: Key, submitted: seq<Log>, spans: seq<Span>, p: nat, j: nat)
    requires WrittenLast(id, k, submitted, spans, p, j)
    ensures NoKey(id, k, submitted[j + 1..spans[p].until])
  {
    hide KeyOf, HasKey;
    var tail := submitted[j + 1..spans[p].until];
    forall log | log in tail
      ensures KeyOf(id, log) != k
    {
      var i :| 0 <= i < |tail| && tail[i] == log;
      assert !Counts(id, k, submitted, spans, p, j + 1 + i);
    }
  }

  lemma {:induction false} KeptApart(sch: Schedule, p: nat, q: nat)
    requires Disjoint(sch) && p < q < |Kept(sch)|
    ensures Apart(Kept(sch)[p], Kept(sch)[q])
  {
    var w, f := |sch.written|, |sch.inFlight|;
    if q == w + f {
      assert p < w ==> sch.written[p] in sch.written;
      assert p >= w ==> sch.inFlight[p - w] in sch.inFlight;
    } else if p < w <= q {
      assert sch.written[p] in sch.written && sch.inFlight[q - w] in sch.inFlight;
    }
  }

  /** The log written last is the newest one kept: no kept log with the key was submitted after it. */
  ghost predicate IsNewest(id: TableId, k: Key, submitted: seq<Log>, spans: seq<Span>, j: int) {
    forall q, i | Counts(id, k, submitted, spans, q, i) :: i <= j
  }

  /** No batch with the key that was drained later is written before batch p. */
  ghost predicate NotOvertaken(id: TableId, k: Key, submitted: seq<Log>, spans: seq<Span>, p: nat)
    requires p < |spans|
  {
    forall q | 0 <= q < p && HasKey(id, k, submitted, spans, q) :: spans[q].from < spans[p].from
  }

  lemma {:induction false} NewestIffNotOvertaken(id: TableId, k: Key, submitted: seq<Log>, sch: Schedule, p: nat,
                                                 j: nat)
    requires Disjoint(sch) && WrittenLast(id, k, submitted, Kept(sch), p, j)
    ensures IsNewest(id, k, submitted, Kept(sch), j) <==> NotOvertaken(id, k, submitted, Kept(sch), p)
  {
    hide Disjoint, KeyOf, Kept;
    var spans := Kept(sch);
    forall q | 0 <= q < p
      ensures Apart(spans[q], spans[p])
    {
      KeptApart(sch, q, p);
    }
    if IsNewest(id, k, submitted, spans, j) {
      forall q | 0 <= q < p && HasKey(id, k, submitted, spans, q)
        ensures spans[q].from < spans[p].from
      {
        var i :| Counts(id, k, submitted, spans, q, i);
      }
    }
    if NotOvertaken(id, k, submitted, spans, p) {
      forall q, i | Counts(id, k, submitted, spans, q, i)
        ensures i <= j
      {
        assert HasKey(id, k, submitted, spans, q);
      }
    }
  }

  lemma {:induction false} SomeWrittenLast(id: TableId, k: Key, submitted: seq<Log>, spans: seq<Span>, p0: nat)
    returns (p: nat, j: nat)
    requires HasKey(id, k, submitted, spans, p0)
    ensures WrittenLast(id, k, submitted, spans, p, j)
  {
    hide KeyOf;
    p := |spans| - 1;
    while !HasKey(id, k, submitted, spans, p)
      invariant p0 <= p < |spans|
      invariant forall q | q > p :: !HasKey(id, k, submitted, spans, q)
      decreases p
    {
      p := p - 1;
    }
    var first: int :| Counts(id, k, submitted, spans, p, first);
    j := spans[p].until - 1;
    while !Counts(id, k, submitted, spans, p, j)
      invariant first <= j
      invariant forall i | i > j :: !Counts(id, k, submitted, spans, p, i)
      decreases j
    {
      j := j - 1;
    }
  }

  /**
   * Whatever overlaps and whatever is lost, a row with a kept log shows the names of one of them, j, found
   * from the schedule: the last with the key in the last batch with the key.  It is the newest kept log of
   * the row exactly when no batch with the key that was drained later is written before that batch.
   */
  lemma {:induction false} RowNames(id: TableId, t0: Table, events: seq<Event>, k: Key) returns (p: nat, j: nat)
    requires ClockRuns(events)
    requires exists q: nat :: HasKey(id, k, Submitted(events), Kept(ScheduleOf(events)), q)
    ensures WrittenLast(id, k, Submitted(events), Kept(ScheduleOf(events)), p, j)
    ensures var u := View(Run(id, t0, events));
      k in u && u[k].names == RowOf(id, Submitted(events)[j]).names && u[k].updatedAt == Submitted(events)[j].createdAt
    ensures IsNewest(id, k, Submitted(events), Kept(ScheduleOf(events)), j)
      <==> NotOvertaken(id, k, Submitted(events), Kept(ScheduleOf(events)), p)
  {
    hide View, Run, Submitted, ScheduleOf, Kept, RowOf, KeyOf, WrittenLast, IsNewest, NotOvertaken, Disjoint;
    var q: nat :| HasKey(id, k, Submitted(events), Kept(ScheduleOf(events)), q);
    p, j := SomeWrittenLast(id, k, Submitted(events), Kept(ScheduleOf(events)), q);
    NamesFromSchedule(id, t0, events, k, p, j);
    RunDescribed(id, t0, events);
    NewestIffNotOvertaken(id, k, Submitted(events), ScheduleOf(events), p, j);
  }
}
